/** The session state tracker of the ticker build (captive/captive.go).
    The package-level `currentState` is a `Monitor` object; every lookup of
    the outbound IP, every HTTP probe and every browser launch of a cycle is
    an input of the method that performs it. Pure functions on a snapshot
    of the state (`Check`, `Tick`) specify the methods, and the properties
    of the browser-open gate are proved about them. */
module Tracker {
  import opened Http

  /** An integer stand-in for the `time.Time` of an update; only equality is ever used. */
  type Instant = int

  datatype NetworkState = NetworkState(
    outboundIP: string,
    lastCheck: Instant,
    isConnected: bool,
    hasCaptivePortal: bool,
    browserOpened: bool)

  /** Go's zero value of NetworkState. */
  const ZeroState := NetworkState("", 0, false, false, false)

  /** CheckInternetConnectivity, given the reply of its GET (None on a
      transport error or timeout). */
  function CheckInternetConnectivity(reply: Option<Response>): (connected: bool)
    ensures reply.None? ==> !connected
    ensures reply.Some? ==> (connected <==> reply.value.status == StatusOK)
  {
    reply.Some? && reply.value.status == StatusOK
  }

  /** CheckCaptivePortal, given the reply of its GET, redirects not
      followed (None on a transport error or timeout). */
  function CheckCaptivePortal(reply: Option<Response>): (portal: bool)
    ensures reply.None? ==> !portal
    ensures reply.Some? ==> (portal <==> reply.value.status != StatusNoContent)
  {
    reply.Some? && reply.value.status != StatusNoContent
  }

  /** A reply proving connectivity would count as a portal on the portal probe. */
  lemma StatusPredicates(reply: Option<Response>)
    ensures CheckInternetConnectivity(reply) ==> CheckCaptivePortal(reply)
  {
  }

  /** HasNetworkChanged, given the result of its IP lookup. */
  predicate NetworkChanged(s: NetworkState, lookup: Option<string>) {
    lookup.Some? && lookup.value != s.outboundIP
  }

  /** UpdateNetworkState: None when the IP lookup fails. */
  function Updated(s: NetworkState, lookup: Option<string>, now: Instant): (r: Option<NetworkState>)
    ensures r.Some? <==> lookup.Some?
    ensures r.Some? ==> r.value.outboundIP == lookup.value && r.value.lastCheck == now
    ensures r.Some? ==> r.value.(outboundIP := s.outboundIP, lastCheck := s.lastCheck) == s
  {
    match lookup
    case None => None
    case Some(ip) => Some(s.(outboundIP := ip, lastCheck := now))
  }

  /** The new state after performConnectivityCheck and whether it
      requested a browser launch. */
  datatype CheckResult = CheckResult(state: NetworkState, launched: bool)

  /** performConnectivityCheck: `connectivity` and `portal` are the replies
      of the two probes, `launchOk` says whether the launch would return nil. */
  function Check(s: NetworkState, connectivity: Option<Response>, portal: Option<Response>, launchOk: bool)
    : (r: CheckResult)
    ensures r.state.outboundIP == s.outboundIP && r.state.lastCheck == s.lastCheck
    ensures r.state.isConnected == CheckInternetConnectivity(connectivity)
    ensures CheckInternetConnectivity(connectivity) ==>
              !r.state.hasCaptivePortal && !r.state.browserOpened && !r.launched
    ensures !CheckInternetConnectivity(connectivity) ==>
              r.state.hasCaptivePortal == CheckCaptivePortal(portal)
    ensures r.launched <==>
              !CheckInternetConnectivity(connectivity) && CheckCaptivePortal(portal) && !s.browserOpened
    ensures r.launched ==> r.state.browserOpened == launchOk
    ensures !r.launched && !CheckInternetConnectivity(connectivity) ==>
              r.state.browserOpened == s.browserOpened
  {
    if CheckInternetConnectivity(connectivity) then
      CheckResult(s.(isConnected := true, hasCaptivePortal := false, browserOpened := false), false)
    else
      var hasPortal := CheckCaptivePortal(portal);
      var s1 := s.(isConnected := false, hasCaptivePortal := hasPortal);
      if hasPortal && !s.browserOpened then
        CheckResult(s1.(browserOpened := launchOk), true)
      else
        CheckResult(s1, false)
  }

  /** What the world answers during one tick: the IP lookups of
      HasNetworkChanged and UpdateNetworkState, the clock, the two probe
      replies and the result of the launch. */
  datatype TickInput = TickInput(
    changeLookup: Option<string>,
    updateLookup: Option<string>,
    now: Instant,
    connectivity: Option<Response>,
    portal: Option<Response>,
    launchOk: bool)

  /** The new state after one tick, whether the connectivity check ran and
      whether a browser launch was requested. */
  datatype TickResult = TickResult(state: NetworkState, checked: bool, launched: bool)

  /** The body of MonitorCaptivePortal's ticker case. */
  function Tick(s: NetworkState, i: TickInput): TickResult {
    if NetworkChanged(s, i.changeLookup) then
      match Updated(s, i.updateLookup, i.now)
      case None => TickResult(s, false, false)
      case Some(s1) =>
        var c := Check(s1.(browserOpened := false), i.connectivity, i.portal, i.launchOk);
        TickResult(c.state, true, c.launched)
    else
      var c := Check(s, i.connectivity, i.portal, i.launchOk);
      TickResult(c.state, true, c.launched)
  }

  /** The setup of MonitorCaptivePortal before the ticker: an update and a
      first check; `checked` false means monitoring stopped. */
  function Startup(s: NetworkState, lookup: Option<string>, now: Instant,
                   connectivity: Option<Response>, portal: Option<Response>, launchOk: bool): TickResult
  {
    match Updated(s, lookup, now)
    case None => TickResult(s, false, false)
    case Some(s1) =>
      var c := Check(s1, connectivity, portal, launchOk);
      TickResult(c.state, true, c.launched)
  }

  /** A changed IP whose update fails skips the whole tick. */
  lemma TickUpdateFails(s: NetworkState, i: TickInput)
    requires NetworkChanged(s, i.changeLookup) && i.updateLookup.None?
    ensures Tick(s, i) == TickResult(s, false, false)
  {
  }

  /** A changed IP whose update succeeds re-arms the gate before the check:
      whatever the old gate, a portal without connectivity is launched, and
      the gate ends closed exactly when that launch succeeded. */
  lemma TickChangeRearms(s: NetworkState, i: TickInput)
    requires NetworkChanged(s, i.changeLookup) && i.updateLookup.Some?
    ensures var r := Tick(s, i);
            r.checked
            && r.state.outboundIP == i.updateLookup.value && r.state.lastCheck == i.now
            && (r.launched <==> !CheckInternetConnectivity(i.connectivity) && CheckCaptivePortal(i.portal))
            && r.state.browserOpened == (r.launched && i.launchOk)
  {
  }

  /** Connectivity seen by a tick that runs the check ends with a connected
      state, no portal, an open gate and no launch, whatever came before. */
  lemma TickConnected(s: NetworkState, i: TickInput)
    requires CheckInternetConnectivity(i.connectivity) && Tick(s, i).checked
    ensures var r := Tick(s, i);
            r.state.isConnected && !r.state.hasCaptivePortal && !r.state.browserOpened && !r.launched
  {
  }

  /** Without a network change, a closed gate stays closed and nothing is
      launched while connectivity is missing; with no portal and no
      connectivity, the gate is left as it was. */
  lemma TickGateHeld(s: NetworkState, i: TickInput)
    requires !NetworkChanged(s, i.changeLookup) && !CheckInternetConnectivity(i.connectivity)
    ensures s.browserOpened ==> !Tick(s, i).launched && Tick(s, i).state.browserOpened
    ensures !CheckCaptivePortal(i.portal) ==>
              !Tick(s, i).launched && Tick(s, i).state.browserOpened == s.browserOpened
  {
  }

  /** The gate and the portal flag are never set together with the
      connectivity flag. */
  predicate Consistent(s: NetworkState) {
    (s.browserOpened || s.hasCaptivePortal) ==> !s.isConnected
  }

  lemma TickKeepsConsistent(s: NetworkState, i: TickInput)
    requires Consistent(s)
    ensures Consistent(Tick(s, i).state)
  {
  }

  /** The state after a sequence of ticks. */
  function Replay(s: NetworkState, ins: seq<TickInput>): NetworkState
    decreases |ins|
  {
    if ins == [] then s else Replay(Tick(s, ins[0]).state, ins[1..])
  }

  /** The number of launches requested over a sequence of ticks. */
  function LaunchRequests(s: NetworkState, ins: seq<TickInput>): nat
    decreases |ins|
  {
    if ins == [] then 0
    else (if Tick(s, ins[0]).launched then 1 else 0) + LaunchRequests(Tick(s, ins[0]).state, ins[1..])
  }

  /** The number of launches that returned nil over a sequence of ticks. */
  function SuccessfulLaunches(s: NetworkState, ins: seq<TickInput>): nat
    decreases |ins|
  {
    if ins == [] then 0
    else (if Tick(s, ins[0]).launched && ins[0].launchOk then 1 else 0)
         + SuccessfulLaunches(Tick(s, ins[0]).state, ins[1..])
  }

  /** Every tick sees the IP `ip` (or fails to look it up) and no
      connectivity. */
  predicate SameNetworkOffline(ip: string, ins: seq<TickInput>) {
    forall k :: 0 <= k < |ins| ==>
      (ins[k].changeLookup.None? || ins[k].changeLookup.value == ip)
      && !CheckInternetConnectivity(ins[k].connectivity)
  }

  /** Once the gate is closed it stays closed, and nothing is launched,
      until the IP changes or connectivity is seen. */
  lemma {:induction false} GateStaysClosed(s: NetworkState, ins: seq<TickInput>)
    requires s.browserOpened && SameNetworkOffline(s.outboundIP, ins)
    ensures Replay(s, ins).browserOpened && LaunchRequests(s, ins) == 0
    decreases |ins|
  {
    if ins != [] {
      var r := Tick(s, ins[0]);
      assert !NetworkChanged(s, ins[0].changeLookup);
      assert SameNetworkOffline(r.state.outboundIP, ins[1..]) by {
        forall k | 0 <= k < |ins[1..]| ensures ins[1..][k] == ins[k + 1] { }
      }
      GateStaysClosed(r.state, ins[1..]);
    }
  }

  /** While the IP stays the same and connectivity is not seen, at most one
      launch succeeds, and none if the gate was already closed. */
  lemma {:induction false} AtMostOneLaunchPerNetwork(s: NetworkState, ins: seq<TickInput>)
    requires SameNetworkOffline(s.outboundIP, ins)
    ensures SuccessfulLaunches(s, ins) <= if s.browserOpened then 0 else 1
    decreases |ins|
  {
    if ins != [] {
      var r := Tick(s, ins[0]);
      assert !NetworkChanged(s, ins[0].changeLookup);
      assert SameNetworkOffline(r.state.outboundIP, ins[1..]) by {
        forall k | 0 <= k < |ins[1..]| ensures ins[1..][k] == ins[k + 1] { }
      }
      if r.state.browserOpened {
        GateStaysClosed(r.state, ins[1..]);
        NoRequestNoSuccess(r.state, ins[1..]);
      } else {
        AtMostOneLaunchPerNetwork(r.state, ins[1..]);
      }
    }
  }

  /** A launch cannot succeed without being requested. */
  lemma {:induction false} NoRequestNoSuccess(s: NetworkState, ins: seq<TickInput>)
    ensures SuccessfulLaunches(s, ins) <= LaunchRequests(s, ins)
    decreases |ins|
  {
    if ins != [] {
      NoRequestNoSuccess(Tick(s, ins[0]).state, ins[1..]);
    }
  }

  /** On network A with no connectivity and a redirecting portal, the
      first tick launches once and closes the gate; the next tick on the
      same network launches nothing. */
  lemma SameNetworkScenario(s: NetworkState, i: TickInput)
    requires !s.browserOpened
    requires i.changeLookup == Some(s.outboundIP) && i.connectivity.None? && i.launchOk
    requires i.portal == Some(Response(StatusFound, "http://portal.example/login", ""))
    ensures Tick(s, i).launched && Tick(s, i).state.browserOpened
    ensures LaunchRequests(s, [i, i]) == 1
  {
    var s1 := Tick(s, i).state;
    assert [i, i][1..] == [i] && [i][1..] == [];
    assert !Tick(s1, i).launched;
    assert LaunchRequests(s1, [i]) == 0;
  }

  /** Moving from network A to network B while the gate is closed re-arms
      it: a portal persisting on B is launched exactly once over two ticks. */
  lemma NetworkSwitchScenario(s: NetworkState, b: string, i: TickInput, j: TickInput)
    requires s.browserOpened && b != s.outboundIP
    requires i.changeLookup == Some(b) && i.updateLookup == Some(b) && i.launchOk
    requires j.changeLookup == Some(b) && j.launchOk
    requires i.connectivity.None? && j.connectivity.None?
    requires CheckCaptivePortal(i.portal) && CheckCaptivePortal(j.portal)
    ensures LaunchRequests(s, [i, j]) == 1
    ensures Replay(s, [i, j]).browserOpened && Replay(s, [i, j]).outboundIP == b
  {
    var s1 := Tick(s, i).state;
    assert [i, j][1..] == [j] && [j][1..] == [];
    assert Tick(s, i).launched && s1.outboundIP == b && s1.browserOpened;
    assert !Tick(s1, j).launched && Tick(s1, j).state.browserOpened;
    assert LaunchRequests(s1, [j]) == 0;
    assert Replay(s1, [j]) == Tick(s1, j).state;
  }

  /** The package-level `currentState`. */
  class Monitor {
    var outboundIP: string
    var lastCheck: Instant
    var isConnected: bool
    var hasCaptivePortal: bool
    var browserOpened: bool

    /** GetCurrentState: a copy of the state. */
    function GetCurrentState(): (s: NetworkState)
      reads this
      ensures s.outboundIP == outboundIP && s.lastCheck == lastCheck && s.isConnected == isConnected
      ensures s.hasCaptivePortal == hasCaptivePortal && s.browserOpened == browserOpened
    {
      NetworkState(outboundIP, lastCheck, isConnected, hasCaptivePortal, browserOpened)
    }

    constructor ()
      ensures GetCurrentState() == ZeroState
    {
      outboundIP, lastCheck := "", 0;
      isConnected, hasCaptivePortal, browserOpened := false, false, false;
    }

    /** HasNetworkChanged, given the result of GetOutboundIP; reads the
        state only. */
    method HasNetworkChanged(lookup: Option<string>) returns (changed: bool)
      ensures changed <==> lookup.Some? && lookup.value != outboundIP
      ensures changed == NetworkChanged(GetCurrentState(), lookup)
    {
      if lookup.None? {
        return false;
      }
      changed := outboundIP != lookup.value;
    }

    /** UpdateNetworkState, given the result of GetOutboundIP and
        `time.Now()`; `ok` stands for a nil error. */
    method UpdateNetworkState(lookup: Option<string>, now: Instant) returns (ok: bool)
      modifies this
      ensures ok == lookup.Some?
      ensures GetCurrentState() ==
                if ok then Updated(old(GetCurrentState()), lookup, now).value else old(GetCurrentState())
    {
      if lookup.None? {
        return false;
      }
      outboundIP := lookup.value;
      lastCheck := now;
      ok := true;
    }

    /** performConnectivityCheck. */
    method PerformConnectivityCheck(connectivity: Option<Response>, portal: Option<Response>, launchOk: bool)
      returns (launched: bool)
      modifies this
      ensures CheckResult(GetCurrentState(), launched)
              == Check(old(GetCurrentState()), connectivity, portal, launchOk)
    {
      launched := false;
      var connected := CheckInternetConnectivity(connectivity);
      isConnected := connected;
      if connected {
        hasCaptivePortal := false;
        browserOpened := false;
        return;
      }
      var hasPortal := CheckCaptivePortal(portal);
      hasCaptivePortal := hasPortal;
      if hasPortal {
        if !browserOpened {
          launched := true;
          if launchOk {
            browserOpened := true;
          }
        }
      }
    }

    /** One tick of MonitorCaptivePortal's loop. */
    method OnTick(i: TickInput) returns (checked: bool, launched: bool)
      modifies this
      ensures TickResult(GetCurrentState(), checked, launched) == Tick(old(GetCurrentState()), i)
    {
      var changed := HasNetworkChanged(i.changeLookup);
      if changed {
        var ok := UpdateNetworkState(i.updateLookup, i.now);
        if !ok {
          return false, false;
        }
        browserOpened := false;
      }
      launched := PerformConnectivityCheck(i.connectivity, i.portal, i.launchOk);
      checked := true;
    }

    /** MonitorCaptivePortal up to the ticker: an update (whose failure
        ends monitoring, `running` false) and a first check. */
    method StartMonitoring(lookup: Option<string>, now: Instant,
                           connectivity: Option<Response>, portal: Option<Response>, launchOk: bool)
      returns (running: bool, launched: bool)
      modifies this
      ensures TickResult(GetCurrentState(), running, launched)
              == Startup(old(GetCurrentState()), lookup, now, connectivity, portal, launchOk)
    {
      var ok := UpdateNetworkState(lookup, now);
      if !ok {
        return false, false;
      }
      launched := PerformConnectivityCheck(connectivity, portal, launchOk);
      running := true;
    }
  }
}
