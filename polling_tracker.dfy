/** The session state tracker of the polling build
    (polling-method/captive/captive.go). Unlike the ticker build it caches
    the Location of a 302 in `RedirectURL`, clears that cache when the IP
    changes, treats a failed portal probe as a portal, re-arms the gate on
    a change even when the update fails, and always runs the check. Each
    call of MonitorCaptivePortal is one cycle; the scheduler that calls it
    is not part of this model. */
module PollingTracker {
  import opened Http
  import LinuxLauncher

  /** An integer stand-in for the `time.Time` of an update; only equality is ever used. */
  type Instant = int

  datatype NetworkState = NetworkState(
    outboundIP: string,
    lastCheck: Instant,
    isConnected: bool,
    hasCaptivePortal: bool,
    browserOpened: bool,
    redirectURL: string)

  /** Go's zero value of NetworkState. */
  const ZeroState := NetworkState("", 0, false, false, false, "")

  /** checkInternetConnectivity, given the reply of its GET (None on a
      transport error or timeout). */
  function CheckInternetConnectivity(reply: Option<Response>): (connected: bool)
    ensures reply.None? ==> !connected
    ensures reply.Some? ==> (connected <==> reply.value.status == StatusOK)
  {
    reply.Some? && reply.value.status == StatusOK
  }

  /** A result together with the state it leaves behind. */
  datatype Probed = Probed(state: NetworkState, result: bool)

  /** checkCaptivePortal, given the reply of its GET with redirects not
      followed: it fails safe, and a 302 caches its Location. */
  function ProbePortal(s: NetworkState, reply: Option<Response>): (r: Probed)
    ensures reply.None? ==> r == Probed(s, true)
    ensures reply.Some? ==> (r.result <==> reply.value.status != StatusNoContent)
    ensures r.state.redirectURL ==
              if reply.Some? && reply.value.status == StatusFound then reply.value.location else s.redirectURL
    ensures r.state.(redirectURL := s.redirectURL) == s
  {
    match reply
    case None => Probed(s, true)
    case Some(resp) =>
      var isCaptivePortal := resp.status != StatusNoContent;
      if isCaptivePortal && resp.status == StatusFound then
        Probed(s.(redirectURL := resp.location), true)
      else
        Probed(s, isCaptivePortal)
  }

  /** hasNetworkChanged, given the result of its IP lookup: a change clears
      the cached redirect and nothing else. */
  function NetworkChange(s: NetworkState, lookup: Option<string>): (r: Probed)
    ensures lookup.None? ==> r == Probed(s, false)
    ensures r.result <==> lookup.Some? && lookup.value != s.outboundIP
    ensures r.state == if r.result then s.(redirectURL := "") else s
  {
    if lookup.Some? && lookup.value != s.outboundIP then Probed(s.(redirectURL := ""), true)
    else Probed(s, false)
  }

  /** updateNetworkState: None when the IP lookup fails. */
  function Updated(s: NetworkState, lookup: Option<string>, now: Instant): (r: Option<NetworkState>)
    ensures r.Some? <==> lookup.Some?
    ensures r.Some? ==> r.value.outboundIP == lookup.value && r.value.lastCheck == now
    ensures r.Some? ==> r.value.(outboundIP := s.outboundIP, lastCheck := s.lastCheck) == s
  {
    match lookup
    case None => None
    case Some(ip) => Some(s.(outboundIP := ip, lastCheck := now))
  }

  /** The state `init()` leaves: the zero state, updated if the lookup
      succeeds. */
  function Initial(lookup: Option<string>, now: Instant): NetworkState {
    match Updated(ZeroState, lookup, now)
    case None => ZeroState
    case Some(s) => s
  }

  /** The new state after a cycle and the argument of the launch it
      requested, if any. */
  datatype CheckResult = CheckResult(state: NetworkState, launchedWith: Option<string>)

  /** performConnectivityCheck: `available` is the set of commands whose
      Start succeeds. */
  function Check(s: NetworkState, connectivity: Option<Response>, portal: Option<Response>,
                 available: set<string>): (r: CheckResult)
    ensures r.state.outboundIP == s.outboundIP && r.state.lastCheck == s.lastCheck
    ensures r.state.isConnected == CheckInternetConnectivity(connectivity)
    ensures CheckInternetConnectivity(connectivity) ==>
              r == CheckResult(s.(isConnected := true, hasCaptivePortal := false, browserOpened := false), None)
    ensures !CheckInternetConnectivity(connectivity) ==>
              var p := ProbePortal(s, portal);
              r.state.hasCaptivePortal == p.result && r.state.redirectURL == p.state.redirectURL
              && (r.launchedWith.Some? <==> p.result && !s.browserOpened)
              && (r.launchedWith.Some? ==> r.launchedWith.value == p.state.redirectURL)
              && (r.launchedWith.Some? ==> r.state.browserOpened == LinuxLauncher.AnyStarts(available))
              && (r.launchedWith.None? ==> r.state.browserOpened == s.browserOpened)
  {
    if CheckInternetConnectivity(connectivity) then
      CheckResult(s.(isConnected := true, hasCaptivePortal := false, browserOpened := false), None)
    else
      var p := ProbePortal(s.(isConnected := false), portal);
      var s1 := p.state.(hasCaptivePortal := p.result);
      if p.result && !s1.browserOpened then
        CheckResult(s1.(browserOpened := LinuxLauncher.AnyStarts(available)), Some(s1.redirectURL))
      else
        CheckResult(s1, None)
  }

  /** What the world answers during one cycle: the IP lookups of
      hasNetworkChanged and updateNetworkState, the clock, the two probe
      replies and the commands that can be started. */
  datatype CycleInput = CycleInput(
    changeLookup: Option<string>,
    updateLookup: Option<string>,
    now: Instant,
    connectivity: Option<Response>,
    portal: Option<Response>,
    available: set<string>)

  /** The state after the change handling of MonitorCaptivePortal. */
  function Rearmed(s: NetworkState, i: CycleInput): (s': NetworkState)
    ensures NetworkChange(s, i.changeLookup).result ==> !s'.browserOpened && s'.redirectURL == ""
    ensures NetworkChange(s, i.changeLookup).result ==>
              s'.isConnected == s.isConnected && s'.hasCaptivePortal == s.hasCaptivePortal
    ensures NetworkChange(s, i.changeLookup).result && i.updateLookup.Some? ==>
              s'.outboundIP == i.updateLookup.value && s'.lastCheck == i.now
    ensures NetworkChange(s, i.changeLookup).result && i.updateLookup.None? ==>
              s'.outboundIP == s.outboundIP && s'.lastCheck == s.lastCheck
    ensures !NetworkChange(s, i.changeLookup).result ==> s' == s
  {
    var c := NetworkChange(s, i.changeLookup);
    if c.result then
      var u := match Updated(c.state, i.updateLookup, i.now)
               case None => c.state
               case Some(t) => t;
      u.(browserOpened := false)
    else s
  }

  /** MonitorCaptivePortal: one cycle. */
  function Cycle(s: NetworkState, i: CycleInput): CheckResult {
    Check(Rearmed(s, i), i.connectivity, i.portal, i.available)
  }

  /** A changed IP re-arms the gate even when the update fails, and the
      check runs anyway: a portal without connectivity is launched at the
      Location of this cycle's 302, or at "" when there was none. */
  lemma CycleChangeRearms(s: NetworkState, i: CycleInput)
    requires NetworkChange(s, i.changeLookup).result
    requires !CheckInternetConnectivity(i.connectivity)
    ensures var r := Cycle(s, i);
            (r.launchedWith.Some? <==> ProbePortal(s, i.portal).result)
            && (r.launchedWith.Some? ==>
                  r.launchedWith.value ==
                    if i.portal.Some? && i.portal.value.status == StatusFound then i.portal.value.location else "")
            && r.state.outboundIP == (if i.updateLookup.Some? then i.updateLookup.value else s.outboundIP)
  {
  }

  /** Connectivity ends a cycle with no portal, an open gate and no launch,
      whatever came before. */
  lemma CycleConnected(s: NetworkState, i: CycleInput)
    requires CheckInternetConnectivity(i.connectivity)
    ensures var r := Cycle(s, i);
            r.state.isConnected && !r.state.hasCaptivePortal && !r.state.browserOpened && r.launchedWith.None?
            && r.state.outboundIP == Rearmed(s, i).outboundIP && r.state.redirectURL == Rearmed(s, i).redirectURL
  {
  }

  /** A failed update after a detected change keeps the old IP, so an
      identical next cycle detects the change again and launches again:
      with a portal present and the lookups disagreeing, every cycle
      requests a launch. */
  lemma FailedUpdateRelaunches(s: NetworkState, i: CycleInput)
    requires NetworkChange(s, i.changeLookup).result && i.updateLookup.None?
    requires !CheckInternetConnectivity(i.connectivity) && ProbePortal(s, i.portal).result
    ensures Cycle(s, i).launchedWith.Some?
    ensures Cycle(Cycle(s, i).state, i).launchedWith.Some?
  {
    var s1 := Cycle(s, i).state;
    assert s1.outboundIP == s.outboundIP;
    assert ProbePortal(s1, i.portal).result;
  }

  /** The state after a sequence of cycles. */
  function Replay(s: NetworkState, ins: seq<CycleInput>): NetworkState
    decreases |ins|
  {
    if ins == [] then s else Replay(Cycle(s, ins[0]).state, ins[1..])
  }

  /** The number of launches requested over a sequence of cycles. */
  function LaunchRequests(s: NetworkState, ins: seq<CycleInput>): nat
    decreases |ins|
  {
    if ins == [] then 0
    else
      var r := Cycle(s, ins[0]);
      (if r.launchedWith.Some? then 1 else 0) + LaunchRequests(r.state, ins[1..])
  }

  /** The number of launches that succeeded over a sequence of cycles. */
  function SuccessfulLaunches(s: NetworkState, ins: seq<CycleInput>): nat
    decreases |ins|
  {
    if ins == [] then 0
    else
      var r := Cycle(s, ins[0]);
      (if r.launchedWith.Some? && LinuxLauncher.AnyStarts(ins[0].available) then 1 else 0)
      + SuccessfulLaunches(r.state, ins[1..])
  }

  /** Every cycle sees the IP `ip` (or fails to look it up) and no
      connectivity. */
  predicate SameNetworkOffline(ip: string, ins: seq<CycleInput>) {
    forall k :: 0 <= k < |ins| ==>
      (ins[k].changeLookup.None? || ins[k].changeLookup.value == ip)
      && !CheckInternetConnectivity(ins[k].connectivity)
  }

  /** While the IP stays the same and connectivity is not seen, at most one
      launch succeeds, and none if the gate was already closed. */
  lemma {:induction false} AtMostOneLaunchPerNetwork(s: NetworkState, ins: seq<CycleInput>)
    requires SameNetworkOffline(s.outboundIP, ins)
    ensures SuccessfulLaunches(s, ins) <= if s.browserOpened then 0 else 1
    decreases |ins|
  {
    if ins != [] {
      var r := Cycle(s, ins[0]);
      assert !NetworkChange(s, ins[0].changeLookup).result;
      assert SameNetworkOffline(r.state.outboundIP, ins[1..]) by {
        forall k | 0 <= k < |ins[1..]| ensures ins[1..][k] == ins[k + 1] { }
      }
      AtMostOneLaunchPerNetwork(r.state, ins[1..]);
    }
  }

  /** Once the gate is closed it stays closed, and nothing is launched,
      until the IP changes or connectivity is seen. */
  lemma {:induction false} GateStaysClosed(s: NetworkState, ins: seq<CycleInput>)
    requires s.browserOpened && SameNetworkOffline(s.outboundIP, ins)
    ensures Replay(s, ins).browserOpened && LaunchRequests(s, ins) == 0
    ensures ins != [] ==> Cycle(s, ins[0]).state.browserOpened
    decreases |ins|
  {
    if ins != [] {
      var r := Cycle(s, ins[0]);
      assert !NetworkChange(s, ins[0].changeLookup).result;
      assert SameNetworkOffline(r.state.outboundIP, ins[1..]) by {
        forall k | 0 <= k < |ins[1..]| ensures ins[1..][k] == ins[k + 1] { }
      }
      GateStaysClosed(r.state, ins[1..]);
    }
  }

  /** A launch cannot succeed without being requested. */
  lemma {:induction false} NoRequestNoSuccess(s: NetworkState, ins: seq<CycleInput>)
    ensures SuccessfulLaunches(s, ins) <= LaunchRequests(s, ins)
    decreases |ins|
  {
    if ins != [] {
      NoRequestNoSuccess(Cycle(s, ins[0]).state, ins[1..]);
    }
  }

  /** The package-level `currentState` of the polling build. */
  class PollingMonitor {
    var outboundIP: string
    var lastCheck: Instant
    var isConnected: bool
    var hasCaptivePortal: bool
    var browserOpened: bool
    var redirectURL: string

    function State(): (s: NetworkState)
      reads this
      ensures s.outboundIP == outboundIP && s.lastCheck == lastCheck && s.isConnected == isConnected
      ensures s.hasCaptivePortal == hasCaptivePortal && s.browserOpened == browserOpened
      ensures s.redirectURL == redirectURL
    {
      NetworkState(outboundIP, lastCheck, isConnected, hasCaptivePortal, browserOpened, redirectURL)
    }

    /** The zero state followed by the package's `init()`. */
    constructor (lookup: Option<string>, now: Instant)
      ensures State() == Initial(lookup, now)
    {
      outboundIP, lastCheck := "", 0;
      isConnected, hasCaptivePortal, browserOpened := false, false, false;
      redirectURL := "";
      new;
      var _ := UpdateNetworkState(lookup, now);
    }

    /** checkCaptivePortal. */
    method CheckCaptivePortal(reply: Option<Response>) returns (portal: bool)
      modifies this
      ensures Probed(State(), portal) == ProbePortal(old(State()), reply)
    {
      if reply.None? {
        return true;
      }
      var resp := reply.value;
      portal := resp.status != StatusNoContent;
      if portal {
        if resp.status == StatusFound {
          redirectURL := resp.location;
        }
      }
    }

    /** hasNetworkChanged. */
    method HasNetworkChanged(lookup: Option<string>) returns (changed: bool)
      modifies this
      ensures Probed(State(), changed) == NetworkChange(old(State()), lookup)
    {
      if lookup.None? {
        return false;
      }
      changed := outboundIP != lookup.value;
      if changed {
        redirectURL := "";
      }
    }

    /** updateNetworkState; `ok` stands for a nil error. */
    method UpdateNetworkState(lookup: Option<string>, now: Instant) returns (ok: bool)
      modifies this
      ensures ok == lookup.Some?
      ensures State() == if ok then Updated(old(State()), lookup, now).value else old(State())
    {
      if lookup.None? {
        return false;
      }
      outboundIP := lookup.value;
      lastCheck := now;
      ok := true;
    }

    /** performConnectivityCheck; the launch goes through the Linux
        launcher. */
    method PerformConnectivityCheck(connectivity: Option<Response>, portal: Option<Response>,
                                    available: set<string>)
      returns (launchedWith: Option<string>)
      modifies this
      ensures CheckResult(State(), launchedWith) == Check(old(State()), connectivity, portal, available)
    {
      launchedWith := None;
      var connected := CheckInternetConnectivity(connectivity);
      isConnected := connected;
      if connected {
        hasCaptivePortal := false;
        browserOpened := false;
        return;
      }
      var hasPortal := CheckCaptivePortal(portal);
      hasCaptivePortal := hasPortal;
      if hasPortal {
        if !browserOpened {
          launchedWith := Some(redirectURL);
          var ok, _ := LinuxLauncher.OpenCaptivePortalLogin(redirectURL, available);
          if ok {
            browserOpened := true;
          }
        }
      }
    }

    /** MonitorCaptivePortal. */
    method MonitorCaptivePortal(i: CycleInput) returns (launchedWith: Option<string>)
      modifies this
      ensures CheckResult(State(), launchedWith) == Cycle(old(State()), i)
    {
      var changed := HasNetworkChanged(i.changeLookup);
      if changed {
        var _ := UpdateNetworkState(i.updateLookup, i.now);
        browserOpened := false;
      }
      launchedWith := PerformConnectivityCheck(i.connectivity, i.portal, i.available);
    }
  }
}
