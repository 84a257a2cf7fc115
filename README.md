# Captive-portal detection: a Dafny model

This project models the decision logic of a client-side captive-portal
detector written in Go. The detector fingerprints the network by its
outbound IP, probes well-known HTTP endpoints to tell "full access" from
"captive portal", and opens the portal's login page in a browser once per
network. Everything around that logic is I/O: UDP dials, HTTP GETs, `exec`
browser launches and OS network-change listeners. In the model each
external observation is an input:

- an IP lookup is an `Option<string>`;
- a single-shot GET is an `Option<Response>`, where `None` stands for a
  transport error or a timeout;
- a retry loop gets one `Attempt` per attempt slot: `Unreachable`,
  `Timeout`, `TransportError` or `Reached(response)`;
- a browser launch is a `bool`, or a set of commands whose `Start`
  succeeds;
- `time.Now()` is an `Instant`, an integer stand-in for `time.Time` that is
  only ever compared for equality.

The model has these modules:

- `Http`: the shared observation types.
- `Text`: the `strings.Contains` and `strings.ToLower` models.
- `PlatformProbe`: the per-OS retry classifier of the interface-listener
  build. When all attempts are inconclusive it answers "no portal".
- `SingleProbe`: the single-URL retry classifier of the same build. When
  all attempts are inconclusive it answers "portal" (fail-safe).
- `MacProbe`: the single-shot macOS check.
- `Tracker`: the ticker build's `currentState` and one evaluation cycle.
- `PollingTracker`: the polling build. It adds a cached `RedirectURL`.
- `LinuxLauncher`: the polling build's ordered browser-launch loop.

Each retry loop is a method that mirrors the Go loop, with the same `continue`
branches and early returns. Each is proved equal to a recursive reference
function `Run`. Lemmas about `Run` state the classification rules.

Each tracker is a class with the Go record's fields. Its methods are proved
to move the state exactly as a pure function on a snapshot does: `Check` for
one connectivity check, `Tick` or `Cycle` for one cycle. Lemmas over
sequences of ticks prove the once-per-network property of the browser-open
gate.

Behaviour worth knowing:

- In the polling build, `hasNetworkChanged` and `updateNetworkState` do two
  separate IP lookups. If the first sees a new IP and the second fails,
  `OutboundIP` keeps its old value while the gate is re-armed. The next cycle
  then sees the change again, so a persisting portal is launched on every
  such cycle. `PollingTracker.FailedUpdateRelaunches` states this.
- In the ticker build, the same failure skips the whole tick instead.

Choices the code makes that a reader might not expect:

- An unexpected status such as 4xx or 5xx ends the platform loop at once
  with "no portal". It does not retry.
- `LastCheck` is written only by `UpdateNetworkState`, not on every cycle.
- The ticker build's `CheckCaptivePortal` treats a transport error as "no
  portal". The polling build treats it as "portal".
- The single-URL classifier reports a 3xx without Location as a portal at
  the probe URL. It does not retry.

## Model

| member | source | states |
|---|---|---|
| PlatformProbe.CheckURLs | cgo-impl/all-intfr-impl/platform/platform.go:22-33 | an OS missing from the table has no check URLs; every table URL is non-empty |
| PlatformProbe.ProbeURL | cgo-impl/all-intfr-impl/platform/platform.go:93 | attempt k probes a URL of the platform's list (the index `(k-1) % len` is in bounds) |
| PlatformProbe.DarwinAlternates | cgo-impl/all-intfr-impl/platform/platform.go:22-33 | on darwin odd attempts probe the Apple URL and even attempts the Google URL |
| PlatformProbe.Judge | cgo-impl/all-intfr-impl/platform/platform.go:86-161 | an attempt retries iff it did not reach the server or got a 3xx without Location; a 3xx with Location is a portal at that Location; a non-3xx non-200 is "no portal" at the probed URL; a 200 is a portal iff (Apple host and lower-cased body lacks "success") or (Google host and non-empty body); a portal always names a non-empty URL |
| PlatformProbe.Run | cgo-impl/all-intfr-impl/platform/platform.go:86-165 | the loop never reports more than 5 attempts, and never fewer than the attempt it starts at |
| PlatformProbe.RunDecides | cgo-impl/all-intfr-impl/platform/platform.go:86-165 | every attempt before the reported one retried, and the reported attempt's own outcome decides the result; otherwise all 5 attempts retried and the result is (false, "") |
| PlatformProbe.ClassifyEmptyURL | cgo-impl/all-intfr-impl/platform/platform.go:80-165 | the result URL is empty iff the platform has no URLs or every attempt was inconclusive; an empty URL always comes with "no portal"; no URLs means no attempt |
| PlatformProbe.ClassifyCaptiveHasURL | cgo-impl/all-intfr-impl/platform/platform.go:126-154 | a "captive" answer always carries a non-empty URL |
| PlatformProbe.BehindCaptivePortal | cgo-impl/all-intfr-impl/platform/platform.go:70-166 | the loop returns what the reference `Classify` returns, after at most 5 attempts, and a non-empty URL whenever it answers "captive" |
| PlatformProbe.NetworkChangedCallback | cgo-impl/all-intfr-impl/platform/platform.go:43-50 | a browser launch is requested iff the classifier answers "captive", at the URL it returned |
| PlatformProbe.RedirectOnFirstAttempt | cgo-impl/all-intfr-impl/platform/platform.go:124-136 | any 3xx with a non-empty Location on the first attempt is reported at once as a portal at that Location, after one attempt |
| PlatformProbe.AppleURLOnAppleHost | cgo-impl/all-intfr-impl/platform/platform.go:144 | the darwin Apple URL passes the `captive.apple.com` test |
| PlatformProbe.AppleURLNotOnGoogleHost | cgo-impl/all-intfr-impl/platform/platform.go:151 | the darwin Apple URL fails the `clients3.google.com` test |
| PlatformProbe.AppleStyleTarget | cgo-impl/all-intfr-impl/platform/platform.go:138-161 | a 200 from an Apple-host target on the first attempt ends the loop: portal iff the lower-cased body lacks "success", at the target URL |
| SingleProbe.Judge | cgo-impl/all-intfr-impl/main.go:77-107 | an attempt retries iff it did not reach the server; a reached attempt is a portal iff its status is 3xx, then at the Location, or at checkURL when that is empty; otherwise "no portal" at checkURL; the URL is never empty |
| SingleProbe.Run | cgo-impl/all-intfr-impl/main.go:76-111 | between 1 and 5 attempts are made |
| SingleProbe.RunDecides | cgo-impl/all-intfr-impl/main.go:76-111 | the first attempt that reaches the server decides and no earlier one did; when none reaches it, the result is (true, checkURL) after 5 attempts |
| SingleProbe.ClassifyURL | cgo-impl/all-intfr-impl/main.go:97-111 | the returned URL is never empty; "no portal" is only returned at checkURL, for a reached non-3xx attempt |
| SingleProbe.ClassifyExhausted | cgo-impl/all-intfr-impl/main.go:110-111 | no attempt reaching the server is equivalent to the fail-safe answer (true, checkURL) after 5 attempts, the last of them not reached |
| SingleProbe.BehindCaptivePortal | cgo-impl/all-intfr-impl/main.go:64-112 | the loop, which probes checkURL on every attempt, returns what `Classify` returns, after 1 to 5 attempts, with a non-empty URL |
| SingleProbe.NetworkChangedCallback | cgo-impl/all-intfr-impl/main.go:28-35 | a browser launch is requested iff the classifier answers "captive", at the URL it returned |
| MacProbe.CheckCaptivePortal | cgo-mac/all/main.go:24-53 | at most one launch, always at `http://captive.apple.com`; none on a transport error; none iff the reply is a 200 whose final request URL is exactly `http://captive.apple.com` |
| LinuxLauncher.LaunchURL | polling-method/captive/captive_linux.go:13-15 | the URL handed to browsers is never empty; it is the default `http://clients3.google.com/generate_204` when the redirect URL is empty, and the redirect URL itself otherwise |
| LinuxLauncher.OpenCaptivePortalLogin | polling-method/captive/captive_linux.go:10-27 | browsers are tried in list order, each with the same (defaulted) URL; the loop stops at the first that starts and every earlier one failed; success iff some browser of the list starts, otherwise all five were tried |
| Tracker.CheckInternetConnectivity | captive/captive.go:35-48 | connectivity iff the GET succeeded with status 200; a transport error is no connectivity |
| Tracker.CheckCaptivePortal | captive/captive.go:51-70 | a portal iff the GET succeeded with a status other than 204; a transport error is no portal |
| Tracker.StatusPredicates | captive/captive.go:35-70 | a reply that shows connectivity (a 200) would count as a portal on the portal probe, which only a 204 clears |
| Tracker.Updated | captive/captive.go:91-102 | a failed lookup changes nothing; a successful one sets OutboundIP and LastCheck and leaves the other fields alone |
| Tracker.Check | captive/captive.go:141-177 | IP and LastCheck are kept; IsConnected is the connectivity result; connectivity clears the portal flag and the gate with no launch; otherwise the portal flag is the probe result, a launch happens iff a portal is seen with the gate open, a launch closes the gate iff it succeeded, and without a launch the gate is unchanged |
| Tracker.TickUpdateFails | captive/captive.go:124-129 | a changed IP whose update fails skips the connectivity check and leaves the state unchanged |
| Tracker.TickChangeRearms | captive/captive.go:124-135 | a changed IP with a successful update stores the new IP and time and re-arms the gate before the check: a portal without connectivity is launched whatever the old gate, and the gate ends closed iff that launch succeeded |
| Tracker.TickConnected | captive/captive.go:145-154 | a tick that checks and sees connectivity ends connected, without portal, with the gate open and no launch |
| Tracker.TickGateHeld | captive/captive.go:159-176 | with no IP change and no connectivity, a closed gate stays closed with no launch; with no portal either, no launch and the gate unchanged |
| Tracker.TickKeepsConsistent | captive/captive.go:141-177 | a tick preserves "gate closed or portal flag set implies not connected" |
| Tracker.GateStaysClosed | captive/captive.go:120-177 | once the gate is closed, no launch is requested and the gate stays closed over any ticks with the same IP and no connectivity |
| Tracker.AtMostOneLaunchPerNetwork | captive/captive.go:120-177 | over ticks with the same IP and no connectivity at most one launch succeeds, and none if the gate was closed at the start |
| Tracker.NoRequestNoSuccess | captive/captive.go:159-170 | a launch succeeds only in a tick that requested it |
| Tracker.SameNetworkScenario | captive/captive.go:120-177 | a redirecting portal with no connectivity on the same network: one launch, gate closed, none on the next tick |
| Tracker.NetworkSwitchScenario | captive/captive.go:124-177 | going from network A with a closed gate to B with a persisting portal gives exactly one new launch over two ticks and ends on B with the gate closed |
| Tracker.Monitor.GetCurrentState | captive/captive.go:180-182 | the snapshot carries every field of the current state |
| Tracker.Monitor.constructor | captive/captive.go:20 | the state starts as Go's zero value |
| Tracker.Monitor.HasNetworkChanged | captive/captive.go:73-88 | false when the lookup fails, otherwise stored IP ≠ new IP; the state is not modified |
| Tracker.Monitor.UpdateNetworkState | captive/captive.go:91-102 | succeeds iff the lookup does; on success the state is `Updated`, on failure unchanged |
| Tracker.Monitor.PerformConnectivityCheck | captive/captive.go:141-177 | the new state and the launch request are those of `Check` on the old state |
| Tracker.Monitor.OnTick | captive/captive.go:122-136 | the new state, whether the check ran and whether a launch was requested are those of `Tick` on the old state |
| Tracker.Monitor.StartMonitoring | captive/captive.go:105-118 | a failed initial update stops monitoring with the state unchanged; otherwise update and first check, as `Startup` |
| PollingTracker.CheckInternetConnectivity | polling-method/captive/captive.go:39-52 | connectivity iff the GET succeeded with status 200; a transport error is no connectivity |
| PollingTracker.ProbePortal | polling-method/captive/captive.go:54-84 | a transport error is a portal and changes nothing; otherwise portal iff status ≠ 204; only a 302 overwrites RedirectURL, with Location (possibly empty); no other field changes |
| PollingTracker.NetworkChange | polling-method/captive/captive.go:86-102 | a failed lookup is "no change" with nothing changed; a change iff the IP differs, which clears RedirectURL and leaves OutboundIP alone |
| PollingTracker.Updated | polling-method/captive/captive.go:104-115 | a failed lookup changes nothing; a successful one sets OutboundIP and LastCheck only |
| PollingTracker.Check | polling-method/captive/captive.go:132-165 | connectivity clears the portal flag and the gate with no launch; otherwise the portal flag and RedirectURL follow the portal probe, a launch happens iff a portal is seen with the gate open, it gets the current RedirectURL, and the gate closes iff some browser starts; without a launch the gate is unchanged |
| PollingTracker.Rearmed | polling-method/captive/captive.go:117-127 | a detected change leaves the gate open and RedirectURL empty, even when the update fails, and keeps IsConnected and HasCaptivePortal; a successful second lookup stores the new IP and LastCheck, a failed one keeps both; no change leaves the state as it was |
| PollingTracker.CycleChangeRearms | polling-method/captive/captive.go:117-165 | after a detected change without connectivity, the check still runs: a portal is launched whatever the old gate, at this cycle's 302 Location or at ""; the IP is updated only if the second lookup succeeds |
| PollingTracker.CycleConnected | polling-method/captive/captive.go:135-143 | a cycle that sees connectivity ends connected, without portal, with the gate open and no launch, keeping the IP and RedirectURL of the rearm step |
| PollingTracker.FailedUpdateRelaunches | polling-method/captive/captive.go:86-129 | a change whose update fails re-arms the gate without storing the new IP, so an identical next cycle launches the persisting portal again |
| PollingTracker.GateStaysClosed | polling-method/captive/captive.go:117-165 | once the gate is closed, no launch is requested and the gate is closed after the first and after the last of any cycles with the same IP and no connectivity |
| PollingTracker.NoRequestNoSuccess | polling-method/captive/captive.go:147-164 | a launch succeeds only in a cycle that requested it |
| PollingTracker.AtMostOneLaunchPerNetwork | polling-method/captive/captive.go:117-165 | over cycles with the same IP and no connectivity at most one launch succeeds, and none if the gate was closed at the start |
| PollingTracker.PollingMonitor.constructor | polling-method/captive/captive.go:167-169 | the state is the zero value followed by `init()`'s update |
| PollingTracker.PollingMonitor.CheckCaptivePortal | polling-method/captive/captive.go:54-84 | the result and the new state are those of `ProbePortal` |
| PollingTracker.PollingMonitor.HasNetworkChanged | polling-method/captive/captive.go:86-102 | the result and the new state are those of `NetworkChange` |
| PollingTracker.PollingMonitor.UpdateNetworkState | polling-method/captive/captive.go:104-115 | succeeds iff the lookup does; on success the state is `Updated`, on failure unchanged |
| PollingTracker.PollingMonitor.PerformConnectivityCheck | polling-method/captive/captive.go:132-165 | the new state and the launch argument are those of `Check`, the launch going through the Linux launcher |
| PollingTracker.PollingMonitor.MonitorCaptivePortal | polling-method/captive/captive.go:117-130 | the new state and the launch argument are those of `Cycle` on the old state |

## Left out

- The HTTP GETs, the UDP dials (`GetOutboundIP`, `isNetworkReachable`)
  and `isTimeoutError` are network I/O. Their results are inputs. Timeouts and
  other transport errors are kept apart only where the code branches on
  them.
- `time.Sleep`, `retryDelay`, the HTTP client timeouts, the ticker and the
  monitoring goroutine's endless loop are timing and scheduling. One tick or
  cycle is one method call, and sequences of ticks are lemma inputs.
  `time.Now()` is an `Instant` parameter, an integer stand-in compared only
  for equality.
- Logging is left out, including the copy of the response headers that
  exists only for logging.
- `openBrowser` and `detectChromePath` in both interface-listener files
  are OS command tables plus filesystem and `exec` checks. A requested launch
  is reported as an output instead.
- The per-OS `OpenCaptivePortalLogin` of the ticker build (captive/) is a
  fixed-URL `exec` wrapper. Its result is the `launchOk` input.
- The root main.go is concurrency and I/O: a `sync.RWMutex`-guarded flag set
  by a localhost check. The C network-change listeners, the cgo wrapper
  files and cgo-mac/wifi are native event sources.
- A failure of `io.ReadAll` is left out: the body is a given string. The
  body is modelled as text, not bytes.
- Text.ToLower: lowers ASCII letters only, where Go lowers all of Unicode. No
  non-ASCII character lowers to a letter of "success", so the Apple body rule
  gives the same answer either way.
- A retry loop's outcome sequence always has exactly five entries, one per
  attempt slot. Entries after an early return are never read.
