/** The per-platform captive-portal classifier of the interface-listener
    build (cgo-impl/all-intfr-impl/platform/platform.go): a bounded retry
    loop cycling through the platform's check URLs, with the Apple
    "Success" body rule and the Google empty-body rule. When every attempt
    is inconclusive it answers "no portal" (fail-open). */
module PlatformProbe {
  import opened Http
  import opened Text

  const RetryCount: nat := 5

  const AppleCheckURL := "http://captive.apple.com/hotspot-detect.html"
  const GoogleCheckURL := "http://clients3.google.com/generate_204"
  const AppleHost := "captive.apple.com"
  const GoogleHost := "clients3.google.com"
  const SuccessMarker := "success"

  const CaptiveCheckURLs: map<string, seq<string>> := map[
    "darwin" := [AppleCheckURL, GoogleCheckURL],
    "linux" := [GoogleCheckURL],
    "windows" := [GoogleCheckURL]
  ]

  /** The check URLs of operating system `goos`; a missing entry reads as
      the empty list, as a Go map lookup does. */
  function CheckURLs(goos: string): (urls: seq<string>)
    ensures goos !in CaptiveCheckURLs ==> urls == []
    ensures forall i :: 0 <= i < |urls| ==> urls[i] != ""
  {
    if goos in CaptiveCheckURLs then CaptiveCheckURLs[goos] else []
  }

  /** The URL probed by attempt number `attempt` (counted from 1). */
  function ProbeURL(urls: seq<string>, attempt: nat): (url: string)
    requires |urls| > 0 && 1 <= attempt
    ensures url in urls
  {
    urls[(attempt - 1) % |urls|]
  }

  /** On darwin the attempts alternate Apple, Google, Apple, ... */
  lemma DarwinAlternates(attempt: nat)
    requires 1 <= attempt
    ensures ProbeURL(CheckURLs("darwin"), attempt)
            == if attempt % 2 == 1 then AppleCheckURL else GoogleCheckURL
  {
  }

  /** What one attempt decides: try again, or return (captive, url). */
  datatype Step = Retry | Conclude(captive: bool, url: string)

  /** The classification of one attempt's outcome, for the probed `url`. */
  function Judge(url: string, outcome: Attempt): (step: Step)
    ensures step.Retry? <==>
              !outcome.Reached?
              || (IsRedirect(outcome.response.status) && outcome.response.location == "")
    ensures outcome.Reached? && IsRedirect(outcome.response.status) && step.Conclude? ==>
              step == Conclude(true, outcome.response.location)
    ensures outcome.Reached? && !IsRedirect(outcome.response.status) && outcome.response.status != StatusOK ==>
              step == Conclude(false, url)
    ensures outcome.Reached? && outcome.response.status == StatusOK ==>
              step.Conclude? && step.url == url &&
              (step.captive <==>
                 (Contains(url, AppleHost) && !Contains(ToLower(outcome.response.body), SuccessMarker))
                 || (Contains(url, GoogleHost) && |outcome.response.body| != 0))
    ensures step.Conclude? && step.captive ==> step.url != ""
    ensures step.Conclude? && !step.captive ==> step.url == url
  {
    match outcome
    case Unreachable => Retry
    case Timeout => Retry
    case TransportError => Retry
    case Reached(r) =>
      if IsRedirect(r.status) then
        if r.location == "" then Retry else Conclude(true, r.location)
      else if r.status == StatusOK && Contains(url, AppleHost)
              && !Contains(ToLower(r.body), SuccessMarker) then
        ContainsFits(url, AppleHost);
        Conclude(true, url)
      else if r.status == StatusOK && Contains(url, GoogleHost) && |r.body| != 0 then
        ContainsFits(url, GoogleHost);
        Conclude(true, url)
      else
        Conclude(false, url)
  }

  /** The result of the classifier together with the number of attempts
      it entered. */
  datatype Verdict = Verdict(captive: bool, url: string, attempts: nat)

  /** Reference definition of the loop from attempt `attempt` on. */
  function Run(urls: seq<string>, outcomes: seq<Attempt>, attempt: nat): (v: Verdict)
    requires |urls| > 0 && |outcomes| == RetryCount
    requires 1 <= attempt <= RetryCount + 1
    ensures v.attempts <= RetryCount
    ensures attempt <= RetryCount ==> attempt <= v.attempts
    decreases RetryCount + 1 - attempt
  {
    if attempt > RetryCount then Verdict(false, "", RetryCount)
    else
      match Judge(ProbeURL(urls, attempt), outcomes[attempt - 1])
      case Retry => Run(urls, outcomes, attempt + 1)
      case Conclude(c, u) => Verdict(c, u, attempt)
  }

  /** Reference definition of behindCaptivePortal on platform `goos`. */
  function Classify(goos: string, outcomes: seq<Attempt>): Verdict
    requires |outcomes| == RetryCount
  {
    var urls := CheckURLs(goos);
    if |urls| == 0 then Verdict(false, "", 0) else Run(urls, outcomes, 1)
  }

  /** Attempts `from` up to (excluding) `to` were all inconclusive. */
  predicate Retried(urls: seq<string>, outcomes: seq<Attempt>, from: nat, to: nat)
    requires |urls| > 0 && |outcomes| == RetryCount && 1 <= from && to <= RetryCount + 1
  {
    forall k :: from <= k < to ==> Judge(ProbeURL(urls, k), outcomes[k - 1]).Retry?
  }

  /** The loop returns what the first conclusive attempt decides, after
      every earlier attempt retried; when none is conclusive it returns
      (false, "") after RetryCount attempts. */
  lemma {:induction false} RunDecides(urls: seq<string>, outcomes: seq<Attempt>, attempt: nat)
    requires |urls| > 0 && |outcomes| == RetryCount
    requires 1 <= attempt <= RetryCount + 1
    ensures var v := Run(urls, outcomes, attempt);
            Retried(urls, outcomes, attempt, v.attempts)
            && (Judge(ProbeURL(urls, v.attempts), outcomes[v.attempts - 1]) == Conclude(v.captive, v.url)
                || (Retried(urls, outcomes, attempt, RetryCount + 1) && v == Verdict(false, "", RetryCount)))
    decreases RetryCount + 1 - attempt
  {
    if attempt <= RetryCount {
      var step := Judge(ProbeURL(urls, attempt), outcomes[attempt - 1]);
      if step.Retry? {
        RunDecides(urls, outcomes, attempt + 1);
      }
    }
  }

  /** The result URL is empty exactly when the platform has no check URLs
      or every attempt was inconclusive, and then the answer is "no
      portal". */
  lemma ClassifyEmptyURL(goos: string, outcomes: seq<Attempt>)
    requires |outcomes| == RetryCount
    ensures var v := Classify(goos, outcomes);
            var urls := CheckURLs(goos);
            (v.url == "" <==> (urls == [] || Retried(urls, outcomes, 1, RetryCount + 1)))
            && (v.url == "" ==> !v.captive)
            && (urls == [] ==> v.attempts == 0)
  {
    var urls := CheckURLs(goos);
    if urls != [] {
      var v := Run(urls, outcomes, 1);
      RunDecides(urls, outcomes, 1);
      if Judge(ProbeURL(urls, v.attempts), outcomes[v.attempts - 1]) == Conclude(v.captive, v.url) {
        assert v.url != "";
        assert !Judge(ProbeURL(urls, v.attempts), outcomes[v.attempts - 1]).Retry?;
      }
    }
  }

  /** Whenever the classifier answers "captive", it names a URL. */
  lemma ClassifyCaptiveHasURL(goos: string, outcomes: seq<Attempt>)
    requires |outcomes| == RetryCount
    ensures Classify(goos, outcomes).captive ==> Classify(goos, outcomes).url != ""
  {
    ClassifyEmptyURL(goos, outcomes);
  }

  /** behindCaptivePortal (platform.go), with the outcome of attempt k as
      `outcomes[k - 1]`; `attempts` is the number of attempts entered. */
  method BehindCaptivePortal(goos: string, outcomes: seq<Attempt>)
    returns (isCaptive: bool, url: string, attempts: nat)
    requires |outcomes| == RetryCount
    ensures Verdict(isCaptive, url, attempts) == Classify(goos, outcomes)
    ensures attempts <= RetryCount
    ensures isCaptive ==> url != ""
  {
    ClassifyCaptiveHasURL(goos, outcomes);
    var urls := CheckURLs(goos);
    if |urls| == 0 {
      return false, "", 0;
    }
    var attempt := 1;
    while attempt <= RetryCount
      invariant 1 <= attempt <= RetryCount + 1
      invariant Run(urls, outcomes, attempt) == Run(urls, outcomes, 1)
      decreases RetryCount + 1 - attempt
    {
      var outcome := outcomes[attempt - 1];
      ghost var step := Judge(ProbeURL(urls, attempt), outcome);
      if outcome.Unreachable? || outcome.Timeout? || outcome.TransportError? {
        attempt := attempt + 1;
        continue;
      }
      var probed := urls[(attempt - 1) % |urls|];
      var resp := outcome.response;
      if 300 <= resp.status < 400 {
        if resp.location == "" {
          attempt := attempt + 1;
          continue;
        }
        assert step == Conclude(true, resp.location);
        return true, resp.location, attempt;
      }
      if resp.status == StatusOK {
        if Contains(probed, AppleHost) && !Contains(ToLower(resp.body), SuccessMarker) {
          return true, probed, attempt;
        }
        if Contains(probed, GoogleHost) && |resp.body| != 0 {
          return true, probed, attempt;
        }
      }
      return false, probed, attempt;
    }
    return false, "", RetryCount;
  }

  /** networkChangedCallback (platform.go): a browser launch is requested
      exactly when the classifier answers "captive", at the URL it names. */
  method NetworkChangedCallback(goos: string, outcomes: seq<Attempt>) returns (launch: Option<string>)
    requires |outcomes| == RetryCount
    ensures launch.Some? <==> Classify(goos, outcomes).captive
    ensures launch.Some? ==> launch.value == Classify(goos, outcomes).url && launch.value != ""
  {
    var isCaptive, captiveUrl, _ := BehindCaptivePortal(goos, outcomes);
    if isCaptive {
      launch := Some(captiveUrl);
    } else {
      launch := None;
    }
  }

  /** A 3xx with a Location on the first attempt is reported at once. */
  lemma RedirectOnFirstAttempt(goos: string, outcomes: seq<Attempt>)
    requires goos in CaptiveCheckURLs && |outcomes| == RetryCount
    requires outcomes[0].Reached? && IsRedirect(outcomes[0].response.status)
    requires outcomes[0].response.location != ""
    ensures Classify(goos, outcomes) == Verdict(true, outcomes[0].response.location, 1)
  {
  }

  /** The Apple check URL is on the Apple host ... */
  lemma AppleURLOnAppleHost()
    ensures Contains(AppleCheckURL, AppleHost)
  {
    assert AppleCheckURL == "http://" + AppleHost + "/hotspot-detect.html";
    assert AppleCheckURL[7..7 + |AppleHost|] == AppleHost;
    ContainsAt(AppleCheckURL, AppleHost, 7);
  }

  /** ... and not on the Google host. */
  lemma AppleURLNotOnGoogleHost()
    ensures !Contains(AppleCheckURL, GoogleHost)
  {
    assert '3' !in AppleCheckURL;
    assert '3' in GoogleHost by { assert GoogleHost[7] == '3'; }
    NotContainsByChar(AppleCheckURL, GoogleHost, '3');
  }

  /** A 200 from a target on the Apple host (and not on the Google host)
      is a portal exactly when the lower-cased body lacks "success". */
  lemma AppleStyleTarget(urls: seq<string>, outcomes: seq<Attempt>, body: string)
    requires |urls| > 0 && |outcomes| == RetryCount
    requires Contains(urls[0], AppleHost) && !Contains(urls[0], GoogleHost)
    requires outcomes[0].Reached? && outcomes[0].response.status == StatusOK
    requires outcomes[0].response.body == body
    ensures Run(urls, outcomes, 1) == Verdict(!Contains(ToLower(body), SuccessMarker), urls[0], 1)
  {
    assert ProbeURL(urls, 1) == urls[0];
  }
}
