/** The single-URL captive-portal classifier of the interface-listener
    build (cgo-impl/all-intfr-impl/main.go): every attempt probes the same
    Google URL, any 3xx is a portal (at the Location, or at the probe URL
    when Location is missing), and when every attempt is inconclusive it
    answers "portal" (fail-safe). */
module SingleProbe {
  import opened Http

  const CheckURL := "http://clients3.google.com/generate_204"
  const RetryCount: nat := 5

  /** What one attempt decides: try again, or return (captive, url). */
  datatype Step = Retry | Conclude(captive: bool, url: string)

  /** The classification of one attempt's outcome. */
  function Judge(outcome: Attempt): (step: Step)
    ensures step.Retry? <==> !outcome.Reached?
    ensures step.Conclude? ==> step.url != ""
    ensures step.Conclude? ==> (step.captive <==> IsRedirect(outcome.response.status))
    ensures step.Conclude? && !step.captive ==> step.url == CheckURL
    ensures step.Conclude? && step.captive && outcome.response.location != "" ==>
              step.url == outcome.response.location
    ensures step.Conclude? && step.captive && outcome.response.location == "" ==>
              step.url == CheckURL
  {
    match outcome
    case Unreachable => Retry
    case Timeout => Retry
    case TransportError => Retry
    case Reached(r) =>
      if IsRedirect(r.status) then
        Conclude(true, if r.location == "" then CheckURL else r.location)
      else
        Conclude(false, CheckURL)
  }

  /** The result of the classifier together with the number of attempts
      it entered. */
  datatype Verdict = Verdict(captive: bool, url: string, attempts: nat)

  /** Reference definition of the loop from attempt `attempt` on. */
  function Run(outcomes: seq<Attempt>, attempt: nat): (v: Verdict)
    requires |outcomes| == RetryCount && 1 <= attempt <= RetryCount + 1
    ensures 1 <= v.attempts <= RetryCount
    ensures attempt <= RetryCount ==> attempt <= v.attempts
    decreases RetryCount + 1 - attempt
  {
    if attempt > RetryCount then Verdict(true, CheckURL, RetryCount)
    else
      match Judge(outcomes[attempt - 1])
      case Retry => Run(outcomes, attempt + 1)
      case Conclude(c, u) => Verdict(c, u, attempt)
  }

  /** Reference definition of behindCaptivePortal. */
  function Classify(outcomes: seq<Attempt>): Verdict
    requires |outcomes| == RetryCount
  {
    Run(outcomes, 1)
  }

  /** No attempt from `from` up to (excluding) `to` reached the server. */
  predicate NoneReached(outcomes: seq<Attempt>, from: nat, to: nat)
    requires |outcomes| == RetryCount && 1 <= from && to <= RetryCount + 1
  {
    forall i :: from - 1 <= i < to - 1 ==> !outcomes[i].Reached?
  }

  /** The first attempt that reaches the server decides; when none does,
      the answer is (true, CheckURL) after RetryCount attempts. */
  lemma {:induction false} RunDecides(outcomes: seq<Attempt>, attempt: nat)
    requires |outcomes| == RetryCount && 1 <= attempt <= RetryCount + 1
    ensures var v := Run(outcomes, attempt);
            NoneReached(outcomes, attempt, v.attempts)
            && (Judge(outcomes[v.attempts - 1]) == Conclude(v.captive, v.url)
                || (NoneReached(outcomes, attempt, RetryCount + 1) && v == Verdict(true, CheckURL, RetryCount)))
    decreases RetryCount + 1 - attempt
  {
    if attempt <= RetryCount && !outcomes[attempt - 1].Reached? {
      RunDecides(outcomes, attempt + 1);
    }
  }

  /** The answer never carries an empty URL, and "no portal" is only given
      by a response that is not a redirect. */
  lemma ClassifyURL(outcomes: seq<Attempt>)
    requires |outcomes| == RetryCount
    ensures Classify(outcomes).url != ""
    ensures !Classify(outcomes).captive ==>
              Classify(outcomes).url == CheckURL
              && outcomes[Classify(outcomes).attempts - 1].Reached?
              && !IsRedirect(outcomes[Classify(outcomes).attempts - 1].response.status)
  {
    RunDecides(outcomes, 1);
  }

  /** When no attempt reaches the server the classifier fails safe. */
  lemma ClassifyExhausted(outcomes: seq<Attempt>)
    requires |outcomes| == RetryCount
    ensures NoneReached(outcomes, 1, RetryCount + 1) <==>
              Classify(outcomes) == Verdict(true, CheckURL, RetryCount) && !outcomes[RetryCount - 1].Reached?
  {
    RunDecides(outcomes, 1);
  }

  /** behindCaptivePortal (main.go), with the outcome of attempt k as
      `outcomes[k - 1]`; `attempts` is the number of attempts entered. */
  method BehindCaptivePortal(outcomes: seq<Attempt>) returns (isCaptive: bool, url: string, attempts: nat)
    requires |outcomes| == RetryCount
    ensures Verdict(isCaptive, url, attempts) == Classify(outcomes)
    ensures 1 <= attempts <= RetryCount
    ensures url != ""
  {
    ClassifyURL(outcomes);
    var attempt := 1;
    while attempt <= RetryCount
      invariant 1 <= attempt <= RetryCount + 1
      invariant Run(outcomes, attempt) == Run(outcomes, 1)
      decreases RetryCount + 1 - attempt
    {
      var outcome := outcomes[attempt - 1];
      if outcome.Unreachable? || outcome.Timeout? || outcome.TransportError? {
        attempt := attempt + 1;
        continue;
      }
      var resp := outcome.response;
      if 300 <= resp.status < 400 {
        var redirectURL := resp.location;
        if redirectURL == "" {
          redirectURL := CheckURL;
        }
        return true, redirectURL, attempt;
      }
      return false, CheckURL, attempt;
    }
    return true, CheckURL, RetryCount;
  }

  /** networkChangedCallback (main.go): a browser launch is requested
      exactly when the classifier answers "captive", at the URL it names. */
  method NetworkChangedCallback(outcomes: seq<Attempt>) returns (launch: Option<string>)
    requires |outcomes| == RetryCount
    ensures launch.Some? <==> Classify(outcomes).captive
    ensures launch.Some? ==> launch.value == Classify(outcomes).url && launch.value != ""
  {
    var isCaptive, captiveUrl, _ := BehindCaptivePortal(outcomes);
    if isCaptive {
      launch := Some(captiveUrl);
    } else {
      launch := None;
    }
  }
}
