/** The single-shot check of the macOS listener build (cgo-mac/all/main.go):
    one GET of the Apple page with redirects followed; a launch of the Apple
    page is requested unless the answer is a 200 at exactly that URL. */
module MacProbe {
  import opened Http

  const AppleHome := "http://captive.apple.com"

  /** The status of the final response and the URL of its request, after
      redirects were followed. */
  datatype Reply = Reply(status: int, finalURL: string)

  /** checkCaptivePortal: `reply` is None on a transport error; the result
      is the URL of the one browser launch it requests, if any. */
  function CheckCaptivePortal(reply: Option<Reply>): (launch: Option<string>)
    ensures reply.None? ==> launch.None?
    ensures launch.Some? ==> launch.value == AppleHome
    ensures launch.None? <==>
              reply.None? || (reply.value.status == StatusOK && reply.value.finalURL == AppleHome)
  {
    match reply
    case None => None
    case Some(r) =>
      if r.status != StatusOK then Some(AppleHome)
      else if r.finalURL != AppleHome then Some(AppleHome)
      else None
  }
}
