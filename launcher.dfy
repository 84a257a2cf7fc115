/** OpenCaptivePortalLogin of the polling build on Linux
    (polling-method/captive/captive_linux.go): the login URL defaults to
    the Google probe URL, and the browsers are tried in a fixed order until
    one of them starts. Whether a command starts is an input: `available`
    is the set of commands whose Start succeeds. */
module LinuxLauncher {

  const Browsers: seq<string> := ["xdg-open", "firefox", "google-chrome", "chromium", "mozilla"]
  const DefaultURL := "http://clients3.google.com/generate_204"

  /** One `exec.Command(program, arg)` that was started. */
  datatype Command = Command(program: string, arg: string)

  /** The URL the browsers are given: the cached redirect, or the default
      when none was captured. */
  function LaunchURL(redirectUrl: string): (url: string)
    ensures url != ""
    ensures redirectUrl == "" ==> url == DefaultURL
    ensures redirectUrl != "" ==> url == redirectUrl
  {
    if redirectUrl == "" then DefaultURL else redirectUrl
  }

  /** Some browser of the list starts. */
  predicate AnyStarts(available: set<string>) {
    exists i :: 0 <= i < |Browsers| && Browsers[i] in available
  }

  /** Returns `ok` (the error is nil) and the commands tried, in order. */
  method OpenCaptivePortalLogin(redirectUrl: string, available: set<string>)
    returns (ok: bool, tried: seq<Command>)
    ensures ok <==> AnyStarts(available)
    ensures 1 <= |tried| <= |Browsers|
    ensures forall j :: 0 <= j < |tried| ==> tried[j] == Command(Browsers[j], LaunchURL(redirectUrl))
    ensures forall j :: 0 <= j < |tried| - 1 ==> Browsers[j] !in available
    ensures ok ==> Browsers[|tried| - 1] in available
    ensures !ok ==> |tried| == |Browsers|
  {
    var url := redirectUrl;
    if url == "" {
      url := DefaultURL;
    }
    tried := [];
    for i := 0 to |Browsers|
      invariant |tried| == i
      invariant forall j :: 0 <= j < i ==> tried[j] == Command(Browsers[j], url) && Browsers[j] !in available
    {
      var browser := Browsers[i];
      tried := tried + [Command(browser, url)];
      if browser in available {
        return true, tried;
      }
    }
    return false, tried;
  }
}
