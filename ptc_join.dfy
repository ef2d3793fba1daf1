/** `PtcJoin`: the join-mode broker. Its `is_running` flag is raised for the
    length of one browser attempt and lowered on every way out. */
module PtcJoinBroker {
  import opened Common
  import opened JoinBrowser

  /** How the `Proxy(...)` constructor treats the request's proxy string: the
      proxy's URL, or `None` when the constructor raises. Proxy parsing is not
      part of this model; the broker receives it as a function value. */
  type ProxyParser = Option<string> -> Option<string>

  class PtcJoin {
    const browser: BrowserJoin
    var responses: seq<CionResponse>
    var lastCionCall: int
    var isRunning: bool
    /** The value of `is_running` when the last call handed a proxy to the
        browser; `None` when that call never reached the browser. */
    ghost var flagAtAttempt: Option<bool>

    constructor (browser: BrowserJoin, now: int)
      ensures this.browser == browser && responses == [] && lastCionCall == now && !isRunning
    {
      this.browser := browser;
      responses := [];
      lastCionCall := now;
      isRunning := false;
      flagAtAttempt := None;
    }

    method GetJoinTokens(proxy: Option<string>, parse: ProxyParser, env: JoinEnv)
      returns (response: Option<CionResponse>)
      modifies this`isRunning, this`flagAtAttempt, browser
      ensures !isRunning
      ensures responses == old(responses) && lastCionCall == old(lastCionCall)
      ensures parse(proxy).None? ==>
                response.None? && flagAtAttempt.None? && unchanged(browser)
      ensures parse(proxy).Some? ==>
                var step := JoinAttempt(JoinState(old(browser.firstRun), old(browser.consecutiveFailures),
                                                  old(browser.running), false, 0),
                                        parse(proxy).value, env);
                && flagAtAttempt == Some(true)
                && response == step.response
                && browser.firstRun == step.after.firstRun
                && browser.consecutiveFailures == step.after.failures
                && browser.running == step.after.running
    {
      isRunning := true;
      var url := parse(proxy);
      if url.None? {
        // The constructor raised: logged, then the flag is lowered below.
        flagAtAttempt := None;
        isRunning := false;
        return None;
      }
      var p := new Proxy(url.value);
      flagAtAttempt := Some(isRunning);
      response := browser.GetJoinTokens(p, env);
      isRunning := false;
    }
  }
}
