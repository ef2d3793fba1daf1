/** One join-mode acquisition attempt (`BrowserJoin.get_join_tokens`): the same
    shape as the auth attempt, with its own effects. The proxy is given by the
    caller and always announced to the extension; an unreachable page
    invalidates the proxy; an unclassified exception leaves the failure counter
    alone; after the JS challenge the page is polled for the reCAPTCHA iframe or
    the Imperva error iframe until a deadline, and the CAPTCHA tokens are read. */
module JoinBrowser {
  import opened Text
  import opened Common

  /** Browser calls that can raise an exception none of the handlers
      classifies; `Poll(k)` is the iframe query of polling round `k`. */
  datatype Stage =
    | Setup           // JS-check handler, listeners, new tab, "setProxy" message
    | Navigate        // registering the handler, opening the join page, reading it
    | ChallengeReload // clearing the handlers and reloading after the JS check
    | Poll(round: nat)
    | ErrorPage       // reading the page behind the error iframe
    | Tokens          // the two script evaluations, the promise, the cookies
    | TokenFields     // building the response: the script's value lacks "create" or "activate"

  /** What one polling round's two `query_selector` calls found. */
  datatype Frames = Frames(captcha: bool, error: bool)

  /** The "create" and "activate" entries of the token script's result. */
  datatype TokenLists = TokenLists(create: seq<string>, activate: seq<string>)

  /** The `CionResponse` record handed to the client. */
  datatype CionResponse = CionResponse(
    reeseCookie: Cookies,
    createTokens: seq<string>,
    activateTokens: seq<string>,
    timestamp: int,
    proxy: string)

  /** Everything the browser and the extension answer during one attempt. The
      100 second polling deadline is the length of `polls`: the rounds whose
      loop test still saw time left. */
  datatype JoinEnv = JoinEnv(
    startFails: bool,        // `start_browser()` raises
    clock: int,              // `int(time.time())` before navigation
    fault: Option<Stage>,    // the browser call that raises an unclassified exception
    proxyConfirmed: bool,    // the proxy-change confirmation arrives within 2 seconds
    purgePending: bool,      // a purge listener exists and has not fired yet
    purgeConfirmed: bool,    // the purge confirmation arrives within 2 seconds
    page: string,            // the join page as first read
    jsConfirmed: bool,       // the JS-check future completes within 100 seconds
    polls: seq<Frames>,
    errorPage: string,       // the page read after the error iframe was seen
    imperva: ImpervaParser,
    tokens: Option<TokenLists>, // None: the script's value lacks "create" or "activate",
                                // so building the response raises after the counter reset
    cookies: Cookies)

  // ---------------------------------------------------------------------------
  // The iframe polling loop

  /** Where polling stops: a round found an iframe, the deadline passed with
      nothing found, or a query raised. */
  datatype PollVerdict = Seen(round: nat, frames: Frames) | Unseen | PollFaulted(round: nat)

  function PollFrom(env: JoinEnv, k: nat): PollVerdict
    requires k <= |env.polls|
    decreases |env.polls| - k
  {
    if k == |env.polls| then Unseen
    else if env.fault == Some(Poll(k)) then PollFaulted(k)
    else if env.polls[k].captcha || env.polls[k].error then Seen(k, env.polls[k])
    else PollFrom(env, k + 1)
  }

  function Polling(env: JoinEnv): PollVerdict
  {
    PollFrom(env, 0)
  }

  /** Round `j` ran without an exception and found neither iframe. */
  predicate Empty(env: JoinEnv, j: nat)
    requires j < |env.polls|
  {
    env.fault != Some(Poll(j)) && !env.polls[j].captcha && !env.polls[j].error
  }

  predicate AllEmpty(env: JoinEnv, from: nat, to: nat)
    requires to <= |env.polls|
  {
    forall j :: from <= j < to ==> Empty(env, j)
  }

  /** The verdict from round `k` on, described round by round. */
  lemma {:induction false} PollFromMeaning(env: JoinEnv, k: nat)
    requires k <= |env.polls|
    ensures match PollFrom(env, k)
      case Seen(a, f) =>
        k <= a < |env.polls| && AllEmpty(env, k, a) && env.fault != Some(Poll(a))
        && f == env.polls[a] && (f.captcha || f.error)
      case Unseen => AllEmpty(env, k, |env.polls|)
      case PollFaulted(a) => k <= a < |env.polls| && AllEmpty(env, k, a) && env.fault == Some(Poll(a))
    decreases |env.polls| - k
  {
    if k < |env.polls| {
      PollFromMeaning(env, k + 1);
    }
  }

  lemma {:induction false} SkipEmpty(env: JoinEnv, k: nat, a: nat)
    requires k <= a <= |env.polls| && AllEmpty(env, k, a)
    ensures PollFrom(env, k) == PollFrom(env, a)
    decreases a - k
  {
    if k < a {
      assert Empty(env, k);
      SkipEmpty(env, k + 1, a);
    }
  }

  /** Polling ends at the first round that found something. */
  lemma SeenIff(env: JoinEnv, a: nat)
    ensures Polling(env).Seen? && Polling(env).round == a <==>
            a < |env.polls| && AllEmpty(env, 0, a) && env.fault != Some(Poll(a))
            && (env.polls[a].captcha || env.polls[a].error)
  {
    PollFromMeaning(env, 0);
    if a < |env.polls| && AllEmpty(env, 0, a) {
      SkipEmpty(env, 0, a);
    }
  }

  /** Nothing is seen exactly when every round before the deadline was empty. */
  lemma UnseenIff(env: JoinEnv)
    ensures Polling(env) == Unseen <==> AllEmpty(env, 0, |env.polls|)
  {
    PollFromMeaning(env, 0);
    if AllEmpty(env, 0, |env.polls|) {
      SkipEmpty(env, 0, |env.polls|);
    }
  }

  // ---------------------------------------------------------------------------
  // The attempt as a function

  /** What the body of the `try` computes: its result, which confirmations it
      waited for, and whether it got as far as `first_run = False`. */
  datatype JoinRun = JoinRun(
    result: Result<CionResponse, Failure<Stage>>,
    proxyAwaited: bool,
    purgeAwaited: bool,
    firstRunCleared: bool)

  /** What the iframes found decides the rest: the error iframe first, then
      the CAPTCHA, then the tokens. */
  function AfterPolling(env: JoinEnv, proxyUrl: string, found: Frames): Result<CionResponse, Failure<Stage>>
  {
    if found.error then
      if env.fault == Some(ErrorPage) then Err(Unexpected(ErrorPage))
      else Err(Login(ErrorFrame(env.imperva(env.errorPage))))
    else if !found.captcha then Err(Login(CaptchaTimeout))
    else if env.fault == Some(Tokens) then Err(Unexpected(Tokens))
    else if env.tokens.None? then Err(Unexpected(TokenFields))
    else Ok(CionResponse(env.cookies, env.tokens.value.create, env.tokens.value.activate, env.clock, proxyUrl))
  }

  /** The stages after `first_run = False`. */
  function AfterPurge(env: JoinEnv, proxyUrl: string): Result<CionResponse, Failure<Stage>>
  {
    if env.fault == Some(Navigate) then Err(Unexpected(Navigate))
    else if MentionsIgnoringCase(env.page, NetErrorMarker) then Err(ProxyFailure(NetError))
    else if !env.jsConfirmed then Err(Login(JsChallengeTimeout))
    else if env.fault == Some(ChallengeReload) then Err(Unexpected(ChallengeReload))
    else match Polling(env)
      case PollFaulted(a) => Err(Unexpected(Poll(a)))
      case Seen(_, f) => AfterPolling(env, proxyUrl, f)
      case Unseen => AfterPolling(env, proxyUrl, Frames(false, false))
  }

  function JoinBody(firstRun: bool, proxyUrl: string, env: JoinEnv): JoinRun
  {
    if env.fault == Some(Setup) then JoinRun(Err(Unexpected(Setup)), false, false, false)
    else JoinRun(AfterPurge(env, proxyUrl), true, !firstRun && env.purgePending, true)
  }

  /** The body got as far as `consecutive_failures = 0`, which comes after the
      tokens and cookies are read and before the response is built. */
  predicate PastCounterReset(result: Result<CionResponse, Failure<Stage>>)
  {
    result.Ok? || result == Err(Unexpected(TokenFields))
  }

  /** The browser's state and the given proxy's health. */
  datatype JoinState = JoinState(firstRun: bool, failures: int, running: bool, invalidated: bool, rateLimits: nat)

  datatype JoinStep = JoinStep(after: JoinState, response: Option<CionResponse>)

  /** `get_join_tokens`, handlers included. */
  function JoinAttempt(s: JoinState, proxyUrl: string, env: JoinEnv): JoinStep
  {
    if env.startFails then JoinStep(s, None)
    else
      var run := JoinBody(s.firstRun, proxyUrl, env);
      var firstRun := s.firstRun && !run.firstRunCleared;
      var failures := if PastCounterReset(run.result) then 0 else s.failures;
      match run.result
      case Ok(r) => JoinStep(s.(firstRun := firstRun, failures := failures, running := true), Some(r))
      case Err(Login(_)) => JoinStep(s.(firstRun := firstRun, failures := failures + 1, running := true), None)
      case Err(ProxyFailure(_)) =>
        JoinStep(s.(firstRun := firstRun, failures := failures, running := false, invalidated := true), None)
      case Err(Unexpected(_)) => JoinStep(s.(firstRun := firstRun, failures := failures, running := false), None)
  }

  // ---------------------------------------------------------------------------
  // Properties of the attempt

  /** The attempt passes the JS challenge and reaches the polling loop. */
  predicate ReachesPolling(env: JoinEnv)
  {
    && !env.startFails
    && env.fault != Some(Setup)
    && env.fault != Some(Navigate)
    && !MentionsIgnoringCase(env.page, NetErrorMarker)
    && env.jsConfirmed
    && env.fault != Some(ChallengeReload)
  }

  lemma StartFailureChangesNothing(s: JoinState, proxyUrl: string, env: JoinEnv)
    requires env.startFails
    ensures JoinAttempt(s, proxyUrl, env) == JoinStep(s, None)
  {
  }

  /** An unreachable page invalidates the proxy for good and stops the browser;
      the counter and the proxy's cooldowns stay as they were. */
  lemma NetErrorEffects(s: JoinState, proxyUrl: string, env: JoinEnv)
    requires !env.startFails && env.fault != Some(Setup) && env.fault != Some(Navigate)
    requires MentionsIgnoringCase(env.page, NetErrorMarker)
    ensures JoinAttempt(s, proxyUrl, env) ==
            JoinStep(s.(firstRun := false, running := false, invalidated := true), None)
  {
  }

  /** The proxy is invalidated only by an unreachable page. */
  lemma InvalidatedOnlyOnNetError(s: JoinState, proxyUrl: string, env: JoinEnv)
    ensures JoinAttempt(s, proxyUrl, env).after.invalidated ==>
            s.invalidated
            || (!env.startFails && env.fault != Some(Setup) && env.fault != Some(Navigate)
                && MentionsIgnoringCase(env.page, NetErrorMarker))
    ensures JoinAttempt(s, proxyUrl, env).after.rateLimits == s.rateLimits
  {
  }

  /** A JS challenge that does not finish counts a failure and keeps the browser. */
  lemma JsChallengeTimeoutEffects(s: JoinState, proxyUrl: string, env: JoinEnv)
    requires !env.startFails && env.fault != Some(Setup) && env.fault != Some(Navigate)
    requires !MentionsIgnoringCase(env.page, NetErrorMarker) && !env.jsConfirmed
    ensures JoinAttempt(s, proxyUrl, env) ==
            JoinStep(s.(firstRun := false, failures := s.failures + 1, running := true), None)
  {
  }

  /** The error iframe fails the attempt even when the CAPTCHA iframe was found
      in the same round. */
  lemma ErrorFrameWins(s: JoinState, proxyUrl: string, env: JoinEnv)
    requires ReachesPolling(env)
    requires Polling(env).Seen? && Polling(env).frames.error && env.fault != Some(ErrorPage)
    ensures JoinBody(s.firstRun, proxyUrl, env).result == Err(Login(ErrorFrame(env.imperva(env.errorPage))))
    ensures JoinAttempt(s, proxyUrl, env) ==
            JoinStep(s.(firstRun := false, failures := s.failures + 1, running := true), None)
  {
  }

  /** Reaching the deadline with neither iframe is "Timeout waiting for captcha". */
  lemma CaptchaTimeoutIff(s: JoinState, proxyUrl: string, env: JoinEnv)
    requires ReachesPolling(env)
    ensures JoinBody(s.firstRun, proxyUrl, env).result == Err(Login(CaptchaTimeout)) <==>
            AllEmpty(env, 0, |env.polls|)
  {
    PollFromMeaning(env, 0);
    UnseenIff(env);
  }

  /** Tokens come back exactly when the CAPTCHA iframe alone was found and the
      tokens were read; the response carries the timestamp taken before
      navigation, the proxy's URL and both token lists, and the counter is 0. */
  lemma SuccessIff(s: JoinState, proxyUrl: string, env: JoinEnv)
    ensures JoinAttempt(s, proxyUrl, env).response.Some? <==>
            ReachesPolling(env) && Polling(env).Seen?
            && Polling(env).frames.captcha && !Polling(env).frames.error
            && env.fault != Some(Tokens) && env.tokens.Some?
    ensures JoinAttempt(s, proxyUrl, env).response.Some? ==>
            JoinAttempt(s, proxyUrl, env) ==
            JoinStep(s.(firstRun := false, failures := 0, running := true),
                     Some(CionResponse(env.cookies, env.tokens.value.create, env.tokens.value.activate,
                                       env.clock, proxyUrl)))
  {
  }

  /** An unclassified exception raised before the counter reset stops the
      browser and leaves the counter alone. */
  lemma UnexpectedEffects(s: JoinState, proxyUrl: string, env: JoinEnv)
    requires !env.startFails
    requires JoinBody(s.firstRun, proxyUrl, env).result.Err?
    requires JoinBody(s.firstRun, proxyUrl, env).result.error.Unexpected?
    requires JoinBody(s.firstRun, proxyUrl, env).result.error.stage != TokenFields
    ensures JoinAttempt(s, proxyUrl, env).after == s.(firstRun := JoinAttempt(s, proxyUrl, env).after.firstRun, running := false)
    ensures JoinAttempt(s, proxyUrl, env).response.None?
  {
  }

  /** A token value without "create" or "activate" fails only once the counter
      has been reset: the attempt ends with the counter at 0, the browser
      stopped and no response, and this is the only failure that resets it. */
  lemma TokenFieldsEffects(s: JoinState, proxyUrl: string, env: JoinEnv)
    ensures !env.startFails ==>
            (JoinBody(s.firstRun, proxyUrl, env).result == Err(Unexpected(TokenFields)) <==>
            ReachesPolling(env) && Polling(env).Seen?
            && Polling(env).frames.captcha && !Polling(env).frames.error
            && env.fault != Some(Tokens) && env.tokens.None?)
    ensures !env.startFails && JoinBody(s.firstRun, proxyUrl, env).result == Err(Unexpected(TokenFields)) ==>
            JoinAttempt(s, proxyUrl, env) == JoinStep(s.(firstRun := false, failures := 0, running := false), None)
    ensures JoinAttempt(s, proxyUrl, env).after.failures == 0 && JoinAttempt(s, proxyUrl, env).response.None? && s.failures > 0 ==>
            JoinBody(s.firstRun, proxyUrl, env).result == Err(Unexpected(TokenFields))
  {
  }

  /** The failure counter only ever resets, stays, or grows by one. */
  lemma CounterSteps(s: JoinState, proxyUrl: string, env: JoinEnv)
    ensures var f := JoinAttempt(s, proxyUrl, env).after.failures;
      f == 0 || f == s.failures || f == s.failures + 1
  {
  }

  /** Past the setup `first_run` is false; the purge confirmation is waited for
      only on a browser that has run before, the proxy confirmation on every
      attempt that gets past the setup. */
  lemma FirstRunCleared(s: JoinState, proxyUrl: string, env: JoinEnv)
    ensures !env.startFails && env.fault != Some(Setup) ==> !JoinAttempt(s, proxyUrl, env).after.firstRun
    ensures JoinBody(s.firstRun, proxyUrl, env).purgeAwaited ==> !s.firstRun && env.purgePending
    ensures JoinBody(s.firstRun, proxyUrl, env).proxyAwaited <==> env.fault != Some(Setup)
  {
  }

  lemma {:induction false} PollingIgnoresConfirmations(env: JoinEnv, k: nat, p: bool, q: bool)
    requires k <= |env.polls|
    ensures PollFrom(env, k) == PollFrom(env.(proxyConfirmed := p, purgeConfirmed := q), k)
    decreases |env.polls| - k
  {
    if k < |env.polls| {
      PollingIgnoresConfirmations(env, k + 1, p, q);
    }
  }

  /** A confirmation that times out never changes the outcome. */
  lemma ConfirmationTimeoutsAreHarmless(s: JoinState, proxyUrl: string, env: JoinEnv, p: bool, q: bool)
    ensures JoinAttempt(s, proxyUrl, env) ==
            JoinAttempt(s, proxyUrl, env.(proxyConfirmed := p, purgeConfirmed := q))
  {
    PollingIgnoresConfirmations(env, 0, p, q);
    assert AfterPurge(env, proxyUrl) == AfterPurge(env.(proxyConfirmed := p, purgeConfirmed := q), proxyUrl);
  }

  // ---------------------------------------------------------------------------
  // The attempt, step by step

  class BrowserJoin {
    var firstRun: bool
    var consecutiveFailures: int
    var running: bool

    constructor (firstRun: bool, consecutiveFailures: int)
      ensures this.firstRun == firstRun && this.consecutiveFailures == consecutiveFailures && !running
    {
      this.firstRun := firstRun;
      this.consecutiveFailures := consecutiveFailures;
      running := false;
    }

    ghost function State(proxy: Proxy): JoinState
      reads this, proxy
    {
      JoinState(firstRun, consecutiveFailures, running, proxy.invalidated, proxy.rateLimits)
    }

    method GetJoinTokens(proxy: Proxy, env: JoinEnv) returns (response: Option<CionResponse>)
      modifies this, proxy
      ensures var step := JoinAttempt(old(State(proxy)), proxy.url, env);
        State(proxy) == step.after && response == step.response
    {
      if env.startFails {
        return None;
      }
      running := true;
      var result, _, _ := Challenge(proxy, env);
      match result
      case Ok(r) =>
        response := Some(r);
      case Err(Login(_)) =>
        consecutiveFailures := consecutiveFailures + 1;
        // Sleeps one second before returning.
        response := None;
      case Err(ProxyFailure(_)) =>
        proxy.Invalidate();
        running := false;
        response := None;
      case Err(Unexpected(_)) =>
        running := false;
        response := None;
    }

    /** The body of the `try`. */
    method Challenge(proxy: Proxy, env: JoinEnv)
      returns (result: Result<CionResponse, Failure<Stage>>, ghost proxyAwaited: bool, ghost purgeAwaited: bool)
      modifies this`firstRun, this`consecutiveFailures
      ensures var run := JoinBody(old(firstRun), proxy.url, env);
        && result == run.result && firstRun == (old(firstRun) && !run.firstRunCleared)
        && proxyAwaited == run.proxyAwaited && purgeAwaited == run.purgeAwaited
        && consecutiveFailures == if PastCounterReset(result) then 0 else old(consecutiveFailures)
    {
      proxyAwaited, purgeAwaited := false, false;
      if env.fault == Some(Setup) {
        result := Err(Unexpected(Setup));
        return;
      }
      // Waits up to 2 s for the proxy-change confirmation; a timeout is only logged.
      proxyAwaited := true;
      if !firstRun && env.purgePending {
        // Waits up to 2 s for the purge confirmation; a timeout is only logged.
        purgeAwaited := true;
      }
      firstRun := false;
      result := OpenPage(proxy, env);
    }

    /** The stages after `first_run = False`: the page load, the JS challenge,
        the polling loop and the tokens. */
    method OpenPage(proxy: Proxy, env: JoinEnv) returns (result: Result<CionResponse, Failure<Stage>>)
      modifies this`consecutiveFailures
      ensures result == AfterPurge(env, proxy.url)
      ensures consecutiveFailures == if PastCounterReset(result) then 0 else old(consecutiveFailures)
    {
      // `env.clock` is the time read when the `try` began.
      var timestamp := env.clock;
      if env.fault == Some(Navigate) {
        return Err(Unexpected(Navigate));
      }
      if MentionsIgnoringCase(env.page, NetErrorMarker) {
        return Err(ProxyFailure(NetError));
      }
      if !env.jsConfirmed {
        return Err(Login(JsChallengeTimeout));
      }
      if env.fault == Some(ChallengeReload) {
        return Err(Unexpected(ChallengeReload));
      }
      var verdict := AwaitFrames(env);
      if verdict.PollFaulted? {
        return Err(Unexpected(Poll(verdict.round)));
      }
      var found := if verdict.Seen? then verdict.frames else Frames(false, false);
      if found.error {
        if env.fault == Some(ErrorPage) {
          return Err(Unexpected(ErrorPage));
        }
        return Err(Login(ErrorFrame(env.imperva(env.errorPage))));
      }
      if !found.captcha {
        return Err(Login(CaptchaTimeout));
      }
      if env.fault == Some(Tokens) {
        return Err(Unexpected(Tokens));
      }
      consecutiveFailures := 0;
      if env.tokens.None? {
        // Indexing the token value raises a `KeyError`.
        return Err(Unexpected(TokenFields));
      }
      var tokens := env.tokens.value;
      result := Ok(CionResponse(env.cookies, tokens.create, tokens.activate, timestamp, proxy.url));
    }

    /** The polling loop: query both iframes each round until one is found
        or the deadline has passed. */
    method AwaitFrames(env: JoinEnv) returns (verdict: PollVerdict)
      ensures verdict == Polling(env)
    {
      var foundCaptcha, foundError := false, false;
      var round := 0;
      while !foundCaptcha && !foundError && round < |env.polls|
        invariant 0 <= round <= |env.polls|
        invariant !foundCaptcha && !foundError ==> Polling(env) == PollFrom(env, round)
        invariant foundCaptcha || foundError ==>
                    0 < round && Polling(env) == Seen(round - 1, Frames(foundCaptcha, foundError))
      {
        if env.fault == Some(Poll(round)) {
          return PollFaulted(round);
        }
        foundCaptcha := env.polls[round].captcha;
        foundError := env.polls[round].error;
        round := round + 1;
      }
      if foundCaptcha || foundError {
        verdict := Seen(round - 1, Frames(foundCaptcha, foundError));
      } else {
        verdict := Unseen;
      }
    }
  }
}
