/** One auth-mode acquisition attempt (`BrowserAuth.get_reese_cookie`):
    start the browser, optionally switch proxy, wait for the cookie purge,
    load the login page, classify the Imperva code, wait for the JS challenge,
    reload and check the page up to ten times, read the cookies.

    The browser and the extension are replaced by an `AuthEnv` that says what
    each of their calls answers. `AuthBody` and `AuthAttempt` say, as functions,
    what the attempt computes; the class `BrowserAuth` runs the same stages
    step by step and is proved to agree with them. */
module AuthBrowser {
  import opened Text
  import opened Common

  /** The reload-confirmation loop runs at most this many iterations. */
  const MaxReloadChecks: nat := 10

  /** Browser calls that can raise an exception none of the handlers
      classifies; `ReloadCheck(k)` is the page read of reload iteration `k`
      (counting from 0). */
  datatype Stage =
    | Setup          // JS-check handler, purge listener, new tab
    | ProxyChange    // `change_proxy` (only when a proxy change was requested)
    | CookieRestore  // restoring the last cookies, registering the response handler
    | Navigate       // opening the login page or reading it
    | ChallengeReload // clearing the handlers and reloading after the JS check
    | ReloadCheck(attempt: nat)
    | CookieRead     // reading the cookies after success

  /** How a future the attempt may wait for behaves. */
  datatype Signal = AlreadyDone | Arrives | TimesOut

  /** Opening the login page and reading it, both under a 20 second timeout. */
  datatype PageLoad = Loaded(html: string) | TimedOut

  /** Everything the browser, the extension and the proxy distributor answer
      during one attempt. */
  datatype AuthEnv = AuthEnv(
    startFails: bool,          // `start_browser()` raises
    fault: Option<Stage>,      // the browser call that raises an unclassified exception
    usedProxy: bool,           // `proxies.change_proxy()` reports that it used a proxy
    proxyConfirmed: bool,      // the proxy-change confirmation arrives within 2 seconds
    purgePending: bool,        // a purge listener exists and has not fired yet
    purgeConfirmed: bool,      // the purge confirmation arrives within 2 seconds
    page: PageLoad,
    imperva: ImpervaParser,
    js: Signal,                // the JS-check future, waited for up to 100 seconds
    reloads: nat -> string,    // the page read in reload iteration k
    cookies: Cookies)

  // ---------------------------------------------------------------------------
  // The reload-confirmation loop

  /** Where the loop stops: the page rendered at iteration `attempt`, a concrete
      Imperva code appeared, ten iterations passed, or a page read raised. */
  datatype ReloadVerdict =
    | Rendered(attempt: nat)
    | Rejected(attempt: nat, error: ImpervaError)
    | GaveUp
    | Faulted(attempt: nat)

  function ReloadFrom(env: AuthEnv, k: nat): ReloadVerdict
    requires k <= MaxReloadChecks
    decreases MaxReloadChecks - k
  {
    if k == MaxReloadChecks then GaveUp
    else if env.fault == Some(ReloadCheck(k)) then Faulted(k)
    else if MentionsIgnoringCase(env.reloads(k), LoginMarker) then Rendered(k)
    else if env.imperva(env.reloads(k)).code != UnknownCode then Rejected(k, env.imperva(env.reloads(k)))
    else ReloadFrom(env, k + 1)
  }

  function Reload(env: AuthEnv): ReloadVerdict
  {
    ReloadFrom(env, 0)
  }

  /** Iterations the loop ran. */
  function Iterations(v: ReloadVerdict): nat
  {
    match v
    case Rendered(a) => a + 1
    case Rejected(a, _) => a + 1
    case GaveUp => MaxReloadChecks
    case Faulted(a) => a + 1
  }

  /** Pages the loop read without an exception. */
  function PagesRead(v: ReloadVerdict): nat
  {
    match v
    case Rendered(a) => a + 1
    case Rejected(a, _) => a + 1
    case GaveUp => MaxReloadChecks
    case Faulted(a) => a
  }

  /** Calls of `proxy.rate_limited()` the loop made. */
  function LoopRateLimits(v: ReloadVerdict): nat
  {
    match v
    case Rendered(a) => a
    case Rejected(a, _) => a + 1
    case GaveUp => MaxReloadChecks
    case Faulted(a) => a
  }

  /** Iteration `j` neither failed, nor rendered, nor showed a concrete code:
      the loop sleeps and goes on. */
  predicate Transient(env: AuthEnv, j: nat)
  {
    && env.fault != Some(ReloadCheck(j))
    && !MentionsIgnoringCase(env.reloads(j), LoginMarker)
    && env.imperva(env.reloads(j)).code == UnknownCode
  }

  predicate AllTransient(env: AuthEnv, from: nat, to: nat)
  {
    forall j :: from <= j < to ==> Transient(env, j)
  }

  /** The verdict from iteration `k` on, described page by page. */
  lemma {:induction false} ReloadFromMeaning(env: AuthEnv, k: nat)
    requires k <= MaxReloadChecks
    ensures match ReloadFrom(env, k)
      case Rendered(a) =>
        k <= a < MaxReloadChecks && AllTransient(env, k, a)
        && env.fault != Some(ReloadCheck(a)) && MentionsIgnoringCase(env.reloads(a), LoginMarker)
      case Rejected(a, e) =>
        k <= a < MaxReloadChecks && AllTransient(env, k, a)
        && env.fault != Some(ReloadCheck(a)) && !MentionsIgnoringCase(env.reloads(a), LoginMarker)
        && e == env.imperva(env.reloads(a)) && e.code != UnknownCode
      case Faulted(a) =>
        k <= a < MaxReloadChecks && AllTransient(env, k, a) && env.fault == Some(ReloadCheck(a))
      case GaveUp =>
        AllTransient(env, k, MaxReloadChecks)
    decreases MaxReloadChecks - k
  {
    if k < MaxReloadChecks {
      ReloadFromMeaning(env, k + 1);
    }
  }

  /** Unrecognised pages are skipped: the verdict from `k` is the verdict from `a`. */
  lemma {:induction false} SkipTransient(env: AuthEnv, k: nat, a: nat)
    requires k <= a <= MaxReloadChecks && AllTransient(env, k, a)
    ensures ReloadFrom(env, k) == ReloadFrom(env, a)
    decreases a - k
  {
    if k < a {
      assert Transient(env, k);
      SkipTransient(env, k + 1, a);
    }
  }

  /** The loop never runs more than ten iterations. */
  lemma ReloadBounded(env: AuthEnv)
    ensures PagesRead(Reload(env)) <= Iterations(Reload(env)) <= MaxReloadChecks
  {
    ReloadFromMeaning(env, 0);
  }

  /** Success at iteration `a` exactly when page `a` says "log in" and every
      earlier page was an unrecognised ("?") page. */
  lemma ReloadRenderedIff(env: AuthEnv, a: nat)
    ensures Reload(env) == Rendered(a) <==>
            a < MaxReloadChecks && AllTransient(env, 0, a)
            && env.fault != Some(ReloadCheck(a)) && MentionsIgnoringCase(env.reloads(a), LoginMarker)
  {
    ReloadFromMeaning(env, 0);
    if a < MaxReloadChecks && AllTransient(env, 0, a) {
      SkipTransient(env, 0, a);
    }
  }

  /** A concrete code at iteration `a` ends the loop there, even if later
      pages would have rendered. */
  lemma ReloadRejectedIff(env: AuthEnv, a: nat)
    ensures Reload(env).Rejected? && Reload(env).attempt == a <==>
            a < MaxReloadChecks && AllTransient(env, 0, a)
            && env.fault != Some(ReloadCheck(a)) && !MentionsIgnoringCase(env.reloads(a), LoginMarker)
            && env.imperva(env.reloads(a)).code != UnknownCode
  {
    ReloadFromMeaning(env, 0);
    if a < MaxReloadChecks && AllTransient(env, 0, a) {
      SkipTransient(env, 0, a);
    }
  }

  /** Ten unrecognised pages in a row, and only then, exhaust the loop. */
  lemma ReloadGaveUpIff(env: AuthEnv)
    ensures Reload(env) == GaveUp <==> AllTransient(env, 0, MaxReloadChecks)
  {
    ReloadFromMeaning(env, 0);
    if AllTransient(env, 0, MaxReloadChecks) {
      SkipTransient(env, 0, MaxReloadChecks);
    }
  }

  /** Pages among the first `n` reload pages that lack "log in". */
  function CountLacking(env: AuthEnv, n: nat): nat
  {
    if n == 0 then 0
    else CountLacking(env, n - 1) + (if MentionsIgnoringCase(env.reloads(n - 1), LoginMarker) then 0 else 1)
  }

  lemma {:induction false} CountLackingAll(env: AuthEnv, n: nat)
    requires forall j :: 0 <= j < n ==> !MentionsIgnoringCase(env.reloads(j), LoginMarker)
    ensures CountLacking(env, n) == n
  {
    if n > 0 {
      CountLackingAll(env, n - 1);
    }
  }

  /** Every page read without "log in" costs the proxy one `rate_limited()`
      call, those read before a success included, and no other page does. */
  lemma LoopRateLimitsCountLackingPages(env: AuthEnv)
    ensures LoopRateLimits(Reload(env)) == CountLacking(env, PagesRead(Reload(env)))
  {
    ReloadFromMeaning(env, 0);
    match Reload(env)
    case Rendered(a) =>
      TransientPagesLack(env, a);
      assert CountLacking(env, a + 1) == CountLacking(env, a);
    case Rejected(a, _) =>
      TransientPagesLack(env, a);
      assert CountLacking(env, a + 1) == CountLacking(env, a) + 1;
    case GaveUp =>
      TransientPagesLack(env, MaxReloadChecks);
    case Faulted(a) =>
      TransientPagesLack(env, a);
  }

  lemma TransientPagesLack(env: AuthEnv, n: nat)
    requires AllTransient(env, 0, n)
    ensures CountLacking(env, n) == n
  {
    forall j | 0 <= j < n
      ensures !MentionsIgnoringCase(env.reloads(j), LoginMarker)
    {
      assert Transient(env, j);
    }
    CountLackingAll(env, n);
  }

  // ---------------------------------------------------------------------------
  // The attempt as a function

  /** What the body of the `try` computes: its result, which confirmations it
      waited for, whether it got as far as `first_run = False`, and how often it
      rate-limited the proxy. */
  datatype AuthRun = AuthRun(
    result: Result<Cookies, Failure<Stage>>,
    proxyAwaited: bool,
    purgeAwaited: bool,
    firstRunCleared: bool,
    rateLimits: nat)

  /** The stages after `first_run = False`. */
  function AfterPurge(env: AuthEnv): (run: AuthRun)
    ensures run.firstRunCleared && !run.proxyAwaited && !run.purgeAwaited
  {
    var stop := (result, rateLimits) => AuthRun(result, false, false, true, rateLimits);
    if env.fault == Some(CookieRestore) then stop(Err(Unexpected(CookieRestore)), 0)
    else if env.fault == Some(Navigate) then stop(Err(Unexpected(Navigate)), 0)
    else match env.page
      case TimedOut => stop(Err(ProxyFailure(PageTimeout)), 0)
      case Loaded(html) =>
        if MentionsIgnoringCase(html, NetErrorMarker) then stop(Err(ProxyFailure(NetError)), 0)
        else if !Proceeds(env.imperva(html).code) then stop(Err(Login(Blocked(env.imperva(html)))), 1)
        else if env.js == TimesOut then stop(Err(Login(JsChallengeTimeout)), 0)
        else if env.fault == Some(ChallengeReload) then stop(Err(Unexpected(ChallengeReload)), 0)
        else
          var v := Reload(env);
          var result := match v
            case Rendered(_) =>
              if env.fault == Some(CookieRead) then Err(Unexpected(CookieRead)) else Ok(env.cookies)
            case Rejected(_, e) => Err(Login(ReloadBlocked(e)))
            case GaveUp => Err(Login(ReloadTimeout))
            case Faulted(a) => Err(Unexpected(ReloadCheck(a)));
          stop(result, LoopRateLimits(v))
  }

  function AuthBody(firstRun: bool, proxyChanged: bool, env: AuthEnv): AuthRun
  {
    if env.fault == Some(Setup) then
      AuthRun(Err(Unexpected(Setup)), false, false, false, 0)
    else if proxyChanged && env.fault == Some(ProxyChange) then
      AuthRun(Err(Unexpected(ProxyChange)), false, false, false, 0)
    else
      AfterPurge(env).(proxyAwaited := proxyChanged && env.usedProxy,
                       purgeAwaited := !firstRun && env.purgePending)
  }

  /** The part of the browser's state an attempt changes: `first_run`,
      `consecutive_failures`, whether the browser is running, and the health of
      the proxy taken at entry. */
  datatype AuthState = AuthState(firstRun: bool, failures: int, running: bool, rateLimits: nat)

  datatype AuthStep = AuthStep(after: AuthState, cookies: Option<Cookies>)

  /** `get_reese_cookie`, handlers included. */
  function AuthAttempt(s: AuthState, proxyChanged: bool, env: AuthEnv): AuthStep
  {
    if env.startFails then AuthStep(s, None)
    else
      var run := AuthBody(s.firstRun, proxyChanged, env);
      var firstRun := s.firstRun && !run.firstRunCleared;
      var rateLimits := s.rateLimits + run.rateLimits;
      match run.result
      case Ok(c) => AuthStep(AuthState(firstRun, 0, true, rateLimits), Some(c))
      case Err(Login(_)) => AuthStep(AuthState(firstRun, s.failures + 1, true, rateLimits), None)
      case Err(ProxyFailure(_)) => AuthStep(AuthState(firstRun, s.failures, false, rateLimits + 1), None)
      case Err(Unexpected(_)) => AuthStep(AuthState(firstRun, s.failures + 1, false, rateLimits), None)
  }

  // ---------------------------------------------------------------------------
  // Properties of the attempt

  /** The attempt gets past `first_run = False` and reaches the page load. */
  predicate ReachesPageLoad(proxyChanged: bool, env: AuthEnv)
  {
    && !env.startFails
    && env.fault != Some(Setup)
    && !(proxyChanged && env.fault == Some(ProxyChange))
    && env.fault != Some(CookieRestore)
    && env.fault != Some(Navigate)
  }

  /** The attempt reaches the reload-confirmation loop. */
  predicate ReachesReload(proxyChanged: bool, env: AuthEnv)
  {
    && ReachesPageLoad(proxyChanged, env)
    && env.page.Loaded?
    && !MentionsIgnoringCase(env.page.html, NetErrorMarker)
    && Proceeds(env.imperva(env.page.html).code)
    && env.js != TimesOut
    && env.fault != Some(ChallengeReload)
  }

  /** A browser that cannot start: nothing else happens. */
  lemma StartFailureChangesNothing(s: AuthState, proxyChanged: bool, env: AuthEnv)
    requires env.startFails
    ensures AuthAttempt(s, proxyChanged, env) == AuthStep(s, None)
  {
  }

  /** A timed-out or unreachable page, and only that, is a proxy failure: the
      proxy is rate-limited, the browser stopped, the failure counter kept. */
  lemma ProxyFailureIff(s: AuthState, proxyChanged: bool, env: AuthEnv)
    requires !env.startFails
    ensures AuthBody(s.firstRun, proxyChanged, env).result.Err?
            && AuthBody(s.firstRun, proxyChanged, env).result.error.ProxyFailure? <==>
            ReachesPageLoad(proxyChanged, env)
            && (env.page.TimedOut? || MentionsIgnoringCase(env.page.html, NetErrorMarker))
  {
  }

  lemma ProxyFailureEffects(s: AuthState, proxyChanged: bool, env: AuthEnv)
    requires ReachesPageLoad(proxyChanged, env)
    requires env.page.TimedOut? || MentionsIgnoringCase(env.page.html, NetErrorMarker)
    ensures AuthAttempt(s, proxyChanged, env) ==
            AuthStep(AuthState(false, s.failures, false, s.rateLimits + 1), None)
  {
  }

  /** A first page whose Imperva code is neither "15" nor "?" rate-limits the
      proxy once, counts one failure and keeps the browser running. */
  lemma ImpervaRejection(s: AuthState, proxyChanged: bool, env: AuthEnv)
    requires ReachesPageLoad(proxyChanged, env) && env.page.Loaded?
    requires !MentionsIgnoringCase(env.page.html, NetErrorMarker)
    requires !Proceeds(env.imperva(env.page.html).code)
    ensures AuthAttempt(s, proxyChanged, env) ==
            AuthStep(AuthState(false, s.failures + 1, true, s.rateLimits + 1), None)
  {
  }

  /** A JS challenge that does not finish in time is a login failure that
      leaves the proxy alone. */
  lemma JsChallengeTimeoutEffects(s: AuthState, proxyChanged: bool, env: AuthEnv)
    requires ReachesPageLoad(proxyChanged, env) && env.page.Loaded?
    requires !MentionsIgnoringCase(env.page.html, NetErrorMarker)
    requires Proceeds(env.imperva(env.page.html).code) && env.js == TimesOut
    ensures AuthAttempt(s, proxyChanged, env) ==
            AuthStep(AuthState(false, s.failures + 1, true, s.rateLimits), None)
  {
  }

  /** What the reload loop's verdict does to the state: one rate-limit per page
      without "log in", success resets the counter, every failure adds one. */
  lemma ReloadEffects(s: AuthState, proxyChanged: bool, env: AuthEnv)
    requires ReachesReload(proxyChanged, env)
    ensures var step := AuthAttempt(s, proxyChanged, env);
      match Reload(env)
      case Rendered(a) =>
        if env.fault == Some(CookieRead)
        then step == AuthStep(AuthState(false, s.failures + 1, false, s.rateLimits + a), None)
        else step == AuthStep(AuthState(false, 0, true, s.rateLimits + a), Some(env.cookies))
      case Rejected(a, _) =>
        step == AuthStep(AuthState(false, s.failures + 1, true, s.rateLimits + a + 1), None)
      case GaveUp =>
        step == AuthStep(AuthState(false, s.failures + 1, true, s.rateLimits + MaxReloadChecks), None)
      case Faulted(a) =>
        step == AuthStep(AuthState(false, s.failures + 1, false, s.rateLimits + a), None)
  {
  }

  /** Cookies come back exactly when the attempt reached the loop, a page
      rendered and the cookies could be read; then the counter is 0. */
  lemma SuccessIff(s: AuthState, proxyChanged: bool, env: AuthEnv)
    ensures AuthAttempt(s, proxyChanged, env).cookies.Some? <==>
            ReachesReload(proxyChanged, env) && Reload(env).Rendered? && env.fault != Some(CookieRead)
    ensures AuthAttempt(s, proxyChanged, env).cookies.Some? ==>
            AuthAttempt(s, proxyChanged, env).cookies == Some(env.cookies)
            && AuthAttempt(s, proxyChanged, env).after.failures == 0
            && AuthAttempt(s, proxyChanged, env).after.running
  {
  }

  /** Any unclassified exception after the start counts one failure and stops
      the browser. */
  lemma UnexpectedEffects(s: AuthState, proxyChanged: bool, env: AuthEnv)
    requires !env.startFails
    requires AuthBody(s.firstRun, proxyChanged, env).result.Err?
    requires AuthBody(s.firstRun, proxyChanged, env).result.error.Unexpected?
    ensures AuthAttempt(s, proxyChanged, env).cookies == None
    ensures AuthAttempt(s, proxyChanged, env).after.failures == s.failures + 1
    ensures !AuthAttempt(s, proxyChanged, env).after.running
  {
  }

  /** The purge confirmation is waited for only on a browser that has run
      before, the proxy confirmation only when the distributor used a proxy;
      past the purge step `first_run` is false. */
  lemma Confirmations(s: AuthState, proxyChanged: bool, env: AuthEnv)
    ensures AuthBody(s.firstRun, proxyChanged, env).purgeAwaited ==> !s.firstRun && env.purgePending
    ensures AuthBody(s.firstRun, proxyChanged, env).proxyAwaited ==> proxyChanged && env.usedProxy
    ensures !env.startFails && env.fault != Some(Setup) && !(proxyChanged && env.fault == Some(ProxyChange))
            ==> !AuthAttempt(s, proxyChanged, env).after.firstRun
  {
  }

  /** The loop does not look at the confirmations. */
  lemma {:induction false} ReloadIgnoresConfirmations(env: AuthEnv, k: nat, p: bool, q: bool)
    requires k <= MaxReloadChecks
    ensures ReloadFrom(env, k) == ReloadFrom(env.(proxyConfirmed := p, purgeConfirmed := q), k)
    decreases MaxReloadChecks - k
  {
    if k < MaxReloadChecks {
      ReloadIgnoresConfirmations(env, k + 1, p, q);
    }
  }

  /** A confirmation that times out never changes the outcome. */
  lemma ConfirmationTimeoutsAreHarmless(s: AuthState, proxyChanged: bool, env: AuthEnv, p: bool, q: bool)
    ensures AuthAttempt(s, proxyChanged, env) ==
            AuthAttempt(s, proxyChanged, env.(proxyConfirmed := p, purgeConfirmed := q))
  {
    var env' := env.(proxyConfirmed := p, purgeConfirmed := q);
    ReloadIgnoresConfirmations(env, 0, p, q);
    assert AfterPurge(env) == AfterPurge(env');
  }

  /** The failure counter only ever resets, stays, or grows by one. */
  lemma CounterSteps(s: AuthState, proxyChanged: bool, env: AuthEnv)
    ensures var f := AuthAttempt(s, proxyChanged, env).after.failures;
      f == 0 || f == s.failures || f == s.failures + 1
  {
  }

  // ---------------------------------------------------------------------------
  // The attempt, step by step

  /** The cookies of a successful attempt, tagged with the proxy they were
      obtained through. */
  datatype ReeseCookie = ReeseCookie(cookies: Cookies, proxy: Proxy)

  class BrowserAuth {
    const proxies: ProxyDistributor
    var firstRun: bool
    var consecutiveFailures: int
    var running: bool

    constructor (proxies: ProxyDistributor, firstRun: bool, consecutiveFailures: int)
      ensures this.proxies == proxies && this.firstRun == firstRun
      ensures this.consecutiveFailures == consecutiveFailures && !running
    {
      this.proxies := proxies;
      this.firstRun := firstRun;
      this.consecutiveFailures := consecutiveFailures;
      running := false;
    }

    /** The browser's state and the health of `proxy`. */
    ghost function State(proxy: Proxy): AuthState
      reads this, proxy
    {
      AuthState(firstRun, consecutiveFailures, running, proxy.rateLimits)
    }

    /** The proxy the attempt uses is `next_proxy` as read at entry. */
    method GetReeseCookie(proxyChanged: bool, env: AuthEnv) returns (cookie: Option<ReeseCookie>)
      modifies this, proxies.nextProxy
      ensures var proxy := old(proxies.nextProxy);
        var step := AuthAttempt(old(State(proxy)), proxyChanged, env);
        && State(proxy) == step.after
        && proxy.invalidated == old(proxy.invalidated)
        && cookie == match step.cookies
             case Some(c) => Some(ReeseCookie(c, proxy))
             case None => None
    {
      var proxy := proxies.nextProxy;
      if env.startFails {
        return None;
      }
      running := true;
      var result, _, _ := Challenge(proxy, proxyChanged, env);
      match result
      case Ok(c) =>
        consecutiveFailures := 0;
        cookie := Some(ReeseCookie(c, proxy));
      case Err(Login(_)) =>
        consecutiveFailures := consecutiveFailures + 1;
        cookie := None;
      case Err(ProxyFailure(_)) =>
        proxy.RateLimited();
        running := false;
        cookie := None;
      case Err(Unexpected(_)) =>
        consecutiveFailures := consecutiveFailures + 1;
        running := false;
        cookie := None;
    }

    /** The body of the `try`: every stage up to reading the cookies. */
    method Challenge(proxy: Proxy, proxyChanged: bool, env: AuthEnv)
      returns (result: Result<Cookies, Failure<Stage>>, ghost proxyAwaited: bool, ghost purgeAwaited: bool)
      modifies this`firstRun, proxy
      ensures var run := AuthBody(old(firstRun), proxyChanged, env);
        && result == run.result
        && proxyAwaited == run.proxyAwaited && purgeAwaited == run.purgeAwaited
        && firstRun == (old(firstRun) && !run.firstRunCleared)
        && proxy.rateLimits == old(proxy.rateLimits) + run.rateLimits
        && proxy.invalidated == old(proxy.invalidated)
    {
      proxyAwaited, purgeAwaited := false, false;
      if env.fault == Some(Setup) {
        result := Err(Unexpected(Setup));
        return;
      }
      if proxyChanged {
        var waited := ChangeProxy(env);
        if waited.None? {
          result := Err(Unexpected(ProxyChange));
          return;
        }
        proxyAwaited := waited.value;
      }
      if !firstRun && env.purgePending {
        // Waits up to 2 s for the purge confirmation; a timeout is only logged.
        purgeAwaited := true;
      }
      firstRun := false;
      result := OpenPage(proxy, env);
    }

    /** The stages after `first_run = False`: restoring the cookies, loading the
        page, the Imperva check, the JS challenge and the reload loop. */
    method OpenPage(proxy: Proxy, env: AuthEnv) returns (result: Result<Cookies, Failure<Stage>>)
      modifies proxy
      ensures result == AfterPurge(env).result
      ensures proxy.rateLimits == old(proxy.rateLimits) + AfterPurge(env).rateLimits
      ensures proxy.invalidated == old(proxy.invalidated)
    {
      if env.fault == Some(CookieRestore) {
        return Err(Unexpected(CookieRestore));
      }
      if env.fault == Some(Navigate) {
        return Err(Unexpected(Navigate));
      }
      if env.page.TimedOut? {
        return Err(ProxyFailure(PageTimeout));
      }
      var html := env.page.html;
      if MentionsIgnoringCase(html, NetErrorMarker) {
        return Err(ProxyFailure(NetError));
      }
      var error := env.imperva(html);
      if !Proceeds(error.code) {
        proxy.RateLimited();
        return Err(Login(Blocked(error)));
      }
      // A challenge not yet done is waited for up to 100 s.
      if env.js == TimesOut {
        return Err(Login(JsChallengeTimeout));
      }
      if env.fault == Some(ChallengeReload) {
        return Err(Unexpected(ChallengeReload));
      }
      var verdict := AwaitReload(proxy, env);
      match verdict
      case Rendered(_) =>
        if env.fault == Some(CookieRead) {
          return Err(Unexpected(CookieRead));
        }
        result := Ok(env.cookies);
      case Rejected(_, e) =>
        result := Err(Login(ReloadBlocked(e)));
      case GaveUp =>
        result := Err(Login(ReloadTimeout));
      case Faulted(a) =>
        result := Err(Unexpected(ReloadCheck(a)));
    }

    /** `change_proxy`: whether it waited for the extension's confirmation,
        or `None` when the call raised. */
    method ChangeProxy(env: AuthEnv) returns (waited: Option<bool>)
      ensures waited.None? <==> env.fault == Some(ProxyChange)
      ensures waited.Some? ==> (waited.value <==> env.usedProxy)
    {
      if env.fault == Some(ProxyChange) {
        return None;
      }
      waited := Some(false);
      if env.usedProxy {
        // Waits up to 2 s for the proxy-change confirmation; a timeout is only logged.
        waited := Some(true);
      }
    }

    /** The reload-confirmation loop. */
    method AwaitReload(proxy: Proxy, env: AuthEnv) returns (verdict: ReloadVerdict)
      modifies proxy
      ensures verdict == Reload(env)
      ensures proxy.rateLimits == old(proxy.rateLimits) + LoopRateLimits(verdict)
      ensures proxy.invalidated == old(proxy.invalidated)
    {
      var attempts := 0;
      var finished := false;
      while attempts < MaxReloadChecks && !finished
        invariant 0 <= attempts <= MaxReloadChecks
        invariant finished ==> 0 < attempts && Reload(env) == Rendered(attempts - 1)
        invariant !finished ==> Reload(env) == ReloadFrom(env, attempts)
        invariant proxy.rateLimits == old(proxy.rateLimits) + if finished then attempts - 1 else attempts
        invariant proxy.invalidated == old(proxy.invalidated)
      {
        attempts := attempts + 1;
        if env.fault == Some(ReloadCheck(attempts - 1)) {
          return Faulted(attempts - 1);
        }
        var html := env.reloads(attempts - 1);
        if !MentionsIgnoringCase(html, LoginMarker) {
          proxy.RateLimited();
          var error := env.imperva(html);
          if error.code != UnknownCode {
            return Rejected(attempts - 1, error);
          }
          // Sleeps half a second before the next iteration.
        } else {
          finished := true;
        }
      }
      if !finished {
        return GaveUp;
      }
      verdict := Rendered(attempts - 1);
    }
  }
}
