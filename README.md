# Xilriws acquisition core, modelled in Dafny

Xilriws is a gateway that gets session cookies and CAPTCHA tokens from an
identity provider that sits behind Imperva and reCAPTCHA. It does this by
driving a real browser through a proxy. This project models the logic that
decides how one acquisition attempt ends, and the two request handlers built
on top of it:

- **Auth-mode attempt** (`BrowserAuth.get_reese_cookie`, `change_proxy`).
  The stages run in a fixed order:
  1. start the browser;
  2. optionally switch proxy and wait for the extension to confirm;
  3. wait for the cookie-purge confirmation, when `first_run` is false and a purge is pending;
  4. load the login page, where a timeout or a "neterror" page is a proxy failure;
  5. classify the page's Imperva code: only "15" or "?" go on;
  6. wait for the JS challenge;
  7. reload and check the page up to ten times.

  Each way out has fixed effects on `consecutive_failures`, `first_run`, the
  proxy's health and whether the browser keeps running.
- **Join-mode attempt** (`BrowserJoin.get_join_tokens`). It has the same
  shape. The differences:
  - an unreachable page invalidates the proxy;
  - an unclassified exception does not count as a failure, though one raised while building the response follows the counter reset;
  - after the challenge it polls for the reCAPTCHA iframe or the Imperva
    error iframe, and the error iframe wins;
  - on success it returns a `CionResponse` with the tokens.
- **Login-code endpoint** (`auth_endpoint`, `activate_endpoint`). It maps
  the login outcome to a status name, an HTTP code and a login code.
- **Join broker and endpoint** (`PtcJoin.get_join_tokens`, `cion_endpoint`).
  The `is_running` flag is raised for the length of an attempt and always
  lowered afterwards. The endpoint answers 503 while the flag is up;
  otherwise it returns a list of zero or one bundle.

The browser, the extension and the proxy distributor are replaced by an
environment record (`AuthEnv`, `JoinEnv`). It says what each call answers:
- whether the call raises;
- whether a wait is confirmed or times out;
- the page contents.

Imperva code extraction (`ptc_utils.get_imperva_error_code`) is a function
value that the model uses without interpreting it.

Each attempt is written twice:
- as a function (`AuthBody`/`AuthAttempt`, `JoinBody`/`JoinAttempt`) that
  says what the attempt computes;
- as a class (`BrowserAuth`, `BrowserJoin`) with the source's fields, whose
  methods run the stages step by step, loops included, and prove that they
  agree with the function.

The properties are lemmas about the functions.

Files: `text.dfy` (lower-casing and substring search), `common.dfy` (shared
types, `Proxy`, `ProxyDistributor`), `browser_auth.dfy`, `browser_join.dfy`,
`auth_mode.dfy`, `ptc_join.dfy`, `cion_mode.dfy`.

### Behaviour worth noting

- An auth-mode first page whose Imperva code is not "15" or "?" raises a
  `LoginException`, but it calls `proxy.rate_limited()` first
  (xilriws/browser/browser_auth.py:70). So this login failure changes proxy
  health. So does every reload iteration without "log in"
  (xilriws/browser/browser_auth.py:100).
- In join mode an unclassified exception does not add to the failure counter
  (xilriws/browser/browser_join.py:140-145). In auth mode it adds one
  (xilriws/browser/browser_auth.py:134).
- Join mode resets the counter (xilriws/browser/browser_join.py:121) before it
  builds the response. A token value without "create" or "activate" raises
  only then (lines 125-126). So that attempt ends with the counter at 0, the
  browser stopped and no response.
- Join mode always waits for the proxy-change confirmation. Auth mode waits
  only when a proxy change was requested and the distributor used a proxy.

## Model

| member | source | states |
|---|---|---|
| `Text.Lower` | xilriws/browser/browser_auth.py:65 | `str.lower()`: same length, each character lowered, no upper-case ASCII letter left |
| `Text.ContainsIffOccurs` | xilriws/browser/browser_auth.py:65 | the substring test `needle in s` holds exactly when `needle` occurs at some position of `s` |
| `Text.OccurrenceSurvivesLowering` | xilriws/browser/browser_auth.py:98 | a marker present in any letter case is found in the lowered page, so the markers are matched case-insensitively |
| `Common.Proxy.RateLimited` | xilriws/browser/browser_auth.py:70 | each call adds one to the proxy's count of `rate_limited()` calls and changes nothing else |
| `Common.Proxy.Invalidate` | xilriws/browser/browser_join.py:136 | marks the proxy invalidated and keeps its count of `rate_limited()` calls |
| `AuthBrowser.ReloadFromMeaning` | xilriws/browser/browser_auth.py:88-111 | page by page, the loop stops at the first iteration that raises, renders "log in" or shows a code other than "?"; every earlier iteration showed "?" without "log in"; giving up means ten such iterations |
| `AuthBrowser.SkipTransient` | xilriws/browser/browser_auth.py:98-105 | an iteration with a "?" page and no "log in" hands control to the next iteration unchanged |
| `AuthBrowser.ReloadBounded` | xilriws/browser/browser_auth.py:90 | the loop runs at most 10 iterations |
| `AuthBrowser.ReloadRenderedIff` | xilriws/browser/browser_auth.py:97-108 | the loop succeeds at iteration a exactly when page a contains "log in" (any case) and every earlier page was a "?" page |
| `AuthBrowser.ReloadRejectedIff` | xilriws/browser/browser_auth.py:98-103 | the loop fails at iteration a exactly when page a lacks "log in" and has a code other than "?", and every earlier page was a "?" page |
| `AuthBrowser.ReloadGaveUpIff` | xilriws/browser/browser_auth.py:110-111 | the loop ends with "Timed out while waiting for reload to finish" exactly when all ten pages were "?" pages |
| `AuthBrowser.CountLackingAll` | xilriws/browser/browser_auth.py:98-100 | when none of the first n pages has "log in", all n of them are counted as lacking it |
| `AuthBrowser.LoopRateLimitsCountLackingPages` | xilriws/browser/browser_auth.py:98-100 | the loop calls `rate_limited()` once for every page it read without "log in", including the pages before a success, and for no other page |
| `AuthBrowser.ReloadFrom` | xilriws/browser/browser_auth.py:88-111 | defines the reload loop's verdict from iteration k on: the first iteration that raises, renders "log in" or shows a code other than "?" ends it, and after ten iterations it gives up; its meaning is `ReloadFromMeaning` |
| `AuthBrowser.AfterPurge` | xilriws/browser/browser_auth.py:50-117 | defines the stages after `first_run = False` in source order; every run through them has cleared `first_run` and waited for no confirmation |
| `AuthBrowser.AuthBody` | xilriws/browser/browser_auth.py:34-117 | defines the body of the `try`: setup, optional proxy change, purge wait, then `AfterPurge` |
| `AuthBrowser.AuthAttempt` | xilriws/browser/browser_auth.py:25-136 | defines `get_reese_cookie` with its handlers: a start failure changes nothing; success resets the counter; a login failure adds one; a proxy failure rate-limits the proxy and stops the browser; any other exception adds one and stops the browser |
| `AuthBrowser.StartFailureChangesNothing` | xilriws/browser/browser_auth.py:28-32 | if the browser cannot start, the attempt returns None; the counter, `first_run`, proxy health and the running browser are untouched |
| `AuthBrowser.ProxyFailureIff` | xilriws/browser/browser_auth.py:59-66 | the attempt is a proxy failure exactly when it reaches the page load and the page times out or contains "neterror" in any case |
| `AuthBrowser.ProxyFailureEffects` | xilriws/browser/browser_auth.py:122-127 | a proxy failure rate-limits the proxy once, stops the browser, clears `first_run`, keeps the counter and returns None |
| `AuthBrowser.ImpervaRejection` | xilriws/browser/browser_auth.py:68-71 | a first-page code other than "15" or "?" rate-limits the proxy once, adds exactly 1 to the counter, keeps the browser running and returns None |
| `AuthBrowser.JsChallengeTimeoutEffects` | xilriws/browser/browser_auth.py:74-81 | a JS challenge that times out adds 1 to the counter, keeps the browser and leaves the proxy alone |
| `AuthBrowser.ReloadEffects` | xilriws/browser/browser_auth.py:88-121 | for each verdict of the reload loop, the new state: on success the counter is 0 and the proxy was rate-limited once per earlier page; rejection adds one more rate-limit; giving up adds ten; each failure adds 1 to the counter |
| `AuthBrowser.SuccessIff` | xilriws/browser/browser_auth.py:113-117 | cookies come back exactly when the loop rendered the page and the cookies could be read; then they are the browser's cookies, the counter is 0 and the browser runs |
| `AuthBrowser.UnexpectedEffects` | xilriws/browser/browser_auth.py:128-136 | an unclassified exception after the start adds 1 to the counter, stops the browser and returns None |
| `AuthBrowser.Confirmations` | xilriws/browser/browser_auth.py:42-48 | the purge confirmation is awaited only when `first_run` was false and a purge is pending; the proxy confirmation only when a change was requested and the distributor used a proxy; once the purge step is reached, `first_run` is false |
| `AuthBrowser.ReloadIgnoresConfirmations` | xilriws/browser/browser_auth.py:88-111 | the reload loop's verdict is the same whether or not the confirmations arrived |
| `AuthBrowser.ConfirmationTimeoutsAreHarmless` | xilriws/browser/browser_auth.py:43-46 | changing whether either confirmation arrives in time changes nothing in the attempt's outcome or effects |
| `AuthBrowser.CounterSteps` | xilriws/browser/browser_auth.py:116-134 | one attempt either resets the counter to 0, keeps it, or adds exactly 1 |
| `AuthBrowser.BrowserAuth.GetReeseCookie` | xilriws/browser/browser_auth.py:25-136 | the attempt uses the proxy read from `next_proxy` at entry; the new `first_run`, counter and running flag, and that proxy's health, are exactly those `AuthAttempt` gives; the cookie is returned tagged with that proxy; the proxy is never invalidated |
| `AuthBrowser.BrowserAuth.Challenge` | xilriws/browser/browser_auth.py:34-117 | the body of the `try` returns `AuthBody`'s result; it waits for the proxy and purge confirmations exactly when `AuthBody` says so; it clears `first_run` exactly when the purge step is reached; it rate-limits the proxy as often as `AuthBody` counts and never invalidates it |
| `AuthBrowser.BrowserAuth.OpenPage` | xilriws/browser/browser_auth.py:50-111 | from the cookie restore to the reload loop, the result and the number of `rate_limited()` calls are those `AfterPurge` gives; the proxy is never invalidated |
| `AuthBrowser.BrowserAuth.ChangeProxy` | xilriws/browser/browser_auth.py:138-147 | `change_proxy` raises only on a driver error; otherwise it reports a wait for the confirmation exactly when the distributor used a proxy |
| `AuthBrowser.BrowserAuth.AwaitReload` | xilriws/browser/browser_auth.py:88-111 | the while loop's verdict is `Reload(env)` and the proxy gains exactly one rate-limit per page without "log in" |
| `JoinBrowser.PollFrom` | xilriws/browser/browser_join.py:91-97 | defines the polling verdict from round k on: the first round that raises or finds an iframe ends it, and the deadline ends it with nothing found; its meaning is `PollFromMeaning` |
| `JoinBrowser.AfterPolling` | xilriws/browser/browser_join.py:99-129 | defines what the iframes decide: the error iframe first, then a missing CAPTCHA, then the tokens |
| `JoinBrowser.AfterPurge` | xilriws/browser/browser_join.py:73-129 | defines the stages after `first_run = False` in source order |
| `JoinBrowser.JoinBody` | xilriws/browser/browser_join.py:40-129 | defines the body of the `try`: setup, proxy wait, purge wait, then `AfterPurge` |
| `JoinBrowser.JoinAttempt` | xilriws/browser/browser_join.py:34-145 | defines `get_join_tokens` with its handlers: a start failure changes nothing; the body resets the counter once the tokens and cookies are read; a login failure adds one; a proxy failure invalidates the proxy and stops the browser; any other exception stops the browser and keeps the counter as the body left it |
| `JoinBrowser.PollFromMeaning` | xilriws/browser/browser_join.py:91-97 | polling stops at the first round that raises or finds either iframe; every earlier round found neither; polling gives up at the deadline only after all rounds found neither |
| `JoinBrowser.SkipEmpty` | xilriws/browser/browser_join.py:95-97 | a round that found neither iframe hands control to the next round unchanged |
| `JoinBrowser.SeenIff` | xilriws/browser/browser_join.py:95-97 | polling stops with a find at round a exactly when round a found an iframe and all earlier rounds found none |
| `JoinBrowser.UnseenIff` | xilriws/browser/browser_join.py:95 | the deadline passes with nothing found exactly when every round before it found neither iframe |
| `JoinBrowser.StartFailureChangesNothing` | xilriws/browser/browser_join.py:35-38 | if the browser cannot start, the attempt returns None with no other effect |
| `JoinBrowser.NetErrorEffects` | xilriws/browser/browser_join.py:77-79 | a "neterror" page (any case) invalidates the proxy, stops the browser, keeps the counter and the proxy's cooldowns, returns None |
| `JoinBrowser.InvalidatedOnlyOnNetError` | xilriws/browser/browser_join.py:135-139 | a join attempt invalidates the proxy only through a "neterror" page and never rate-limits it |
| `JoinBrowser.JsChallengeTimeoutEffects` | xilriws/browser/browser_join.py:81-86 | a JS challenge timeout adds 1 to the counter, keeps the browser running and returns None |
| `JoinBrowser.ErrorFrameWins` | xilriws/browser/browser_join.py:99-102 | when the error iframe was found, the attempt fails with its Imperva code, even if the CAPTCHA iframe was found in the same round |
| `JoinBrowser.CaptchaTimeoutIff` | xilriws/browser/browser_join.py:104-105 | after the challenge, the attempt fails with "Timeout waiting for captcha" exactly when no round before the deadline found either iframe |
| `JoinBrowser.SuccessIff` | xilriws/browser/browser_join.py:117-129 | tokens come back exactly when the CAPTCHA iframe alone was found and the tokens were read; the response holds the cookies, the "create" and "activate" lists, the timestamp taken before navigation and the proxy's URL; the counter is 0 |
| `JoinBrowser.UnexpectedEffects` | xilriws/browser/browser_join.py:140-145 | an unclassified exception raised before the counter reset stops the browser and leaves the counter and the proxy's health untouched |
| `JoinBrowser.TokenFieldsEffects` | xilriws/browser/browser_join.py:121-129 | building the response fails exactly when the tokens were read but lack "create" or "activate"; that attempt ends with the counter at 0, the browser stopped and no response; it is the only failure that leaves a positive counter at 0 |
| `JoinBrowser.CounterSteps` | xilriws/browser/browser_join.py:121-134 | one attempt either resets the counter to 0, keeps it, or adds exactly 1 |
| `JoinBrowser.FirstRunCleared` | xilriws/browser/browser_join.py:60-71 | once the start and the setup succeed, `first_run` is false; the purge confirmation is awaited only when `first_run` was false; the proxy confirmation is awaited on every attempt past the setup |
| `JoinBrowser.PollingIgnoresConfirmations` | xilriws/browser/browser_join.py:91-97 | the polling verdict is the same whether or not the confirmations arrived |
| `JoinBrowser.ConfirmationTimeoutsAreHarmless` | xilriws/browser/browser_join.py:60-69 | a confirmation timing out never changes the outcome or the effects |
| `JoinBrowser.BrowserJoin.GetJoinTokens` | xilriws/browser/browser_join.py:34-145 | the new `first_run`, counter, running flag and proxy health, and the response, are exactly those `JoinAttempt` gives |
| `JoinBrowser.BrowserJoin.Challenge` | xilriws/browser/browser_join.py:40-129 | the body of the `try` returns `JoinBody`'s result; it waits for the proxy confirmation exactly when the setup succeeded, and for the purge confirmation exactly when `JoinBody` says so; it clears `first_run` exactly when the setup succeeded; it sets the counter to 0 exactly when it got past the reset |
| `JoinBrowser.BrowserJoin.OpenPage` | xilriws/browser/browser_join.py:73-129 | from the page load to the tokens, the result is the one `AfterPurge` gives, and the counter is 0 exactly when the reset was reached |
| `JoinBrowser.BrowserJoin.AwaitFrames` | xilriws/browser/browser_join.py:91-97 | the while loop's verdict is `Polling(env)` |
| `AuthMode.Classify` | xilriws/mode/auth_mode.py:53-78 | the status is SUCCESS exactly when a login code came back; otherwise it is the first `except` clause, in source order, that the exception is an instance of, with ERROR for the catch-all |
| `AuthMode.AuthEndpoint` | xilriws/mode/auth_mode.py:52-78 | a login code gives SUCCESS/200 with that code; InvalidCredentials gives INVALID/400 and PtcBanned gives BANNED/418, both before LoginException; LoginException gives ERROR/500; a timeout gives TIMEOUT/408; any other exception gives ERROR/500; every failure has an empty login code |
| `AuthMode.StatusesDistinct` | xilriws/mode/auth_mode.py:37-42 | the five status names are distinct, and so are their HTTP codes |
| `AuthMode.ResponseHasOneStatus` | xilriws/mode/auth_mode.py:45-78 | every response carries exactly one of the five status names with that status's HTTP code, and only a success has a login code |
| `AuthMode.ActivateEndpoint` | xilriws/mode/auth_mode.py:100-102 | whatever the request, the answer is NO_OPEN_ACTIVATION with no username, email or password |
| `PtcJoinBroker.PtcJoin.constructor` | xilriws/ptc_join.py:14-18 | a new broker has no responses, the given last-call time, and `is_running` false |
| `PtcJoinBroker.PtcJoin.GetJoinTokens` | xilriws/ptc_join.py:20-31 | `is_running` is true when the browser attempt is invoked and false on every way out; the browser's result is returned unchanged; a raising `Proxy(...)` gives None; `responses` and `last_cion_call` are untouched |
| `CionMode.CionReplyFor` | xilriws/mode/cion_mode.py:26-41 | 503 exactly when busy; otherwise a raising attempt gives 500, a bundle gives a one-element list and None gives an empty list |
| `CionMode.BusyIgnoresAttempt` | xilriws/mode/cion_mode.py:27-28 | a busy handler's answer does not depend on the attempt |
| `CionMode.ReplyListsAtMostOne` | xilriws/mode/cion_mode.py:31-36 | a list reply has 0 or 1 elements, and it is empty exactly when the attempt returned None |
| `CionMode.CionEndpoint` | xilriws/mode/cion_mode.py:26-41 | `responses` and `last_cion_call` are never changed; while `is_running` is set: 503, and nothing is changed or called; otherwise the broker runs once, its flag ends lowered, the browser's `first_run`, counter and running flag are those `JoinAttempt` gives, and the reply is a list of at most one bundle; it is never a 500, because the broker never raises |

## Left out

- Lower-casing covers ASCII letters only; Python's Unicode `str.lower()` is not modelled.
- Waits, timeouts, sleeps and the clock are not modelled as time:
  - every wait is a boolean "confirmed / timed out";
  - the 0.5 s and 1 s sleeps are not modelled;
  - join mode's 100 s polling deadline is the number of rounds that start before it (the length of `polls`);
  - `int(time.time())` is an input.
- All browser calls are inputs: navigation, `get_content`, `reload`, `query_selector`, the two script evaluations, the promise, and the cookie calls. Their payloads (the recaptcha and load scripts) are not modelled. A call that raises is named by `fault`.
- Restoring `last_cookies` is modelled only as a step that may raise. The cookie values it sets are not modelled.
- `ptc_utils.get_imperva_error_code` is not part of this model. It is an uninterpreted function value.
- The internals of `Proxy`, `ProxyDistributor`, `ProxyDispenser`, `ReeseCookie`, `PtcAuth` and `CookieMonster` are not part of this model:
  - proxy health is the number of `rate_limited()` calls plus the `invalidate()` flag;
  - `proxies.change_proxy()` is reduced to whether it used a proxy;
  - proxy selection is not modelled;
  - `Proxy(...)` parsing is a function value that gives the URL or says the constructor raised;
  - `url` and `full_url.geturl()` are both `Proxy.url`.
- The `Browser` base class is not part of this model. `start_browser`/`stop_browser` are a running flag. The constructors of `BrowserAuth` and `BrowserJoin` take the initial `first_run` and counter as parameters.
- An exception raised by a handler, or by the trailing `stop_browser()` after the `try` statement, is not modelled. Without it `BrowserJoin.get_join_tokens` cannot raise, so the broker's `except` path is reached only through the `Proxy(...)` constructor.
- Concurrency is left out:
  - the check-then-act race on `is_running` across `await`;
  - task cancellation. A `CancelledError` is not an `Exception`, so it would skip the flag reset. The model is sequential.
- The HTTP framework is left out: litestar routing, dependency injection and the default status of a successful list or activation reply. Logging, message texts, `app.py` and the in-browser fingerprint scripts are left out as well.
- `AuthBrowser.BrowserAuth.ChangeProxy`: does not model the listener registration, or which proxy the distributor switches to. It states whether the call raised and whether it waited for the confirmation. So a change of `next_proxy` by the distributor is not modelled, and an attempt always uses the proxy it read at entry, as the source does.
