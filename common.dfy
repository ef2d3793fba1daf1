/** What both browser attempts share: the result wrappers, the cookie jar, the
    Imperva classification of a page, the exception taxonomy the attempts raise
    internally, and the proxy records whose health the attempts change. */
module Common {

  datatype Option<T> = None | Some(value: T)

  datatype Result<T, E> = Ok(value: T) | Err(error: E)

  /** The browser's cookies, name to value. */
  type Cookies = map<string, string>

  /** What `ptc_utils.get_imperva_error_code` extracts from a page: a code and a
      reason. The extraction itself is not part of this model: every attempt
      receives it as a function value of this type and uses it uninterpreted. */
  datatype ImpervaError = ImpervaError(code: string, reason: string)

  type ImpervaParser = string -> ImpervaError

  /** The "challenge issued" code and the "page not recognised" code. */
  const ChallengeCode: string := "15"
  const UnknownCode: string := "?"

  /** Codes on the first page that let an auth attempt go on to the JS challenge. */
  predicate Proceeds(code: string)
  {
    code == ChallengeCode || code == UnknownCode
  }

  /** Markers looked for in the lower-cased page. */
  const NetErrorMarker: string := "neterror"
  const LoginMarker: string := "log in"

  /** Why a `LoginException` was raised: the challenge logic rejected the attempt. */
  datatype LoginCause =
    | Blocked(error: ImpervaError)        // first page carries a code other than "15" or "?"
    | JsChallengeTimeout                  // "Timeout on JS challenge"
    | ReloadBlocked(error: ImpervaError)  // "Didn't pass JS check. Code ..."
    | ReloadTimeout                       // "Timed out while waiting for reload to finish"
    | ErrorFrame(error: ImpervaError)     // join mode: the Imperva error iframe appeared
    | CaptchaTimeout                      // join mode: "Timeout waiting for captcha"

  /** Why a `ProxyException` was raised: the page could not be reached. */
  datatype ProxyCause = PageTimeout | NetError

  /** The three kinds of exception an attempt's handlers tell apart; `Unexpected`
      records the stage whose browser call raised something else. */
  datatype Failure<Stage> =
    | Login(login: LoginCause)
    | ProxyFailure(proxy: ProxyCause)
    | Unexpected(stage: Stage)

  /** One upstream proxy. Its health is modelled by what the attempts do to it:
      how many times `rate_limited()` was called and whether `invalidate()` was. */
  class Proxy {
    const url: string
    var rateLimits: nat
    var invalidated: bool

    constructor (url: string)
      ensures this.url == url && rateLimits == 0 && !invalidated
    {
      this.url := url;
      rateLimits := 0;
      invalidated := false;
    }

    /** `proxy.rate_limited()`: one more cooldown, never an invalidation. */
    method RateLimited()
      modifies this
      ensures rateLimits == old(rateLimits) + 1 && invalidated == old(invalidated)
    {
      rateLimits := rateLimits + 1;
    }

    /** `proxy.invalidate()`: permanent exclusion; the cooldown count is untouched. */
    method Invalidate()
      modifies this
      ensures invalidated && rateLimits == old(rateLimits)
    {
      invalidated := true;
    }
  }

  /** The auth-mode distributor, reduced to the proxy it will hand out next. */
  class ProxyDistributor {
    var nextProxy: Proxy

    constructor (first: Proxy)
      ensures nextProxy == first
    {
      nextProxy := first;
    }
  }
}
