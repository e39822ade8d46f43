/**
 * `RestStrategy` of src/strategies/rest-strategy.ts, the single-package
 * version: one token in sessionStorage, every endpoint required, the
 * module-wide shared StrategyHelper, and a sign-out that empties all of
 * sessionStorage.
 */
module LegacyRestStrategies {
  import opened Common
  import opened Errors
  import opened Storages
  import opened Helpers
  import opened Http
  import opened RefreshSlots

  const DEFAULT_NAME := "rest"
  const DEFAULT_TOKEN_KEY := "access"

  /** The five endpoints, none optional in this version. */
  datatype Urls = Urls(check: UrlConfig, signIn: UrlConfig, signUp: UrlConfig, signOut: UrlConfig, refresh: UrlConfig)

  datatype Config = Config(name: Option<string>, tokenKey: Option<string>, signInUrl: Option<string>,
                           getToken: Option<Getter>, urls: Urls)

  /** Both storage areas and the shared helper's `isAuthenticated`. */
  datatype LegacyState = LegacyState(stores: Stores, isAuthenticated: bool)

  /** `setAuthParams(token)`: the token in sessionStorage, the name in localStorage. */
  function AfterAuthParams(s: LegacyState, name: string, tokenKey: string, token: string): LegacyState {
    LegacyState(Stores(WithActiveName(s.stores.local, name), s.stores.session[tokenKey := token]), true)
  }

  /** `clearAuthData`: sessionStorage emptied, then the helper reset. */
  function AfterClearAuthData(s: LegacyState): LegacyState {
    LegacyState(Stores(s.stores.local - {TYPE_KEY}, map[]), false)
  }

  /** After `setAuthParams` the token reads back, the strategy is active and the start URL is as before. */
  lemma AuthParamsStore(s: LegacyState, name: string, tokenKey: string, token: string, origin: string)
    ensures var r := AfterAuthParams(s, name, tokenKey, token);
            && r.stores.Get(SessionStorage, tokenKey) == Some(token)
            && ActiveNameIn(r.stores.local) == name
            && StartUrlIn(r.stores.local, origin) == StartUrlIn(s.stores.local, origin)
            && r.isAuthenticated
            && (forall k :: k != tokenKey ==> r.stores.Get(SessionStorage, k) == s.stores.Get(SessionStorage, k))
  {
  }

  /**
   * Signing out forgets more than the token: every sessionStorage key goes,
   * including those of other strategies, while localStorage keeps all but
   * the active name.
   */
  lemma ClearAuthDataWipesSession(s: LegacyState, tokenKey: string, other: string, origin: string)
    ensures var r := AfterClearAuthData(s);
            && r.stores.Get(SessionStorage, tokenKey) == None
            && r.stores.Get(SessionStorage, other) == None
            && ActiveNameIn(r.stores.local) == ""
            && StartUrlIn(r.stores.local, origin) == StartUrlIn(s.stores.local, origin)
            && !r.isAuthenticated
            && AfterClearAuthData(r) == r
  {
  }

  datatype RefreshCall = Skipped | Joined | Sent(endpoint: UrlConfig)

  class RestStrategy {
    const name: string
    const tokenKey: string
    const getToken: Option<Getter>
    const urls: Urls
    var signInUrl: Option<string>
    const browser: Browser
    /** The shared `strategyHelper`, passed in because every strategy holds the same one. */
    const helper: StrategyHelper
    const slot: RefreshSlot

    ghost predicate Valid()
      reads slot
    {
      && browser.Valid()
      && helper.store == browser.localStorage
      && slot.Valid()
      && (slot.issued > 0 ==> urls.refresh.url != "")
      && name != ""
    }

    constructor (config: Config, browser: Browser, helper: StrategyHelper)
      requires browser.Valid() && helper.store == browser.localStorage
      ensures Valid() && fresh(slot) && !slot.pending
      ensures name == if Truthy(config.name) then config.name.value else DEFAULT_NAME
      ensures tokenKey == if Truthy(config.tokenKey) then config.tokenKey.value else DEFAULT_TOKEN_KEY
      ensures getToken == config.getToken && signInUrl == config.signInUrl && urls == config.urls
      ensures this.browser == browser && this.helper == helper
    {
      name := if Truthy(config.name) then config.name.value else DEFAULT_NAME;
      tokenKey := if Truthy(config.tokenKey) then config.tokenKey.value else DEFAULT_TOKEN_KEY;
      getToken := config.getToken;
      signInUrl := config.signInUrl;
      urls := config.urls;
      this.browser := browser;
      this.helper := helper;
      slot := new RefreshSlot();
    }

    function State(): LegacyState
      reads browser.localStorage, browser.sessionStorage, helper
    {
      LegacyState(browser.Snapshot(), helper.isAuthenticated)
    }

    function Token(): Option<string>
      reads browser.sessionStorage
    {
      browser.sessionStorage.GetItem(tokenKey)
    }

    method SetToken(token: string)
      modifies browser.sessionStorage
      ensures Token() == Some(token)
      ensures browser.sessionStorage.items == old(browser.sessionStorage.items)[tokenKey := token]
    {
      browser.sessionStorage.SetItem(tokenKey, token);
    }

    function IsAuthenticated(): bool
      reads helper
    {
      helper.isAuthenticated
    }

    function StartUrl(): string
      reads helper.store
    {
      helper.StartUrl()
    }

    method SetStartUrl(url: Option<string>)
      requires Valid()
      modifies browser.localStorage
      ensures browser.localStorage.items == WithStartUrl(old(browser.localStorage.items), url)
      ensures StartUrl() == if Truthy(url) then url.value else helper.origin
    {
      helper.SetStartUrl(url);
    }

    method SetAuthParams(token: string)
      requires Valid()
      modifies browser.sessionStorage, browser.localStorage, helper
      ensures State() == AfterAuthParams(old(State()), name, tokenKey, token)
    {
      browser.sessionStorage.SetItem(tokenKey, token);
      helper.SetActiveStrategyName(name);
      helper.isAuthenticated := true;
    }

    method ClearAuthData()
      requires Valid()
      modifies browser.sessionStorage, browser.localStorage, helper
      ensures State() == AfterClearAuthData(old(State()))
    {
      browser.sessionStorage.Clear();
      helper.Reset();
    }

    /** The state after a successful exchange that returned `response` from `url`. */
    function Exchanged(s: LegacyState, response: Response, url: string): LegacyState {
      var token := ExtractToken(getToken, response, url);
      if token != "" then AfterAuthParams(s, name, tokenKey, token) else s
    }

    /** `check`: no stored token means `false` without a request; otherwise the reply decides. */
    method Check(reply: Reply) returns (r: Result<bool, Thrown>, requested: bool)
      requires Valid()
      modifies browser.sessionStorage, browser.localStorage, helper
      ensures requested == Truthy(old(Token()))
      ensures !requested ==> r == Ok(false) && State() == old(State())
      ensures requested && reply.Rejects? ==> r == Err(Raw(reply.reason)) && State() == old(State())
      ensures requested && reply.Replied? ==>
                && r == Ok(ExtractToken(getToken, reply.response, urls.check.url) != "")
                && State() == Exchanged(old(State()), reply.response, urls.check.url)
    {
      if !Truthy(Token()) {
        return Ok(false), false;
      }
      requested := true;
      match reply
      case Rejects(reason) =>
        r := Err(Raw(reason));
      case Replied(response) =>
        var token := ExtractToken(getToken, response, urls.check.url);
        if token != "" {
          helper.SetActiveStrategyName(name);
          SetAuthParams(token);
        }
        r := Ok(token != "");
    }

    /** `signIn` and `signUp`: the response is returned; a truthy token is stored. */
    method Exchange(endpoint: UrlConfig, reply: Reply) returns (r: Result<Response, Thrown>)
      requires Valid()
      modifies browser.sessionStorage, browser.localStorage, helper
      ensures reply.Rejects? ==> r == Err(Raw(reply.reason)) && State() == old(State())
      ensures reply.Replied? ==> r == Ok(reply.response) && State() == Exchanged(old(State()), reply.response, endpoint.url)
    {
      match reply
      case Rejects(reason) =>
        r := Err(Raw(reason));
      case Replied(response) =>
        var token := ExtractToken(getToken, response, endpoint.url);
        if token != "" {
          SetAuthParams(token);
        }
        r := Ok(response);
    }

    method SignIn(reply: Reply) returns (r: Result<Response, Thrown>)
      requires Valid()
      modifies browser.sessionStorage, browser.localStorage, helper
      ensures reply.Rejects? ==> r == Err(Raw(reply.reason)) && State() == old(State())
      ensures reply.Replied? ==> r == Ok(reply.response) && State() == Exchanged(old(State()), reply.response, urls.signIn.url)
    {
      r := Exchange(urls.signIn, reply);
    }

    method SignUp(reply: Reply) returns (r: Result<Response, Thrown>)
      requires Valid()
      modifies browser.sessionStorage, browser.localStorage, helper
      ensures reply.Rejects? ==> r == Err(Raw(reply.reason)) && State() == old(State())
      ensures reply.Replied? ==> r == Ok(reply.response) && State() == Exchanged(old(State()), reply.response, urls.signUp.url)
    {
      r := Exchange(urls.signUp, reply);
    }

    /** `signOut`: an empty URL clears without a request; a rejected request leaves everything as it was. */
    method SignOut(reply: Reply) returns (r: Result<(), Thrown>, requested: bool)
      requires Valid()
      modifies browser.sessionStorage, browser.localStorage, helper
      ensures requested == (urls.signOut.url != "")
      ensures (!requested || reply.Replied?) ==> r == Ok(()) && State() == AfterClearAuthData(old(State()))
      ensures requested && reply.Rejects? ==> r == Err(Raw(reply.reason)) && State() == old(State())
    {
      if urls.signOut.url == "" {
        ClearAuthData();
        return Ok(()), false;
      }
      requested := true;
      match reply
      case Rejects(reason) =>
        r := Err(Raw(reason));
      case Replied(_) =>
        ClearAuthData();
        r := Ok(());
    }

    /** The synchronous part of `refreshToken`: return for an empty URL, await the filled slot, or fill it and send. */
    method RefreshToken() returns (c: RefreshCall)
      requires Valid()
      modifies slot
      ensures Valid()
      ensures urls.refresh.url == "" ==> c == Skipped && unchanged(slot)
      ensures urls.refresh.url != "" ==>
                slot.pending && (c == Joined <==> old(slot.pending)) && (c == Sent(urls.refresh) <==> !old(slot.pending))
      ensures c == Joined ==> slot.waiters == old(slot.waiters) + 1 && slot.issued == old(slot.issued)
      ensures c.Sent? ==> slot.Outstanding() && slot.issued == old(slot.issued) + 1 && slot.waiters == 0
    {
      if urls.refresh.url == "" {
        return Skipped;
      }
      var joined := slot.Enter();
      c := if joined then Joined else Sent(urls.refresh);
    }

    /** The refresh request settles: as in the packaged strategy, a failure leaves the slot filled. */
    method CompleteRefresh(reply: Reply) returns (r: Result<nat, Thrown>)
      requires Valid() && slot.Outstanding()
      modifies browser.sessionStorage, browser.localStorage, helper, slot
      ensures Valid() && !slot.Outstanding()
      ensures reply.Replied? ==>
                && r == Ok(old(slot.waiters)) && !slot.pending && slot.waiters == 0
                && State() == Exchanged(old(State()), reply.response, urls.refresh.url)
      ensures reply.Rejects? ==>
                && r == Err(Raw(reply.reason)) && slot.pending && slot.waiters == old(slot.waiters)
                && State() == old(State())
    {
      match reply
      case Rejects(reason) =>
        slot.Fail();
        r := Err(Raw(reason));
      case Replied(response) =>
        var token := ExtractToken(getToken, response, urls.refresh.url);
        if token != "" {
          SetAuthParams(token);
        }
        var released := slot.Succeed();
        r := Ok(released);
    }
  }
}
