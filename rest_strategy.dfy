/**
 * `RestStrategy` of packages/rest/src/rest-strategy.ts: a token-based
 * strategy whose access token (and optional refresh token) live in a
 * configurable storage area, with its own StrategyHelper over localStorage
 * and one refresh slot. Each network call takes its awaited reply as an
 * argument and reports whether the request was sent.
 */
module RestStrategies {
  import opened Common
  import opened Errors
  import opened Storages
  import opened Helpers
  import opened Http
  import opened RefreshSlots

  const DEFAULT_NAME := "rest"
  const DEFAULT_ACCESS_KEY := "access"
  const DEFAULT_ACCESS_STORAGE := SessionStorage

  /** AccessTokenConfig / RefreshTokenConfig: where the token is kept and how to read it from a response. */
  datatype TokenConfig = TokenConfig(key: string, storage: StorageType, getToken: Option<Getter>)

  /** The endpoint entries of the configuration, each optional. */
  datatype Urls = Urls(checkAuth: Option<UrlConfig>, signIn: Option<UrlConfig>, signUp: Option<UrlConfig>,
                       signOut: Option<UrlConfig>, refresh: Option<UrlConfig>)

  datatype Config = Config(name: Option<string>, accessToken: Option<TokenConfig>, refreshToken: Option<TokenConfig>,
                           signInUrl: Option<string>, urls: Urls)

  /** The observable state of one instance: both storage areas and its helper's `isAuthenticated`. */
  datatype RestState = RestState(stores: Stores, isAuthenticated: bool)

  /** `extractRefreshToken`: the refresh getter's value when truthy. */
  function ExtractRefreshToken(refresh: Option<TokenConfig>, response: Response, url: string): (r: Option<string>)
    ensures r.Some? ==> r.value != ""
    ensures r.None? <==> refresh.None? || refresh.value.getToken.None? || refresh.value.getToken.value(response, url) == ""
    ensures r.Some? ==> refresh.Some? && refresh.value.getToken.Some? && r.value == refresh.value.getToken.value(response, url)
  {
    if refresh.None? || refresh.value.getToken.None? then None
    else
      var value := refresh.value.getToken.value(response, url);
      if value == "" then None else Some(value)
  }

  /** `setAuthParams(token, refreshTokenValue)` */
  function AfterAuthParams(s: RestState, name: string, access: TokenConfig, refresh: Option<TokenConfig>,
                           token: string, refreshValue: Option<string>): RestState {
    var st1 := s.stores.Set(access.storage, access.key, token);
    var st2 := if refresh.Some? && Truthy(refreshValue) then st1.Set(refresh.value.storage, refresh.value.key, refreshValue.value)
               else st1;
    RestState(st2.(local := WithActiveName(st2.local, name)), true)
  }

  /** `clear`: both token keys go, then the helper is reset. */
  function AfterClear(s: RestState, access: TokenConfig, refresh: Option<TokenConfig>): RestState {
    var st1 := s.stores.Remove(access.storage, access.key);
    var st2 := if refresh.Some? then st1.Remove(refresh.value.storage, refresh.value.key) else st1;
    RestState(st2.(local := st2.local - {TYPE_KEY}), false)
  }

  /** A token slot that is not one of the helper's two localStorage keys. */
  predicate OffHelperKeys(t: TokenConfig) {
    !(t.storage == LocalStorage && t.key in {TYPE_KEY, START_URL_KEY})
  }

  /** The token keys do not share a slot with each other or with the helper's keys. */
  predicate KeysApart(access: TokenConfig, refresh: Option<TokenConfig>) {
    && OffHelperKeys(access)
    && (refresh.Some? ==>
          && OffHelperKeys(refresh.value)
          && !(refresh.value.storage == access.storage && refresh.value.key == access.key))
  }

  /** After `setAuthParams`: the token is stored, the refresh token only when configured and truthy, the strategy is active. */
  lemma AuthParamsStore(s: RestState, name: string, access: TokenConfig, refresh: Option<TokenConfig>,
                        token: string, refreshValue: Option<string>)
    requires KeysApart(access, refresh)
    ensures var r := AfterAuthParams(s, name, access, refresh, token, refreshValue);
            && r.stores.Get(access.storage, access.key) == Some(token)
            && ActiveNameIn(r.stores.local) == name
            && r.isAuthenticated
            && (refresh.Some? ==>
                  r.stores.Get(refresh.value.storage, refresh.value.key) ==
                    (if Truthy(refreshValue) then refreshValue else s.stores.Get(refresh.value.storage, refresh.value.key)))
  {
    var st1 := s.stores.Set(access.storage, access.key, token);
    var st2 := if refresh.Some? && Truthy(refreshValue) then st1.Set(refresh.value.storage, refresh.value.key, refreshValue.value)
               else st1;
    assert st2.Get(access.storage, access.key) == Some(token);
    var fin := st2.(local := WithActiveName(st2.local, name));
    assert fin.Get(access.storage, access.key) == st2.Get(access.storage, access.key);
    if refresh.Some? {
      assert fin.Get(refresh.value.storage, refresh.value.key) == st2.Get(refresh.value.storage, refresh.value.key);
    }
  }

  /** After `clear`: no token, no refresh token when one is configured, no active name, not authenticated. */
  lemma ClearForgets(s: RestState, access: TokenConfig, refresh: Option<TokenConfig>, origin: string)
    requires KeysApart(access, refresh)
    ensures var r := AfterClear(s, access, refresh);
            && r.stores.Get(access.storage, access.key) == None
            && (refresh.Some? ==> r.stores.Get(refresh.value.storage, refresh.value.key) == None)
            && ActiveNameIn(r.stores.local) == ""
            && StartUrlIn(r.stores.local, origin) == StartUrlIn(s.stores.local, origin)
            && !r.isAuthenticated
  {
    var st1 := s.stores.Remove(access.storage, access.key);
    var st2 := if refresh.Some? then st1.Remove(refresh.value.storage, refresh.value.key) else st1;
    var fin := st2.(local := st2.local - {TYPE_KEY});
    assert fin.Get(access.storage, access.key) == st2.Get(access.storage, access.key);
    if refresh.Some? {
      assert fin.Get(refresh.value.storage, refresh.value.key) == st2.Get(refresh.value.storage, refresh.value.key);
    }
  }

  /** The possible first steps of a `refreshToken` call. */
  datatype RefreshCall = Refused(thrown: Thrown) | Skipped | Joined | Sent(endpoint: UrlConfig)

  class RestStrategy {
    const name: string
    const accessToken: TokenConfig
    const refreshTokenConfig: Option<TokenConfig>
    const urls: Urls
    var signInUrl: Option<string>
    const browser: Browser
    /** Its own `new StrategyHelper()`, over the shared localStorage. */
    const helper: StrategyHelper
    /** `currentRefresh` */
    const slot: RefreshSlot

    ghost predicate Valid()
      reads slot
    {
      && browser.Valid()
      && helper.store == browser.localStorage
      && slot.Valid()
      && (slot.issued > 0 ==> urls.refresh.Some? && urls.refresh.value.url != "")
      && name != ""
    }

    constructor (config: Config, browser: Browser, origin: string)
      requires browser.Valid()
      ensures Valid() && fresh(helper) && fresh(slot)
      ensures name == if Truthy(config.name) then config.name.value else DEFAULT_NAME
      ensures accessToken == config.accessToken.GetOr(TokenConfig(DEFAULT_ACCESS_KEY, DEFAULT_ACCESS_STORAGE, None))
      ensures refreshTokenConfig == config.refreshToken && signInUrl == config.signInUrl && urls == config.urls
      ensures this.browser == browser && !helper.isAuthenticated && !slot.pending
    {
      name := if Truthy(config.name) then config.name.value else DEFAULT_NAME;
      accessToken := config.accessToken.GetOr(TokenConfig(DEFAULT_ACCESS_KEY, DEFAULT_ACCESS_STORAGE, None));
      refreshTokenConfig := config.refreshToken;
      signInUrl := config.signInUrl;
      urls := config.urls;
      this.browser := browser;
      helper := new StrategyHelper(browser.localStorage, origin);
      slot := new RefreshSlot();
    }

    function State(): RestState
      reads browser.localStorage, browser.sessionStorage, helper
    {
      RestState(browser.Snapshot(), helper.isAuthenticated)
    }

    /** The `token` getter: the stored access token, if any. */
    function Token(): Option<string>
      reads browser.localStorage, browser.sessionStorage
    {
      browser.Snapshot().Get(accessToken.storage, accessToken.key)
    }

    /** The `token` setter: writes the access-token key of its configured area only. */
    method SetToken(token: string)
      requires Valid()
      modifies browser.localStorage, browser.sessionStorage
      ensures Token() == Some(token)
      ensures browser.Snapshot() == old(browser.Snapshot()).Set(accessToken.storage, accessToken.key, token)
    {
      browser.SetItem(accessToken.storage, accessToken.key, token);
    }

    function IsAuthenticated(): bool
      reads helper
    {
      helper.isAuthenticated
    }

    /** `startUrl`, delegated to the helper. */
    function StartUrl(): string
      reads helper.store
    {
      helper.StartUrl()
    }

    method SetStartUrl(url: Option<string>)
      requires Valid()
      modifies browser.localStorage
      ensures browser.localStorage.items == WithStartUrl(old(browser.localStorage.items), url)
      ensures StartUrl() == if Truthy(url) then url.value else helper.origin
    {
      helper.SetStartUrl(url);
    }

    method SetAuthParams(token: string, refreshValue: Option<string>)
      requires Valid()
      modifies browser.localStorage, browser.sessionStorage, helper
      ensures State() == AfterAuthParams(old(State()), name, accessToken, refreshTokenConfig, token, refreshValue)
    {
      browser.SetItem(accessToken.storage, accessToken.key, token);
      if refreshTokenConfig.Some? && Truthy(refreshValue) {
        browser.SetItem(refreshTokenConfig.value.storage, refreshTokenConfig.value.key, refreshValue.value);
      }
      helper.SetActiveStrategyName(name);
      helper.isAuthenticated := true;
    }

    method Clear()
      requires Valid()
      modifies browser.localStorage, browser.sessionStorage, helper
      ensures State() == AfterClear(old(State()), accessToken, refreshTokenConfig)
    {
      browser.RemoveItem(accessToken.storage, accessToken.key);
      if refreshTokenConfig.Some? {
        browser.RemoveItem(refreshTokenConfig.value.storage, refreshTokenConfig.value.key);
      }
      helper.Reset();
    }

    /** The state after a successful exchange that returned `response` from `url`. */
    function Exchanged(s: RestState, response: Response, url: string): RestState {
      var token := ExtractToken(accessToken.getToken, response, url);
      if token != "" then AfterAuthParams(s, name, accessToken, refreshTokenConfig, token,
                                          ExtractRefreshToken(refreshTokenConfig, response, url))
      else s
    }

    /**
     * `checkAuth`: no stored token means `false` without a request; a token but no
     * `checkAuth` endpoint throws; otherwise the reply decides.
     */
    method CheckAuth(reply: Reply) returns (r: Result<bool, Thrown>, requested: bool)
      requires Valid()
      modifies browser.localStorage, browser.sessionStorage, helper
      ensures requested == (Truthy(old(Token())) && urls.checkAuth.Some?)
      ensures !Truthy(old(Token())) ==> r == Ok(false) && State() == old(State())
      ensures Truthy(old(Token())) && urls.checkAuth.None? ==>
                r == Err(PlainError("Check URL is not defined")) && State() == old(State())
      ensures requested && reply.Rejects? ==> r == Err(Raw(reply.reason)) && State() == old(State())
      ensures requested && reply.Replied? ==>
                var url := urls.checkAuth.value.url;
                && r == Ok(ExtractToken(accessToken.getToken, reply.response, url) != "")
                && State() == Exchanged(old(State()), reply.response, url)
    {
      if !Truthy(Token()) {
        return Ok(false), false;
      }
      if urls.checkAuth.None? {
        return Err(PlainError("Check URL is not defined")), false;
      }
      requested := true;
      var url := urls.checkAuth.value.url;
      match reply
      case Rejects(reason) =>
        r := Err(Raw(reason));
      case Replied(response) =>
        var token := ExtractToken(accessToken.getToken, response, url);
        if token != "" {
          helper.SetActiveStrategyName(name);
          ghost var named := State();
          SetAuthParams(token, ExtractRefreshToken(refreshTokenConfig, response, url));
          NameWriteAbsorbed(old(State()), named, name, accessToken, refreshTokenConfig, token,
                            ExtractRefreshToken(refreshTokenConfig, response, url));
        }
        r := Ok(token != "");
    }

    /** `signIn` and `signUp`: the response is returned; a truthy token is stored. */
    method Exchange(endpoint: Option<UrlConfig>, missing: string, reply: Reply) returns (r: Result<Response, Thrown>, requested: bool)
      requires Valid()
      modifies browser.localStorage, browser.sessionStorage, helper
      ensures requested == endpoint.Some?
      ensures endpoint.None? ==> r == Err(PlainError(missing)) && State() == old(State())
      ensures requested && reply.Rejects? ==> r == Err(Raw(reply.reason)) && State() == old(State())
      ensures requested && reply.Replied? ==>
                r == Ok(reply.response) && State() == Exchanged(old(State()), reply.response, endpoint.value.url)
    {
      if endpoint.None? {
        return Err(PlainError(missing)), false;
      }
      requested := true;
      var url := endpoint.value.url;
      match reply
      case Rejects(reason) =>
        r := Err(Raw(reason));
      case Replied(response) =>
        var token := ExtractToken(accessToken.getToken, response, url);
        if token != "" {
          SetAuthParams(token, ExtractRefreshToken(refreshTokenConfig, response, url));
        }
        r := Ok(response);
    }

    method SignIn(reply: Reply) returns (r: Result<Response, Thrown>, requested: bool)
      requires Valid()
      modifies browser.localStorage, browser.sessionStorage, helper
      ensures requested == urls.signIn.Some?
      ensures urls.signIn.None? ==> r == Err(PlainError("Sign in URL is not defined")) && State() == old(State())
      ensures requested && reply.Rejects? ==> r == Err(Raw(reply.reason)) && State() == old(State())
      ensures requested && reply.Replied? ==>
                r == Ok(reply.response) && State() == Exchanged(old(State()), reply.response, urls.signIn.value.url)
    {
      r, requested := Exchange(urls.signIn, "Sign in URL is not defined", reply);
    }

    method SignUp(reply: Reply) returns (r: Result<Response, Thrown>, requested: bool)
      requires Valid()
      modifies browser.localStorage, browser.sessionStorage, helper
      ensures requested == urls.signUp.Some?
      ensures urls.signUp.None? ==> r == Err(PlainError("Sign up URL is not defined")) && State() == old(State())
      ensures requested && reply.Rejects? ==> r == Err(Raw(reply.reason)) && State() == old(State())
      ensures requested && reply.Replied? ==>
                r == Ok(reply.response) && State() == Exchanged(old(State()), reply.response, urls.signUp.value.url)
    {
      r, requested := Exchange(urls.signUp, "Sign up URL is not defined", reply);
    }

    /** `signOut`: an empty URL clears without a request; a rejected request leaves everything as it was. */
    method SignOut(reply: Reply) returns (r: Result<(), Thrown>, requested: bool)
      requires Valid()
      modifies browser.localStorage, browser.sessionStorage, helper
      ensures requested == (urls.signOut.Some? && urls.signOut.value.url != "")
      ensures urls.signOut.None? ==> r == Err(PlainError("Sign out URL is not defined")) && State() == old(State())
      ensures urls.signOut.Some? && !requested ==>
                r == Ok(()) && State() == AfterClear(old(State()), accessToken, refreshTokenConfig)
      ensures requested && reply.Rejects? ==> r == Err(Raw(reply.reason)) && State() == old(State())
      ensures requested && reply.Replied? ==>
                r == Ok(()) && State() == AfterClear(old(State()), accessToken, refreshTokenConfig)
    {
      if urls.signOut.None? {
        return Err(PlainError("Sign out URL is not defined")), false;
      }
      if urls.signOut.value.url == "" {
        Clear();
        return Ok(()), false;
      }
      requested := true;
      match reply
      case Rejects(reason) =>
        r := Err(Raw(reason));
      case Replied(_) =>
        Clear();
        r := Ok(());
    }

    /**
     * The synchronous part of `refreshToken`: throw without a `refresh` entry,
     * return at once for an empty URL, await the filled slot, or fill it and send.
     */
    method RefreshToken() returns (c: RefreshCall)
      requires Valid()
      modifies slot
      ensures Valid()
      ensures urls.refresh.None? ==> c == Refused(PlainError("Refresh token URL is not defined"))
      ensures urls.refresh.Some? && urls.refresh.value.url == "" ==> c == Skipped
      ensures c.Refused? || c.Skipped? ==> unchanged(slot)
      ensures urls.refresh.Some? && urls.refresh.value.url != "" ==>
                slot.pending && (c == Joined <==> old(slot.pending)) && (c == Sent(urls.refresh.value) <==> !old(slot.pending))
      ensures c == Joined ==> slot.waiters == old(slot.waiters) + 1 && slot.issued == old(slot.issued)
      ensures c.Sent? ==> slot.Outstanding() && slot.issued == old(slot.issued) + 1 && slot.waiters == 0
    {
      if urls.refresh.None? {
        return Refused(PlainError("Refresh token URL is not defined"));
      }
      if urls.refresh.value.url == "" {
        return Skipped;
      }
      var joined := slot.Enter();
      c := if joined then Joined else Sent(urls.refresh.value);
    }

    /**
     * The refresh request settles. On success the token is stored when truthy,
     * the waiters are released (`released`) and the slot is emptied; on
     * failure the owner gets the rejection and the slot stays filled.
     */
    method CompleteRefresh(reply: Reply) returns (r: Result<nat, Thrown>)
      requires Valid() && slot.Outstanding()
      modifies browser.localStorage, browser.sessionStorage, helper, slot
      ensures Valid() && !slot.Outstanding()
      ensures reply.Replied? ==>
                && r == Ok(old(slot.waiters)) && !slot.pending && slot.waiters == 0
                && State() == Exchanged(old(State()), reply.response, urls.refresh.value.url)
      ensures reply.Rejects? ==>
                && r == Err(Raw(reply.reason)) && slot.pending && slot.waiters == old(slot.waiters)
                && State() == old(State())
    {
      var url := urls.refresh.value.url;
      match reply
      case Rejects(reason) =>
        slot.Fail();
        r := Err(Raw(reason));
      case Replied(response) =>
        var token := ExtractToken(accessToken.getToken, response, url);
        if token != "" {
          SetAuthParams(token, ExtractRefreshToken(refreshTokenConfig, response, url));
        }
        var released := slot.Succeed();
        r := Ok(released);
    }
  }

  /** Two snapshots that differ at most in the active-name key. */
  predicate SameButName(a: Stores, b: Stores) {
    a.session == b.session && a.local - {TYPE_KEY} == b.local - {TYPE_KEY}
  }

  lemma SetKeepsSameButName(a: Stores, b: Stores, t: StorageType, key: string, value: string)
    requires SameButName(a, b)
    ensures SameButName(a.Set(t, key, value), b.Set(t, key, value))
  {
    if t == LocalStorage {
      var la, lb := a.Set(t, key, value).local, b.Set(t, key, value).local;
      assert la == a.local[key := value] && lb == b.local[key := value];
      if key == TYPE_KEY {
        assert la - {TYPE_KEY} == a.local - {TYPE_KEY};
        assert lb - {TYPE_KEY} == b.local - {TYPE_KEY};
      } else {
        assert la - {TYPE_KEY} == (a.local - {TYPE_KEY})[key := value];
        assert lb - {TYPE_KEY} == (b.local - {TYPE_KEY})[key := value];
      }
    }
  }

  lemma NameEqualizes(a: Stores, b: Stores, name: string)
    requires SameButName(a, b) && name != ""
    ensures WithActiveName(a.local, name) == WithActiveName(b.local, name)
  {
    assert a.local[TYPE_KEY := name] == (a.local - {TYPE_KEY})[TYPE_KEY := name];
    assert b.local[TYPE_KEY := name] == (b.local - {TYPE_KEY})[TYPE_KEY := name];
  }

  /** `checkAuth` writes the name once more before `setAuthParams`; that earlier write is overwritten. */
  lemma NameWriteAbsorbed(s: RestState, named: RestState, name: string, access: TokenConfig, refresh: Option<TokenConfig>,
                          token: string, refreshValue: Option<string>)
    requires name != ""
    requires named == RestState(s.stores.(local := WithActiveName(s.stores.local, name)), s.isAuthenticated)
    ensures AfterAuthParams(named, name, access, refresh, token, refreshValue) ==
            AfterAuthParams(s, name, access, refresh, token, refreshValue)
  {
    assert named.stores.local - {TYPE_KEY} == s.stores.local - {TYPE_KEY};
    var n1 := named.stores.Set(access.storage, access.key, token);
    var s1 := s.stores.Set(access.storage, access.key, token);
    SetKeepsSameButName(named.stores, s.stores, access.storage, access.key, token);
    var n2, s2 := n1, s1;
    if refresh.Some? && Truthy(refreshValue) {
      n2 := n1.Set(refresh.value.storage, refresh.value.key, refreshValue.value);
      s2 := s1.Set(refresh.value.storage, refresh.value.key, refreshValue.value);
      SetKeepsSameButName(n1, s1, refresh.value.storage, refresh.value.key, refreshValue.value);
    }
    NameEqualizes(n2, s2, name);
  }
}
