# auth-strategy-manager in Dafny

This project models auth-strategy-manager, a browser library that runs several authentication strategies behind one front: REST tokens, Keycloak, an empty fallback. It decides which strategy is active and keeps that choice in browser storage. The model covers:

- **The three orchestrators.** These are `AuthStrategyManager` in packages/core, the older `AuthStrategyManager` in src/, and the `Authorizer`. Each builds a name-keyed record of strategies, resolves the active one, and probes all of them to pick a winner or escalate a rejection. The model also covers `use` and `clear`.
- **`StrategyHelper`.** The active-strategy name and the start URL, persisted in localStorage, plus an in-memory `isAuthenticated` flag.
- **The no-op `EmptyStrategy`.**
- **The two REST strategies.** Their token storage, their endpoints, and the single-flight refresh slot.
- **The error classes and their `toString`.**
- **The example application's models and back end.** These are `ErrorManagerModel`, `UserModel` with its `Validator`, and `AuthApi`.

Modules follow the source files:

| module | file | models |
|---|---|---|
| `Common` | common.dfy | `Option`, `Result`, JavaScript truthiness of an optional string |
| `Errors` | errors.dfy | packages/core/src/errors.ts and src/errors.ts |
| `Location` | location.dfy | the `startUrl` origin constant computed from `window.location` |
| `Storages` | storages.dfy | the `window.localStorage` / `window.sessionStorage` areas |
| `Helpers` | strategy_helper.dfy | packages/core/src/helpers/strategy-helper.ts |
| `EmptyStrategies` | empty_strategy.dfy | packages/core/src/strategies/empty-strategy.ts |
| `Registries` | registry.dfy | the name-keyed strategy record and the `strategy` getter |
| `Probes` | probes.dfy | the `Promise.allSettled` walk shared by the three orchestrators |
| `CoreManager` | core_manager.dfy | packages/core/src/auth-strategy-manager.ts |
| `SrcManager` | src_manager.dfy | src/auth-strategy-manager.ts |
| `SrcAuthorizer` | authorizer.dfy | src/authorizer.ts |
| `RefreshSlots` | refresh_slot.dfy | the `currentRefresh` field of both REST strategies |
| `Http` | http.dfy | the response, the reply and `extractToken`, shared by both REST strategies |
| `RestStrategies` | rest_strategy.dfy | packages/rest/src/rest-strategy.ts |
| `LegacyRestStrategies` | legacy_rest_strategy.dfy | src/strategies/rest-strategy.ts |
| `ErrorManager` | error_manager_model.dfy | example/models/error-manager-model.ts |
| `Users` | user_model.dfy | example/models/user-model.ts |
| `AuthApis` | auth_api.dfy | example/auth-api.ts |

How the outside world enters the model:

- **Browser storage.** Each storage area is a `Storage` object holding a `map<string, string>`. Every `StrategyHelper` holds the same localStorage object, which is how one helper's writes reach another.
- **Strategies.** The orchestrators see a strategy as `Strategy(name, isKeycloak, hasClear)`.
- **Probe results.** The settled results of the probes arrive as a sequence in key order. The network, timeout and certificate error codes, and the Authorizer's `networkErrors` list, are parameters of the orchestrators.
- **HTTP.** Each REST call takes its awaited reply as an argument, which resolves with a response or rejects with a reason. The call reports whether the request was sent.
- **In-flight refresh.** A refresh in flight is a `RefreshSlot`, driven by explicit steps:
  - `Enter` is a caller arriving.
  - `Succeed` is the request resolving.
  - `Fail` is the request rejecting.
- **The clock.** Clock readings are an integer parameter, `now`.
- **The location.** It is a `protocol` and `href` pair.

How the orchestrators and the REST strategies behave at three points where a reader might expect otherwise:

- **The probe walk.** The walk stops at the first decisive index in key order. A recognised rejection at an earlier index therefore throws even when a later strategy succeeded. Only rejections after the winner are ignored (`Probes.EarlierRejectionThrows`, `Probes.FirstSuccessWins`).
- **The refresh slot.** `currentRefresh = null` runs only after a successful request. A rejected refresh therefore leaves the slot filled and its promise unresolved: the callers waiting on it never resume, and every later `refreshToken` call joins the same dead promise (`RefreshSlots.RefreshSlot.Fail`, `RefreshSlots.FailedRefreshBlocksLaterCalls`).
- **A single strategy in packages/core.** Its `checkAuth` result is returned as it is. The active name is not written, and a rejection propagates as the raw reason. In src/, a single strategy that is not Keycloak goes through the general walk (`Probes.SingleNonKeycloakFolds`).

Further behaviour of the code that the model makes explicit:

- **Repeated `clear`.** The packages/core `clear` calls the active strategy's `clear` and then writes the active name `'empty'`. A second `clear` therefore finds a `clear` to call only if a strategy named `'empty'` is registered (`CoreManager.ClearTwice`).
- **Sign-out in src/.** The legacy REST `signOut` empties all of sessionStorage, including keys that belong to other code (`LegacyRestStrategies.ClearAuthDataWipesSession`).
- **`userId` in `AuthApi`.** Nothing ever assigns `AuthApi.userId`, so it stays -1, while every auth record names a positive user id. `checkAuth` therefore always rejects with 401 and `signOut` deletes nothing (`AuthApis.UnsetUserIdFindsNothing`, `AuthApis.CheckAuthAlwaysRejects`).
- **Sign-up validation.** `signUp` runs the validator but never reads its verdict, so an empty login or a short password is accepted (`AuthApis.AuthApi.SignUp`).
- **`cloneWith` and `undefined`.** A field that `cloneWith` receives explicitly as `undefined` takes the constructor default, not the current value. This is because the object spread copies the `undefined` and `??` then applies the default (`Users.CloneWithFields`).

## Model

| member | source | states |
|---|---|---|
| `Errors.ToStringPrefixIff` | packages/core/src/errors.ts:15-17 | the text equals the message exactly when the status is 0; otherwise it is `Status <n>: ` followed by the message, and the message always ends the text (src/errors.ts:15-17 is identical) |
| `Errors.SubclassesPrintMessage` | packages/core/src/errors.ts:20-45 | CertError, NetworkError and Timeout3rdPartyError have status 0, so their text is their message alone; CertError prints `ERR_CERT_AUTHORITY_INVALID` |
| `Errors.DefaultsOnlyForUndefined` | packages/core/src/errors.ts:29-45 | the default messages `NETWORK ERROR` and the third-party timeout text replace only an undefined message; a given message, even `''`, is kept |
| `Errors.DecimalString` | packages/core/src/errors.ts:16 | the rendered status is never empty |
| `Errors.ToString` | packages/core/src/errors.ts:15-17 | definition, no contract: `Status <n>: ` when the status is non-zero, then the message; `ToStringPrefixIff` characterises it |
| `Errors.CertError` | packages/core/src/errors.ts:20-27 | definition, no contract: status 0 and `ERR_CERT_AUTHORITY_INVALID`; `SubclassesPrintMessage` states its text |
| `Errors.NetworkError` | packages/core/src/errors.ts:29-36 | definition, no contract: status 0 and the message or `NETWORK ERROR`; `DefaultsOnlyForUndefined` states the default |
| `Errors.Timeout3rdPartyError` | packages/core/src/errors.ts:38-45 | definition, no contract: status 0 and the message or the third-party timeout text; `DefaultsOnlyForUndefined` states the default |
| `Location.OriginHasNoPath` | packages/core/src/auth-strategy-manager.ts:9-12 | the origin is `protocol//` followed by a part with no `/` in it, whatever the href |
| `Location.OriginOfLocation` | packages/core/src/auth-strategy-manager.ts:9-12 | for a location `protocol//host/path`, the origin is `protocol//host`, and the path is dropped |
| `Location.FirstSegment` | packages/core/src/auth-strategy-manager.ts:10 | `split('/')[0]` is the longest prefix free of `/`: either all of the text, or the part before its first `/` |
| `Location.FindFrom` | packages/core/src/auth-strategy-manager.ts:10 | a position found by the search is at or after `from` and holds an occurrence of the pattern |
| `Location.FindFromFirst` | packages/core/src/auth-strategy-manager.ts:10 | whenever the pattern occurs at `j` at or after `from`, the search finds a position no later than `j` |
| `Location.FindFromNoneIff` | packages/core/src/auth-strategy-manager.ts:10 | the search finds nothing exactly when the pattern occurs nowhere at or after `from` |
| `Location.FindFromIsFirst` | packages/core/src/auth-strategy-manager.ts:10 | the position found is the first occurrence at or after `from`, as `replace` with a string pattern takes |
| `Location.ReplaceFirst` | packages/core/src/auth-strategy-manager.ts:10 | definition, no contract: the text before the first occurrence, the replacement, and the rest; without an occurrence the text is unchanged |
| `Location.Origin` | packages/core/src/auth-strategy-manager.ts:9-12 | definition, no contract: `protocol//` and the first `/`-free segment of the href without its first `protocol//`; `OriginHasNoPath` and `OriginOfLocation` characterise it |
| `Helpers.WithActiveName` | packages/core/src/helpers/strategy-helper.ts:16-22 | after the setter, the getter returns the name, and no other key changes; the key is absent exactly when the name is empty |
| `Helpers.WithStartUrl` | packages/core/src/helpers/strategy-helper.ts:28-34 | after the setter, the getter returns a truthy URL, or the origin when the URL was `''` or undefined; the active name is untouched |
| `Helpers.ActiveNameRoundTrip` | packages/core/src/helpers/strategy-helper.ts:12-22 | writing a name and reading it back gives the name; the start URL is not affected; `''` leaves the key absent |
| `Helpers.StartUrlRoundTrip` | packages/core/src/helpers/strategy-helper.ts:24-34 | writing a URL and reading it back gives it, or the origin for a falsy URL, in which case the key is absent |
| `Helpers.StrategyHelper.constructor` | packages/core/src/helpers/strategy-helper.ts:10 | a new helper is not authenticated and uses the given store and origin |
| `Helpers.StrategyHelper.SetActiveStrategyName` | packages/core/src/helpers/strategy-helper.ts:16-22 | localStorage becomes the write (or the removal, for `''`) of the name, and the getter returns the name |
| `Helpers.StrategyHelper.SetStartUrl` | packages/core/src/helpers/strategy-helper.ts:28-34 | localStorage becomes the write of a truthy URL, or the removal of the key; the getter returns the URL or the origin |
| `Helpers.StrategyHelper.ClearStorage` | packages/core/src/helpers/strategy-helper.ts:36-38 | only the active-name key is removed; the start URL is unchanged |
| `Helpers.StrategyHelper.Reset` | packages/core/src/helpers/strategy-helper.ts:40-43 | the active-name key is removed and `isAuthenticated` becomes false |
| `Helpers.ResetTwice` | packages/core/src/helpers/strategy-helper.ts:40-43 | a second reset leaves the state of the first |
| `Helpers.SharedStore` | packages/core/src/helpers/strategy-helper.ts:46 | a name written through one helper is read by every helper over the same storage |
| `EmptyStrategies.EmptyStrategy.constructor` | packages/core/src/strategies/empty-strategy.ts:4-5 | the name is `'empty'`, and the inherited helper state starts unauthenticated |
| `EmptyStrategies.EmptyStrategy.CheckAuth` | packages/core/src/strategies/empty-strategy.ts:7-9 | always false |
| `EmptyStrategies.EmptyStrategy.SignIn` | packages/core/src/strategies/empty-strategy.ts:11-13 | always false |
| `EmptyStrategies.EmptyStrategy.SignUp` | packages/core/src/strategies/empty-strategy.ts:15-17 | always false |
| `EmptyStrategies.EmptyStrategy.SignOut` | packages/core/src/strategies/empty-strategy.ts:19-21 | removes the active-name key and nothing else |
| `EmptyStrategies.EmptyStrategy.GetUserProfile` | packages/core/src/strategies/empty-strategy.ts:25-27 | resolves to undefined |
| `Registries.Register` | packages/core/src/auth-strategy-manager.ts:24-27 | definition, no contract: one step of the reduce, `acc[strategy.name] = strategy`; a new name is appended to the keys |
| `Registries.Resolve` | packages/core/src/auth-strategy-manager.ts:31-37 | definition, no contract: `''` or an unmapped name gives the EmptyStrategy; `ResolveTotal` and `ResolveAfterBuild` characterise it |
| `Registries.Build` | packages/core/src/auth-strategy-manager.ts:23-28 | the record built by the reduce has distinct keys, those keys are its domain, each entry is stored under its own name, and there are no more keys than list entries |
| `Registries.Names` | packages/core/src/auth-strategy-manager.ts:96-100 | the names of the list in list order, one per entry |
| `Registries.LastNamed` | packages/core/src/auth-strategy-manager.ts:96-100 | an independent reading of "the last entry with this name", supplying an entry of the list that carries the name |
| `Registries.BuildContents` | packages/core/src/auth-strategy-manager.ts:94-101 | the record holds exactly the names of the list, and each name maps to the last entry that carries it |
| `Registries.BuildKeysInOrder` | packages/core/src/auth-strategy-manager.ts:94-101 | with distinct names, the record's keys are the names in list order |
| `Registries.BuildKeysFewer` | packages/core/src/auth-strategy-manager.ts:94-101 | with a duplicate name, the record has fewer keys than the list has entries |
| `Registries.ResolveTotal` | packages/core/src/auth-strategy-manager.ts:31-37 | the getter returns either the strategy registered under the active name or the EmptyStrategy, and an unknown name gives the EmptyStrategy |
| `Registries.ResolveAfterBuild` | packages/core/src/auth-strategy-manager.ts:31-37 | after building from a list, a name resolves to its last list entry, and a name not in the list to the EmptyStrategy |
| `Probes.Classify` | packages/core/src/auth-strategy-manager.ts:64-88 | definition, no contract: the loop body at one index; `NetworkFirst`, `CodeHidesMessage`, `CertByCodeOnly`, `TimeoutBeforeCert` and `AuthorizerClasses` state its cases |
| `Probes.Scan` | packages/core/src/auth-strategy-manager.ts:61-89 | a winner found by the walk is an index in range whose probe fulfilled with `true` |
| `Probes.FirstDecisiveDecides` | packages/core/src/auth-strategy-manager.ts:61-89 | the first decisive index decides the walk (win or throw); indices after it are never inspected |
| `Probes.NoWinnerIff` | packages/core/src/auth-strategy-manager.ts:59-91 | the walk finds nothing exactly when no index is decisive |
| `Probes.WinnerIsFirst` | packages/core/src/auth-strategy-manager.ts:61-70 | a winner or an escalation has no decisive index before it |
| `Probes.FoldOutcomes` | packages/core/src/auth-strategy-manager.ts:61-89 | the indexed loop with `break` and `throw` returns what the walk specifies |
| `Probes.FirstSuccessWins` | packages/core/src/auth-strategy-manager.ts:64-70 | a `true` with nothing decisive before it returns true and makes that strategy's name active |
| `Probes.EarlierRejectionThrows` | packages/core/src/auth-strategy-manager.ts:72-88 | a recognised rejection with nothing decisive before it throws its error and writes no name, whatever comes later |
| `Probes.NothingDecisive` | packages/core/src/auth-strategy-manager.ts:59-91 | the result is false with no write exactly when no index is decisive |
| `Probes.ActivatesFirstSuccess` | packages/core/src/auth-strategy-manager.ts:59-91 | the probe returns true exactly when it writes a name, and that name belongs to a strategy whose probe returned true |
| `Probes.NetworkFirst` | packages/core/src/auth-strategy-manager.ts:72-77 | a network key, whether in the code or (when there is no code) in the message, throws a NetworkError that carries the reason's message |
| `Probes.CodeHidesMessage` | packages/core/src/auth-strategy-manager.ts:72-88 | when a code is present, the message is not consulted; an unrecognised code is not decisive |
| `Probes.CertByCodeOnly` | packages/core/src/auth-strategy-manager.ts:86-88 | the certificate code throws a CertError; a certificate message without a code is ignored |
| `Probes.TimeoutBeforeCert` | packages/core/src/auth-strategy-manager.ts:79-88 | the timeout key is matched before the certificate code |
| `Probes.AuthorizerClasses` | src/authorizer.ts:73-82 | the Authorizer throws a NetworkError for any listed code, a CertError for the certificate code, and has no timeout class |
| `Probes.CheckThenSignIn` | src/auth-strategy-manager.ts:56-62 | `signIn` is called once exactly when `check` fulfilled; the check's value is returned when `signIn` resolves |
| `Probes.KeycloakSignsInOnce` | src/auth-strategy-manager.ts:56-62 | a single Keycloak strategy returns its `check` value, true or false, after one `signIn`, and writes no name |
| `Probes.SingleNonKeycloakFolds` | src/auth-strategy-manager.ts:56-66 | a single non-Keycloak strategy is walked: no `signIn`, a success becomes active, and an undecisive result gives false |
| `CoreManager.SingleStrategyPassesThrough` | packages/core/src/auth-strategy-manager.ts:51-53 | one strategy: its value is returned, its rejection propagates unchanged, and no name is written |
| `CoreManager.NoStrategies` | packages/core/src/auth-strategy-manager.ts:55-91 | no strategies: false, and no name is written |
| `CoreManager.MultiFirstSuccess` | packages/core/src/auth-strategy-manager.ts:61-70 | with two or more strategies, the first success in key order wins and becomes active |
| `CoreManager.MultiNothingDecisive` | packages/core/src/auth-strategy-manager.ts:59-91 | with two or more strategies and nothing decisive, the result is false and the active name is untouched |
| `CoreManager.MultiNetworkRejection` | packages/core/src/auth-strategy-manager.ts:72-77 | a network rejection at the first decisive index throws NetworkError with the reason's message and writes no name |
| `CoreManager.ClearIdempotent` | packages/core/src/auth-strategy-manager.ts:107-111 | after `clear` the active name is `'empty'` and the start URL is the origin; clearing again changes nothing |
| `CoreManager.AuthStrategyManager.ActiveStrategy` | packages/core/src/auth-strategy-manager.ts:31-37 | definition, no contract: `Resolve` of the record and the stored name |
| `CoreManager.AuthStrategyManager.StartUrl` | packages/core/src/auth-strategy-manager.ts:39-41 | definition, no contract: the helper's getter |
| `CoreManager.AuthStrategyManager.constructor` | packages/core/src/auth-strategy-manager.ts:20-29 | the count is the list's length (0 without a list), and the record is built from the list (empty without one) |
| `CoreManager.AuthStrategyManager.SetStartUrl` | packages/core/src/auth-strategy-manager.ts:43-45 | delegates to the helper's setter |
| `CoreManager.AuthStrategyManager.CheckAuth` | packages/core/src/auth-strategy-manager.ts:47-92 | the result, and the name written to localStorage, are those of the single-strategy pass-through or of the probe walk |
| `CoreManager.AuthStrategyManager.SetStrategies` | packages/core/src/auth-strategy-manager.ts:94-101 | the count becomes the list's length, duplicates included, and the record is replaced by the one built from the list |
| `CoreManager.AuthStrategyManager.Use` | packages/core/src/auth-strategy-manager.ts:103-105 | the name is stored as given, without a check against the record; the getter then resolves it |
| `CoreManager.AuthStrategyManager.Clear` | packages/core/src/auth-strategy-manager.ts:107-111 | the active strategy's `clear` is called when it has one; then the active name becomes `'empty'` and the start URL the origin |
| `CoreManager.SetStrategiesTwice` | packages/core/src/auth-strategy-manager.ts:94-101 | setting the same list twice leaves the state that setting it once leaves |
| `CoreManager.UseUnknownName` | packages/core/src/auth-strategy-manager.ts:103-105 | after `use` of an unregistered name, the getter gives the EmptyStrategy |
| `CoreManager.ClearTwice` | packages/core/src/auth-strategy-manager.ts:107-111 | two clears leave the storage of one; the second calls no `clear` unless `'empty'` is registered |
| `SrcManager.AuthStrategyManager.ActiveStrategy` | src/auth-strategy-manager.ts:32-38 | definition, no contract: `Resolve` of the record and the stored name |
| `SrcManager.AuthStrategyManager.IsKeycloak` | src/auth-strategy-manager.ts:40-42 | definition, no contract: the Keycloak flag of the resolved strategy |
| `SrcManager.AuthStrategyManager.StartUrl` | src/auth-strategy-manager.ts:44-46 | definition, no contract: the helper's getter |
| `SrcManager.AuthStrategyManager.constructor` | src/auth-strategy-manager.ts:20-30 | the count is fixed at the list's length, and the record is built from the list |
| `SrcManager.AuthStrategyManager.SetStartUrl` | src/auth-strategy-manager.ts:48-50 | delegates to the helper's setter |
| `SrcManager.AuthStrategyManager.Check` | src/auth-strategy-manager.ts:52-101 | the result, the `signIn` calls, and the name written are those of the Keycloak check-then-signIn path or of the probe walk |
| `SrcManager.AuthStrategyManager.SetStrategies` | src/auth-strategy-manager.ts:103-109 | the record is replaced; `strategiesCount` keeps its constructor value |
| `SrcManager.AuthStrategyManager.Use` | src/auth-strategy-manager.ts:111-113 | the name is stored as given, and the getter resolves it |
| `SrcManager.AuthStrategyManager.Clear` | src/auth-strategy-manager.ts:115-118 | the active name becomes `'empty'` and the start URL the origin; no strategy `clear` is called |
| `SrcAuthorizer.Authorizer.ActiveStrategy` | src/authorizer.ts:32-38 | definition, no contract: `Resolve` of the record and the stored name |
| `SrcAuthorizer.Authorizer.IsKeycloak` | src/authorizer.ts:40-42 | definition, no contract: the Keycloak flag of the resolved strategy |
| `SrcAuthorizer.Authorizer.StartUrl` | src/authorizer.ts:88-90 | definition, no contract: the helper's getter |
| `SrcAuthorizer.Authorizer.constructor` | src/authorizer.ts:20-30 | the count is the list's length, and the read-only record is built from the list |
| `SrcAuthorizer.Authorizer.SetStartUrl` | src/authorizer.ts:92-94 | delegates to the helper's setter |
| `SrcAuthorizer.Authorizer.Check` | src/authorizer.ts:44-86 | as in src/, but classified by the `networkErrors` list and the certificate code |
| `SrcAuthorizer.Authorizer.Use` | src/authorizer.ts:96-98 | the name is stored as given |
| `SrcAuthorizer.Authorizer.Clear` | src/authorizer.ts:100-103 | the active name becomes `'empty'` and the start URL the origin |
| `SrcAuthorizer.AuthorizerEscalation` | src/authorizer.ts:73-78 | a listed network code at the first decisive index throws NetworkError with the reason's message |
| `RefreshSlots.RefreshSlot.constructor` | packages/rest/src/rest-strategy.ts:18 | the slot starts empty |
| `RefreshSlots.RefreshSlot.Enter` | packages/rest/src/rest-strategy.ts:142-149 | a caller that finds the slot filled joins it without a request; one that finds it empty fills it and sends the only outstanding request |
| `RefreshSlots.RefreshSlot.Succeed` | packages/rest/src/rest-strategy.ts:158-159 | success releases every waiter and empties the slot |
| `RefreshSlots.RefreshSlot.Fail` | packages/rest/src/rest-strategy.ts:151-159 | failure settles the request but leaves the slot filled, with its waiters still waiting |
| `RefreshSlots.ConcurrentRefreshes` | packages/rest/src/rest-strategy.ts:142-149 | k calls arriving at an empty slot send one request, and k - 1 of them wait |
| `RefreshSlots.FailedRefreshBlocksLaterCalls` | packages/rest/src/rest-strategy.ts:142-159 | after a failed refresh, the next call joins the dead promise and no new request is sent |
| `Http.ExtractToken` | packages/rest/src/rest-strategy.ts:170-177 | definition, no contract: `ExtractTokenPolicy` states its three cases |
| `Http.ExtractTokenPolicy` | packages/rest/src/rest-strategy.ts:170-177 | a string response is the token; otherwise the getter's value, and `''` without a getter |
| `RestStrategies.ExtractRefreshToken` | packages/rest/src/rest-strategy.ts:179-184 | a refresh token is returned exactly when a getter exists and gives a non-empty value, and it is the getter's value |
| `RestStrategies.AfterAuthParams` | packages/rest/src/rest-strategy.ts:186-195 | definition, no contract: the state after `setAuthParams`; `AuthParamsStore` characterises it |
| `RestStrategies.AfterClear` | packages/rest/src/rest-strategy.ts:162-168 | definition, no contract: the state after `clear`; `ClearForgets` characterises it |
| `RestStrategies.AuthParamsStore` | packages/rest/src/rest-strategy.ts:186-195 | after `setAuthParams` the access token reads back, the refresh token is stored only when it is configured and truthy, the strategy is active, and authenticated is true |
| `RestStrategies.ClearForgets` | packages/rest/src/rest-strategy.ts:162-168 | after `clear` neither token reads back, the active name is gone, the start URL is kept, and authenticated is false |
| `RestStrategies.NameWriteAbsorbed` | packages/rest/src/rest-strategy.ts:75-78 | the extra name write before `setAuthParams` in `checkAuth` makes no difference to the final state |
| `RestStrategies.RestStrategy.Token` | packages/rest/src/rest-strategy.ts:48-50 | definition, no contract: the access-token key of its configured area; `SetToken` reads it back |
| `RestStrategies.RestStrategy.IsAuthenticated` | packages/rest/src/rest-strategy.ts:56-58 | definition, no contract: the helper's flag |
| `RestStrategies.RestStrategy.StartUrl` | packages/rest/src/rest-strategy.ts:40-42 | definition, no contract: the helper's getter |
| `RestStrategies.RestStrategy.constructor` | packages/rest/src/rest-strategy.ts:20-34 | the name defaults to `rest` when falsy; the access token defaults to `access` in sessionStorage; the rest of the configuration is copied |
| `RestStrategies.RestStrategy.SetToken` | packages/rest/src/rest-strategy.ts:52-54 | the token is written to its configured area and key only |
| `RestStrategies.RestStrategy.SetStartUrl` | packages/rest/src/rest-strategy.ts:44-46 | delegates to the helper's setter |
| `RestStrategies.RestStrategy.SetAuthParams` | packages/rest/src/rest-strategy.ts:186-195 | the new state is the `setAuthParams` state change |
| `RestStrategies.RestStrategy.Clear` | packages/rest/src/rest-strategy.ts:162-168 | the new state is the `clear` state change |
| `RestStrategies.RestStrategy.CheckAuth` | packages/rest/src/rest-strategy.ts:60-81 | no token gives false without a request; a missing endpoint throws `Check URL is not defined`; a rejection propagates unchanged with no state change; otherwise the result is whether a token was extracted, and a token is stored |
| `RestStrategies.RestStrategy.SignIn` | packages/rest/src/rest-strategy.ts:83-98 | a missing endpoint throws `Sign in URL is not defined`; the response is returned and a truthy token stored; a rejection changes nothing |
| `RestStrategies.RestStrategy.SignUp` | packages/rest/src/rest-strategy.ts:100-115 | a missing endpoint throws `Sign up URL is not defined`; the response is returned and a truthy token stored; a rejection changes nothing |
| `RestStrategies.RestStrategy.SignOut` | packages/rest/src/rest-strategy.ts:117-130 | a missing endpoint throws; an empty URL clears without a request; a rejected request leaves the state unchanged; success clears |
| `RestStrategies.RestStrategy.RefreshToken` | packages/rest/src/rest-strategy.ts:132-150 | a missing endpoint throws; an empty URL returns at once; otherwise the call joins a filled slot or fills it and sends the request |
| `RestStrategies.RestStrategy.CompleteRefresh` | packages/rest/src/rest-strategy.ts:151-159 | success stores a truthy token, releases the waiters and empties the slot; a rejection reaches the owner and the slot stays filled |
| `LegacyRestStrategies.AfterAuthParams` | src/strategies/rest-strategy.ts:161-165 | definition, no contract: the state after `setAuthParams`; `AuthParamsStore` characterises it |
| `LegacyRestStrategies.AfterClearAuthData` | src/strategies/rest-strategy.ts:167-170 | definition, no contract: the state after `clearAuthData`; `ClearAuthDataWipesSession` characterises it |
| `LegacyRestStrategies.AuthParamsStore` | src/strategies/rest-strategy.ts:161-165 | after `setAuthParams` the token reads back from sessionStorage, the strategy is active and authenticated, and no other key changes |
| `LegacyRestStrategies.ClearAuthDataWipesSession` | src/strategies/rest-strategy.ts:167-170 | after `clearAuthData`, every sessionStorage key is gone, the active name is gone, the start URL is kept, and the operation is idempotent |
| `LegacyRestStrategies.RestStrategy.Token` | src/strategies/rest-strategy.ts:52-54 | definition, no contract: the token key of sessionStorage; `SetToken` reads it back |
| `LegacyRestStrategies.RestStrategy.IsAuthenticated` | src/strategies/rest-strategy.ts:60-62 | definition, no contract: the helper's flag |
| `LegacyRestStrategies.RestStrategy.StartUrl` | src/strategies/rest-strategy.ts:44-46 | definition, no contract: the helper's getter |
| `LegacyRestStrategies.RestStrategy.constructor` | src/strategies/rest-strategy.ts:31-42 | the name defaults to `rest` and the token key to `access` when they are falsy |
| `LegacyRestStrategies.RestStrategy.SetToken` | src/strategies/rest-strategy.ts:56-58 | the token is written to sessionStorage under the token key |
| `LegacyRestStrategies.RestStrategy.SetStartUrl` | src/strategies/rest-strategy.ts:48-50 | delegates to the shared helper's setter |
| `LegacyRestStrategies.RestStrategy.SetAuthParams` | src/strategies/rest-strategy.ts:161-165 | the new state is the `setAuthParams` state change |
| `LegacyRestStrategies.RestStrategy.ClearAuthData` | src/strategies/rest-strategy.ts:167-170 | the new state is the `clearAuthData` state change |
| `LegacyRestStrategies.RestStrategy.Check` | src/strategies/rest-strategy.ts:64-82 | no token gives false without a request; a rejection propagates with no change; otherwise the result is whether a token was extracted, and a token is stored |
| `LegacyRestStrategies.RestStrategy.SignIn` | src/strategies/rest-strategy.ts:84-96 | the response is returned and a truthy token stored; a rejection changes nothing |
| `LegacyRestStrategies.RestStrategy.SignUp` | src/strategies/rest-strategy.ts:98-110 | the response is returned and a truthy token stored; a rejection changes nothing |
| `LegacyRestStrategies.RestStrategy.SignOut` | src/strategies/rest-strategy.ts:112-124 | an empty URL clears without a request; a rejected request changes nothing; success clears |
| `LegacyRestStrategies.RestStrategy.RefreshToken` | src/strategies/rest-strategy.ts:126-139 | an empty URL returns at once; otherwise the call joins a filled slot or fills it and sends the request |
| `LegacyRestStrategies.RestStrategy.CompleteRefresh` | src/strategies/rest-strategy.ts:141-151 | success stores a truthy token and empties the slot; a rejection leaves the slot filled |
| `ErrorManager.Lookup` | example/models/error-manager-model.ts:2 | `data[key]` is defined exactly when the key is in the record, and then it is that key's entry |
| `ErrorManager.Assign` | example/models/user-model.ts:14-20 | assigning a new key appends it; the result has one entry more for a new key and the same count for an existing one |
| `ErrorManager.AssignLookup` | example/models/user-model.ts:14-20 | after the assignment the key reads the new value, and every other key reads as before |
| `ErrorManager.AssignKeepsOrder` | example/models/user-model.ts:14-20 | re-assigning an existing key keeps every key's position (object property order) |
| `ErrorManager.AssignUnique` | example/models/user-model.ts:14-20 | assignment keeps the keys distinct |
| `ErrorManager.Join` | example/models/error-manager-model.ts:4-6 | definition, no contract: `Object.values(data).join('')`; `JoinAppend` and `JoinConcatenates` characterise it |
| `ErrorManager.ErrorManagerModel.ToString` | example/models/error-manager-model.ts:4-6 | definition, no contract: the join of the record |
| `ErrorManager.JoinAppend` | example/models/error-manager-model.ts:4-6 | appending an entry appends its message to the text |
| `ErrorManager.JoinConcatenates` | example/models/error-manager-model.ts:4-6 | the text is the messages in insertion order, with no separator |
| `ErrorManager.JoinAssignNew` | example/models/error-manager-model.ts:4-6 | a message for a new field is appended to the text |
| `ErrorManager.ErrorManagerModel.constructor` | example/models/error-manager-model.ts:2 | a new record is empty, and its text is `''` |
| `ErrorManager.ErrorManagerModel.Clear` | example/models/error-manager-model.ts:8-10 | after `clear` the record is empty and the text is `''` |
| `ErrorManager.ClearTwice` | example/models/error-manager-model.ts:8-10 | `clear` is idempotent |
| `Users.New` | example/models/user-model.ts:35-47 | definition, no contract: each field is the given one or its default; `ConstructorKeepsGiven` and `ConstructorDefaults` characterise it |
| `Users.UserModel.CloneWith` | example/models/user-model.ts:49-51 | definition, no contract: the spread of the model and `user` passed to the constructor; `CloneWithFields` and `CloneWithNothing` characterise it |
| `Users.FromJson` | example/models/user-model.ts:62-64 | definition, no contract: the constructor; `JsonRoundTrip` characterises it |
| `Users.Validated` | example/models/user-model.ts:13-23 | definition, no contract: the two rules applied to the record; `LoginErrorIff`, `PasswordErrorIff`, `ValidateKeepsEarlier` and `ValidatedAppendsMessages` characterise it |
| `Users.UserModel.ToJson` | example/models/user-model.ts:53-60 | `toJson` carries the model's four fields |
| `Users.ConstructorKeepsGiven` | example/models/user-model.ts:42-47 | every given field is kept, even `''`; missing or undefined fields take the defaults id -1, `now`, `''` and `''` |
| `Users.ConstructorDefaults` | example/models/user-model.ts:35-38 | without an argument, every field is its default |
| `Users.CloneWithFields` | example/models/user-model.ts:49-51 | a field given to `cloneWith` is taken, a missing one is kept, and one given as undefined takes the default |
| `Users.CloneWithNothing` | example/models/user-model.ts:49-51 | cloning with nothing gives an equal model |
| `Users.JsonRoundTrip` | example/models/user-model.ts:53-64 | `fromJson(m.toJson())` has the id, createdAt, login and password of `m` |
| `Users.Validator.constructor` | example/models/user-model.ts:8-11 | a new validator has an empty error record |
| `Users.Validator.Validate` | example/models/user-model.ts:13-23 | returns its own error record, which becomes the login and password rules applied to the old record |
| `Users.Validator.Reset` | example/models/user-model.ts:25-27 | empties the error record |
| `Users.LoginErrorIff` | example/models/user-model.ts:14-16 | a login error is present after `validate` exactly when the login is empty or one was already present; an empty login gives `Login is required.` |
| `Users.PasswordErrorIff` | example/models/user-model.ts:18-20 | a password error is present exactly when the password is empty or shorter than 4 characters, or one was already present, and it carries the fixed message |
| `Users.ValidateKeepsEarlier` | example/models/user-model.ts:13-23 | `validate` removes or rewrites no message of another field, and it keeps the keys distinct |
| `Users.ValidUserChangesNothing` | example/models/user-model.ts:13-23 | for a valid user `validate` leaves the record as it was, so earlier errors stay until `reset` |
| `Users.ValidatedAppendsMessages` | example/models/user-model.ts:13-23 | on a record holding neither field, the text gains the login message when the login fails, then the password message when the password fails |
| `Users.EmptyUserMessages` | example/models/user-model.ts:13-23 | for an empty user on a fresh validator, the text is the login message followed by the password message |
| `AuthApis.Reverse` | example/auth-api.ts:145 | the result has the length of the input, and it holds the input's characters in reverse order |
| `AuthApis.CreatePasswordHash` | example/auth-api.ts:144-146 | definition, no contract: `HashShape` characterises it |
| `AuthApis.IsExpired` | example/auth-api.ts:28 | definition, no contract: `createdAt + accessMs < now`; `ExpiryBoundary` characterises it |
| `AuthApis.ReverseTwice` | example/auth-api.ts:144-146 | reversing twice gives back the string |
| `AuthApis.HashShape` | example/auth-api.ts:144-146 | the hash is the reversed password followed by `1234567890`: exactly 10 characters longer, and injective |
| `AuthApis.ExpiryBoundary` | example/auth-api.ts:28 | a token is expired exactly when more than `accessMs` has passed since `createdAt`; it is still valid exactly at the boundary |
| `AuthApis.FindUser` | example/auth-api.ts:49 | the index lookup returns the first user with the login, or none exactly when no user has it |
| `AuthApis.FindAuth` | example/auth-api.ts:17-19 | the index lookup returns the first auth record of the user, or none exactly when the user has no record |
| `AuthApis.DeleteAuth` | example/auth-api.ts:122 | deletion keeps exactly the records of other users |
| `AuthApis.AuthApi.constructor` | example/auth-api.ts:10-12 | the stores are as given, and `userId` is -1 |
| `AuthApis.AuthApi.RefreshToken` | example/auth-api.ts:127-142 | without a record, 401 `Token is expired`; otherwise the record's `createdAt` becomes `now` and nothing else changes |
| `AuthApis.AuthApi.CheckAuth` | example/auth-api.ts:14-40 | rejects with 401 `Token is expired`, changing nothing, exactly when there is no record or it is expired; otherwise it returns true and the first record's `createdAt` becomes `now`; the id counters never change |
| `AuthApis.AuthApi.SignIn` | example/auth-api.ts:42-77 | 401 `User not found` for an unknown login; 401 `Invalid password` when the stored hash differs; otherwise one new auth record, and a result without a password; a rejection keeps the counters |
| `AuthApis.AuthApi.SignUp` | example/auth-api.ts:79-117 | rejects exactly when the login is taken, whatever the validator found; otherwise it stores the user with the hashed password and a new auth record, and returns the new id, `now` and the login; the id counters advance by one each on success and stay on rejection |
| `AuthApis.AuthApi.SignOut` | example/auth-api.ts:119-125 | deletes exactly the auth records of `userId` and returns true; users and id counters are unchanged |
| `AuthApis.UnsetUserIdFindsNothing` | example/auth-api.ts:17-19 | with every record naming a positive user, the lookup for -1 finds nothing and the deletion removes nothing |
| `AuthApis.CheckAuthAlwaysRejects` | example/auth-api.ts:14-26 | while `userId` is -1, `checkAuth` always rejects with 401 |

## Left out

- **Concurrency.** `Promise.allSettled` and real completion order are left out: the settled results are an input in key order. The refresh promise is the `RefreshSlot` steps. What a released waiter does after it resumes is not modelled.
- **HTTP and axios.** The transport, the axios instance and the request configuration that `signIn`/`signUp` pass to axios are left out. Each endpoint's `method` is carried but has no effect.
- **`window.location`.** The location is a `protocol`/`href` pair given as arguments.
- **Strategy objects.** Only their name, whether they are Keycloak, and whether they have a `clear` are modelled. A call into a strategy is replaced by its outcome. `Clear` returns the strategy whose `clear` would be called.
- **`isKeycloak`.** The getters are modelled as the flag of the resolved strategy. The Keycloak and Supabase adapters are not part of this model: they wrap client libraries whose behaviour cannot be seen.
- **Object key order.** JavaScript lists integer-like keys first, in numeric order. The model keeps all keys in first-insertion order.
- **Prototype properties.** A name such as `toString` would find an inherited property of the record. The model treats it as unregistered.
- **Error codes.** `NETWORK_ERROR_CODE`, `TIMEOUT_3RD_PARTY_ERROR_CODE`, `CERT_ERROR_CODE` and `networkErrors` are not part of this model; they are parameters.
- **src/helpers.** It is taken to behave as packages/core/src/helpers/strategy-helper.ts.
- `EmptyStrategies.EmptyStrategy.RefreshToken`: it does nothing, so it has no contract to state beyond changing nothing.
- `Validator.getError`: it joins the values of the error manager object itself, function members included, through reflection. It is not modelled.
- **The example's database layer.** IndexedDB, `getDb`, `delay` and `userApi` are left out. The stores are sequences with keys handed out from 1 (what auto-increment gives). The `create` call is inlined into `SignUp`.
- **`Failed to create user`.** The branch of `signUp` that throws it is not modelled, because `create` always returns an object.
- `AuthApis.AuthApi.CheckAuth`: it reads the clock once, as `now`. The source reads it again inside `refreshToken`, so the renewed `createdAt` can be a few milliseconds later.
- **Numbers.** Statuses, timestamps and ids are unbounded integers. Floating point and the rendering of non-integer statuses are left out.
- **Character length.** A password's length counts Dafny characters, which stand for UTF-16 code units.
