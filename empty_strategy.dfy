/**
 * `EmptyStrategy` (packages/core/src/strategies/empty-strategy.ts): the null
 * object every failed resolution lands on. It extends StrategyHelper; the
 * inherited part is the `helper` field here.
 */
module EmptyStrategies {
  import opened Common
  import opened Storages
  import opened Helpers

  const NAME := "empty"

  class EmptyStrategy {
    const name: string
    const helper: StrategyHelper

    constructor (store: Storage, origin: string)
      ensures name == NAME && helper.store == store && !helper.isAuthenticated
    {
      name := NAME;
      helper := new StrategyHelper(store, origin);
    }

    method CheckAuth() returns (authenticated: bool)
      ensures !authenticated
    {
      authenticated := false;
    }

    /** `signIn` resolves to `false` whatever the caller asked for. */
    method SignIn() returns (result: bool)
      ensures !result
    {
      result := false;
    }

    method SignUp() returns (result: bool)
      ensures !result
    {
      result := false;
    }

    /** Removes only the active-name key. */
    method SignOut()
      modifies helper.store
      ensures helper.store.items == old(helper.store.items) - {TYPE_KEY}
    {
      helper.ClearStorage();
    }

    /** Changes nothing (no modifies clause). */
    method RefreshToken()
    {
    }

    /** Resolves to `undefined`. */
    method GetUserProfile() returns (profile: Option<string>)
      ensures profile == None
    {
      profile := None;
    }
  }
}
