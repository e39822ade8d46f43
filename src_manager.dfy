/**
 * The older `AuthStrategyManager` of src/auth-strategy-manager.ts. It differs
 * from packages/core in three ways: the single-strategy short cut is taken
 * only for a Keycloak strategy (check, then signIn), `strategiesCount` is
 * fixed by the constructor, and `clear` calls no strategy's `clear`. The
 * class extends StrategyHelper; its inherited `activeStrategyName` accessors
 * and the shared helper work on the same localStorage, which is `helper`.
 */
module SrcManager {
  import opened Common
  import opened Errors
  import opened Helpers
  import opened Registries
  import opened Probes
  import EmptyStrategies

  /** `strategyNames.length === 1 && strategies[strategyNames[0]] instanceof KeycloakStrategy` */
  predicate OnlyKeycloak(r: Registry) {
    |r.keys| == 1 && r.keys[0] in r.table && r.table[r.keys[0]].isKeycloak
  }

  class AuthStrategyManager {
    const strategiesCount: nat
    var strategies: Registry
    const helper: StrategyHelper
    const origin: string
    const network: string
    const timeout: string
    const cert: string

    ghost predicate Valid()
      reads this
    {
      strategies.Valid()
    }

    constructor (list: seq<Strategy>, helper: StrategyHelper, origin: string,
                 network: string, timeout: string, cert: string)
      ensures Valid()
      ensures strategiesCount == |list| && strategies == Build(list)
      ensures this.helper == helper && this.origin == origin
      ensures this.network == network && this.timeout == timeout && this.cert == cert
    {
      this.helper := helper;
      this.origin := origin;
      this.network, this.timeout, this.cert := network, timeout, cert;
      strategiesCount := |list|;
      strategies := Build(list);
    }

    function ActiveStrategy(): Strategy
      reads this, helper.store
    {
      Resolve(strategies, helper.ActiveStrategyName())
    }

    /** `isKeycloak`: the resolved strategy is a KeycloakStrategy. */
    function IsKeycloak(): bool
      reads this, helper.store
    {
      ActiveStrategy().isKeycloak
    }

    function StartUrl(): string
      reads helper.store
    {
      helper.StartUrl()
    }

    method SetStartUrl(url: string)
      modifies helper.store
      ensures helper.store.items == WithStartUrl(old(helper.store.items), Some(url))
    {
      helper.SetStartUrl(Some(url));
    }

    /**
     * `check`, given how each strategy's `check` settled (key order) and how
     * the Keycloak `signIn` settles; `signInCalls` counts the calls to `signIn`.
     */
    method Check(outcomes: seq<Outcome>, signIn: Settled) returns (r: CheckResult, signInCalls: nat)
      requires |outcomes| == |strategies.keys|
      modifies helper.store
      ensures var spec := SrcCheckSpec(strategies.keys, OnlyKeycloak(strategies), Current(network, timeout, cert), outcomes, signIn);
              r == spec.0.result && signInCalls == spec.1
      ensures helper.store.items ==
                Activated(old(helper.store.items),
                          SrcCheckSpec(strategies.keys, OnlyKeycloak(strategies), Current(network, timeout, cert), outcomes, signIn).0.activate)
    {
      if OnlyKeycloak(strategies) {
        var c := CheckThenSignIn(outcomes[0], signIn);
        return c.result, c.signInCalls;
      }
      signInCalls := 0;
      var v := FoldOutcomes(Current(network, timeout, cert), outcomes);
      match v
      case Winner(index) =>
        helper.SetActiveStrategyName(strategies.keys[index]);
        r := Returned(true);
      case Escalated(t) =>
        r := Threw(t);
      case NoWinner =>
        r := Returned(false);
    }

    /** Replaces the record; `strategiesCount` keeps its constructor value. */
    method SetStrategies(list: seq<Strategy>)
      modifies this`strategies
      ensures Valid() && strategies == Build(list)
    {
      strategies := Build(list);
    }

    method Use(name: string)
      modifies helper.store
      ensures helper.store.items == WithActiveName(old(helper.store.items), name)
      ensures ActiveStrategy() == Resolve(strategies, name)
    {
      helper.SetActiveStrategyName(name);
    }

    /** Active name `'empty'`, start URL the origin; no strategy's `clear` is called. */
    method Clear()
      modifies helper.store
      ensures helper.store.items == WithStartUrl(WithActiveName(old(helper.store.items), EmptyStrategies.NAME), Some(origin))
    {
      helper.SetActiveStrategyName(EmptyStrategies.NAME);
      helper.SetStartUrl(Some(origin));
    }
  }
}
