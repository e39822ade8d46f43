/**
 * `Authorizer` of src/authorizer.ts, the oldest orchestrator: a read-only
 * record, the Keycloak-only check-then-signIn path, and a fold that knows a
 * list of network codes and the certificate code but no timeout.
 */
module SrcAuthorizer {
  import opened Common
  import opened Errors
  import opened Helpers
  import opened Registries
  import opened Probes
  import EmptyStrategies
  import SrcManager

  class Authorizer {
    const strategiesCount: nat
    const strategies: Registry
    const helper: StrategyHelper
    const origin: string
    /** The imported `networkErrors` list and CERT_ERROR_CODE. */
    const networkErrors: set<string>
    const certCode: string

    ghost predicate Valid() {
      strategies.Valid()
    }

    constructor (list: seq<Strategy>, helper: StrategyHelper, origin: string, networkErrors: set<string>, certCode: string)
      ensures Valid()
      ensures strategiesCount == |list| && strategies == Build(list)
      ensures this.helper == helper && this.origin == origin
      ensures this.networkErrors == networkErrors && this.certCode == certCode
    {
      this.helper := helper;
      this.origin := origin;
      this.networkErrors := networkErrors;
      this.certCode := certCode;
      strategiesCount := |list|;
      strategies := Build(list);
    }

    function ActiveStrategy(): Strategy
      reads helper.store
    {
      Resolve(strategies, helper.ActiveStrategyName())
    }

    function IsKeycloak(): bool
      reads helper.store
    {
      ActiveStrategy().isKeycloak
    }

    function StartUrl(): string
      reads helper.store
    {
      helper.StartUrl()
    }

    method SetStartUrl(url: string)
      modifies helper.store
      ensures helper.store.items == WithStartUrl(old(helper.store.items), Some(url))
    {
      helper.SetStartUrl(Some(url));
    }

    method Check(outcomes: seq<Outcome>, signIn: Settled) returns (r: CheckResult, signInCalls: nat)
      requires |outcomes| == |strategies.keys|
      modifies helper.store
      ensures var spec := SrcCheckSpec(strategies.keys, SrcManager.OnlyKeycloak(strategies),
                                       Authorizer(networkErrors, certCode), outcomes, signIn);
              r == spec.0.result && signInCalls == spec.1
      ensures helper.store.items ==
                Activated(old(helper.store.items),
                          SrcCheckSpec(strategies.keys, SrcManager.OnlyKeycloak(strategies),
                                       Authorizer(networkErrors, certCode), outcomes, signIn).0.activate)
    {
      if SrcManager.OnlyKeycloak(strategies) {
        var c := CheckThenSignIn(outcomes[0], signIn);
        return c.result, c.signInCalls;
      }
      signInCalls := 0;
      var v := FoldOutcomes(Authorizer(networkErrors, certCode), outcomes);
      match v
      case Winner(index) =>
        helper.SetActiveStrategyName(strategies.keys[index]);
        r := Returned(true);
      case Escalated(t) =>
        r := Threw(t);
      case NoWinner =>
        r := Returned(false);
    }

    method Use(name: string)
      modifies helper.store
      ensures helper.store.items == WithActiveName(old(helper.store.items), name)
      ensures ActiveStrategy() == Resolve(strategies, name)
    {
      helper.SetActiveStrategyName(name);
    }

    method Clear()
      modifies helper.store
      ensures helper.store.items == WithStartUrl(WithActiveName(old(helper.store.items), EmptyStrategies.NAME), Some(origin))
    {
      helper.SetActiveStrategyName(EmptyStrategies.NAME);
      helper.SetStartUrl(Some(origin));
    }
  }

  /** A listed network code at the first decisive index throws a NetworkError with the reason's message. */
  lemma AuthorizerEscalation(keys: seq<string>, networkErrors: set<string>, certCode: string,
                             outs: seq<Outcome>, k: nat)
    requires |outs| == |keys| && k < |keys| && Undecided(Authorizer(networkErrors, certCode), outs, 0, k)
    requires outs[k].Rejected? && outs[k].reason.code.Some? && outs[k].reason.code.value in networkErrors
    ensures FoldDecision(keys, Authorizer(networkErrors, certCode), outs) ==
              Decision(Threw(Raised(NetworkError(outs[k].reason.message))), None)
  {
    EarlierRejectionThrows(keys, Authorizer(networkErrors, certCode), outs, k);
  }
}
