/**
 * `AuthStrategyManager` of packages/core/src/auth-strategy-manager.ts: the
 * registry of strategies, the resolved active strategy, the multi-strategy
 * `checkAuth`, and `use` / `clear` over the shared strategy helper.
 */
module CoreManager {
  import opened Common
  import opened Errors
  import opened Helpers
  import opened Registries
  import opened Probes
  import EmptyStrategies

  /** A single strategy is awaited directly: its value is returned and its rejection propagates unchanged. */
  function PassThrough(o: Outcome): CheckResult {
    match o
    case Fulfilled(v) => Returned(v)
    case Rejected(r) => Threw(Raw(r))
  }

  /** What `checkAuth` returns and writes, given the record's keys and the settled probes. */
  function CheckAuthSpec(keys: seq<string>, network: string, timeout: string, cert: string, outs: seq<Outcome>): Decision
    requires |outs| == |keys|
  {
    if |keys| == 1 then Decision(PassThrough(outs[0]), None)
    else FoldDecision(keys, Current(network, timeout, cert), outs)
  }

  /** One registered strategy, of any kind: its result is returned as it is and no name is written. */
  lemma SingleStrategyPassesThrough(key: string, network: string, timeout: string, cert: string, o: Outcome)
    ensures CheckAuthSpec([key], network, timeout, cert, [o]).activate == None
    ensures o.Fulfilled? ==> CheckAuthSpec([key], network, timeout, cert, [o]).result == Returned(o.value)
    ensures o.Rejected? ==> CheckAuthSpec([key], network, timeout, cert, [o]).result == Threw(Raw(o.reason))
  {
  }

  /** No strategies: `false`, and the active name is not written. */
  lemma NoStrategies(network: string, timeout: string, cert: string)
    ensures CheckAuthSpec([], network, timeout, cert, []) == Decision(Returned(false), None)
  {
  }

  /** Two or more strategies: the first success in key order wins and becomes active. */
  lemma MultiFirstSuccess(keys: seq<string>, network: string, timeout: string, cert: string, outs: seq<Outcome>, k: nat)
    requires |outs| == |keys| && |keys| >= 2 && k < |keys|
    requires outs[k] == Fulfilled(true) && Undecided(Current(network, timeout, cert), outs, 0, k)
    ensures CheckAuthSpec(keys, network, timeout, cert, outs) == Decision(Returned(true), Some(keys[k]))
  {
    FirstSuccessWins(keys, Current(network, timeout, cert), outs, k);
  }

  /** Two or more strategies and nothing decisive: `false` and no write. */
  lemma MultiNothingDecisive(keys: seq<string>, network: string, timeout: string, cert: string, outs: seq<Outcome>)
    requires |outs| == |keys| && |keys| >= 2
    requires Undecided(Current(network, timeout, cert), outs, 0, |outs|)
    ensures CheckAuthSpec(keys, network, timeout, cert, outs) == Decision(Returned(false), None)
  {
    NothingDecisive(keys, Current(network, timeout, cert), outs);
  }

  /**
   * Two or more strategies, and a network-keyed rejection at the first decisive
   * index: a NetworkError with the rejection's message is thrown, even when a
   * later strategy succeeded.
   */
  lemma MultiNetworkRejection(keys: seq<string>, network: string, timeout: string, cert: string,
                              outs: seq<Outcome>, k: nat, message: Option<string>)
    requires |outs| == |keys| && |keys| >= 2 && k < |keys|
    requires outs[k] == Rejected(Reason(Some(network), message)) || outs[k] == Rejected(Reason(None, Some(network)))
    requires Undecided(Current(network, timeout, cert), outs, 0, k)
    ensures CheckAuthSpec(keys, network, timeout, cert, outs).result == Threw(Raised(NetworkError(outs[k].reason.message)))
    ensures CheckAuthSpec(keys, network, timeout, cert, outs).activate == None
  {
    EarlierRejectionThrows(keys, Current(network, timeout, cert), outs, k);
  }

  /** The store after `clear`: active name `'empty'`, start URL the origin. */
  function ClearedStore(items: map<string, string>, origin: string): map<string, string> {
    WithStartUrl(WithActiveName(items, EmptyStrategies.NAME), Some(origin))
  }

  /** A second `clear` leaves the store as the first left it. */
  lemma ClearIdempotent(items: map<string, string>, origin: string)
    ensures ClearedStore(ClearedStore(items, origin), origin) == ClearedStore(items, origin)
    ensures ActiveNameIn(ClearedStore(items, origin)) == EmptyStrategies.NAME
    ensures origin != "" ==> StartUrlIn(ClearedStore(items, origin), origin) == origin
  {
  }

  class AuthStrategyManager {
    var strategiesCount: nat
    var strategies: Registry
    const helper: StrategyHelper
    /** The module's `startUrl` constant (the origin). */
    const origin: string
    /** NETWORK_ERROR_CODE, TIMEOUT_3RD_PARTY_ERROR_CODE and CERT_ERROR_CODE. */
    const network: string
    const timeout: string
    const cert: string

    ghost predicate Valid()
      reads this
    {
      strategies.Valid()
    }

    /** `new AuthStrategyManager(strategies?)` */
    constructor (list: Option<seq<Strategy>>, helper: StrategyHelper, origin: string,
                 network: string, timeout: string, cert: string)
      ensures Valid()
      ensures strategiesCount == (if list.Some? then |list.value| else 0)
      ensures strategies == Build(list.GetOr([]))
      ensures this.helper == helper && this.origin == origin
      ensures this.network == network && this.timeout == timeout && this.cert == cert
    {
      this.helper := helper;
      this.origin := origin;
      this.network, this.timeout, this.cert := network, timeout, cert;
      strategiesCount := if list.Some? then |list.value| else 0;
      strategies := Build(list.GetOr([]));
    }

    /** The `strategy` getter; a function, so it changes nothing. */
    function ActiveStrategy(): Strategy
      reads this, helper.store
    {
      Resolve(strategies, helper.ActiveStrategyName())
    }

    function StartUrl(): string
      reads helper.store
    {
      helper.StartUrl()
    }

    method SetStartUrl(url: string)
      modifies helper.store
      ensures helper.store.items == WithStartUrl(old(helper.store.items), Some(url))
    {
      helper.SetStartUrl(Some(url));
    }

    /** `checkAuth`, given how each strategy's `checkAuth` settled, in key order. */
    method CheckAuth(outcomes: seq<Outcome>) returns (r: CheckResult)
      requires |outcomes| == |strategies.keys|
      modifies helper.store
      ensures r == CheckAuthSpec(strategies.keys, network, timeout, cert, outcomes).result
      ensures helper.store.items ==
                Activated(old(helper.store.items), CheckAuthSpec(strategies.keys, network, timeout, cert, outcomes).activate)
    {
      if |strategies.keys| == 1 {
        return PassThrough(outcomes[0]);
      }
      var v := FoldOutcomes(Current(network, timeout, cert), outcomes);
      match v
      case Winner(index) =>
        helper.SetActiveStrategyName(strategies.keys[index]);
        r := Returned(true);
      case Escalated(t) =>
        r := Threw(t);
      case NoWinner =>
        r := Returned(false);
    }

    /** The record is rebuilt from the list; the count is the list's length, duplicates included. */
    method SetStrategies(list: seq<Strategy>)
      modifies this
      ensures Valid()
      ensures strategiesCount == |list| && strategies == Build(list)
    {
      strategiesCount := |list|;
      strategies := Build(list);
    }

    /** The name is stored as given, without looking at the record. */
    method Use(name: string)
      modifies helper.store
      ensures helper.store.items == WithActiveName(old(helper.store.items), name)
      ensures ActiveStrategy() == Resolve(strategies, name)
    {
      helper.SetActiveStrategyName(name);
    }

    /**
     * Calls the active strategy's optional `clear` (returned as `cleared`), then
     * sets the active name to `'empty'` and the start URL to the origin.
     */
    method Clear() returns (cleared: Option<Strategy>)
      modifies helper.store
      ensures cleared == if old(ActiveStrategy()).hasClear then Some(old(ActiveStrategy())) else None
      ensures helper.store.items == ClearedStore(old(helper.store.items), origin)
      ensures ActiveStrategy() == Resolve(strategies, EmptyStrategies.NAME)
    {
      var s := ActiveStrategy();
      cleared := if s.hasClear then Some(s) else None;
      helper.SetActiveStrategyName(EmptyStrategies.NAME);
      helper.SetStartUrl(Some(origin));
    }
  }

  /** `setStrategies` replaces the whole record: the same list twice gives the state of once. */
  method SetStrategiesTwice(m: AuthStrategyManager, list: seq<Strategy>)
    modifies m
    ensures m.strategiesCount == |list| && m.strategies == Build(list)
  {
    m.SetStrategies(list);
    m.SetStrategies(list);
  }

  /** A name that is not registered resolves to the EmptyStrategy after `use`. */
  method UseUnknownName(m: AuthStrategyManager, name: string)
    requires m.Valid() && name !in m.strategies.keys
    modifies m.helper.store
    ensures m.ActiveStrategy() == EmptyStrategy
  {
    m.Use(name);
  }

  /** Two `clear` calls leave the store of one; the second finds no `clear` to call unless `'empty'` is registered. */
  method ClearTwice(m: AuthStrategyManager) returns (second: Option<Strategy>)
    requires m.Valid()
    modifies m.helper.store
    ensures m.helper.store.items == ClearedStore(old(m.helper.store.items), m.origin)
    ensures EmptyStrategies.NAME !in m.strategies.table ==> second == None
  {
    var _ := m.Clear();
    second := m.Clear();
    ClearIdempotent(old(m.helper.store.items), m.origin);
  }
}
