/**
 * The name-to-strategy record every orchestrator builds with
 * `strategies.reduce((acc, s) => { acc[s.name] = s; return acc }, {})`, and
 * the `strategy` getter that resolves the persisted active name against it.
 * A JavaScript object keeps its keys in first-insertion order and an
 * assignment to an existing key replaces the value in place, so the record is
 * the key order plus a table.
 */
module Registries {
  import EmptyStrategies

  /**
   * What an orchestrator sees of a strategy: its name, whether it is a
   * KeycloakStrategy (the `instanceof` test) and whether it has the optional
   * `clear` method.
   */
  datatype Strategy = Strategy(name: string, isKeycloak: bool, hasClear: bool)

  /** The EmptyStrategy instance: name `'empty'`, not Keycloak, no `clear`. */
  const EmptyStrategy := Strategy(EmptyStrategies.NAME, false, false)

  /** `Object.keys(record)` and the record's values. */
  datatype Registry = Registry(keys: seq<string>, table: map<string, Strategy>) {
    ghost predicate Valid() {
      && (forall i, j :: 0 <= i < j < |keys| ==> keys[i] != keys[j])
      && (forall n :: n in table <==> n in keys)
      && (forall n :: n in table ==> table[n].name == n)
    }
  }

  /** `acc[strategy.name] = strategy` */
  function Register(acc: Registry, s: Strategy): Registry {
    if s.name in acc.table then Registry(acc.keys, acc.table[s.name := s])
    else Registry(acc.keys + [s.name], acc.table[s.name := s])
  }

  /** The reduce over the list, from `{}`. */
  function Build(list: seq<Strategy>): (r: Registry)
    ensures r.Valid()
    ensures |r.keys| <= |list|
  {
    if list == [] then Registry([], map[])
    else Register(Build(list[..|list| - 1]), list[|list| - 1])
  }

  /** The names of the list, in list order. */
  function Names(list: seq<Strategy>): (ns: seq<string>)
    ensures |ns| == |list| && forall i :: 0 <= i < |list| ==> ns[i] == list[i].name
  {
    if list == [] then [] else Names(list[..|list| - 1]) + [list[|list| - 1].name]
  }

  predicate NamesDistinct(list: seq<Strategy>) {
    forall i, j :: 0 <= i < j < |list| ==> list[i].name != list[j].name
  }

  /** The last entry of the list that carries `n`, an independent reading of "last one wins". */
  function LastNamed(list: seq<Strategy>, n: string): (s: Strategy)
    requires n in Names(list)
    ensures s in list && s.name == n
  {
    if list[|list| - 1].name == n then list[|list| - 1]
    else
      assert n in Names(list[..|list| - 1]) by {
        var i :| 0 <= i < |list| && Names(list)[i] == n;
        assert Names(list[..|list| - 1])[i] == n;
      }
      LastNamed(list[..|list| - 1], n)
  }

  /** The record holds exactly the names of the list, each bound to its LAST entry. */
  lemma {:induction false} BuildContents(list: seq<Strategy>, n: string)
    ensures n in Build(list).table <==> n in Names(list)
    ensures n in Names(list) ==> Build(list).table[n] == LastNamed(list, n)
  {
    if list != [] {
      var init := list[..|list| - 1];
      BuildContents(init, n);
      assert Names(list) == Names(init) + [list[|list| - 1].name];
    }
  }

  /** Without duplicates the key order is the list order. */
  lemma {:induction false} BuildKeysInOrder(list: seq<Strategy>)
    requires NamesDistinct(list)
    ensures Build(list).keys == Names(list)
  {
    if list != [] {
      var init := list[..|list| - 1];
      var last := list[|list| - 1];
      assert NamesDistinct(init) by {
        forall i, j | 0 <= i < j < |init| ensures init[i].name != init[j].name {
          assert init[i] == list[i] && init[j] == list[j];
        }
      }
      BuildKeysInOrder(init);
      BuildContents(init, last.name);
      assert last.name !in Names(init);
      assert Names(list) == Names(init) + [last.name];
    }
  }

  /** With a duplicate name there are fewer keys than entries. */
  lemma {:induction false} BuildKeysFewer(list: seq<Strategy>)
    requires !NamesDistinct(list)
    ensures |Build(list).keys| < |list|
  {
    var init := list[..|list| - 1];
    var last := list[|list| - 1];
    assert |Build(init).keys| <= |init|;
    if !NamesDistinct(init) {
      BuildKeysFewer(init);
    } else {
      forall a, b | 0 <= a < b < |init| ensures list[a].name != list[b].name {
        assert init[a] == list[a] && init[b] == list[b];
      }
      var i, j :| 0 <= i < j < |list| && list[i].name == list[j].name;
      assert j == |list| - 1;
      assert Names(init)[i] == last.name;
      BuildContents(init, last.name);
      assert Build(list).keys == Build(init).keys;
    }
  }

  /** The `strategy` getter: `''` or an unmapped name gives the EmptyStrategy. */
  function Resolve(r: Registry, active: string): Strategy {
    if active == "" then EmptyStrategy
    else if active in r.table then r.table[active]
    else EmptyStrategy
  }

  /** Resolution never fails: it is either the strategy of that name or the EmptyStrategy. */
  lemma ResolveTotal(r: Registry, active: string)
    requires r.Valid()
    ensures Resolve(r, active) == EmptyStrategy || (active != "" && active in r.keys && Resolve(r, active).name == active)
    ensures active != "" && active !in r.keys ==> Resolve(r, active) == EmptyStrategy
  {
  }

  /** After `setStrategies(list)`, a name resolves to the last list entry that carries it. */
  lemma ResolveAfterBuild(list: seq<Strategy>, n: string)
    requires n != ""
    ensures n in Names(list) ==> Resolve(Build(list), n) == LastNamed(list, n)
    ensures n !in Names(list) ==> Resolve(Build(list), n) == EmptyStrategy
  {
    BuildContents(list, n);
  }
}
