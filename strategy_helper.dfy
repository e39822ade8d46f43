/**
 * `StrategyHelper` (packages/core/src/helpers/strategy-helper.ts): the
 * persisted active-strategy name and start URL, kept in localStorage under
 * two fixed keys, plus an in-memory `isAuthenticated` flag per helper.
 */
module Helpers {
  import opened Common
  import opened Storages

  const TYPE_KEY := "authStrategyName"
  const START_URL_KEY := "startUrl"

  /** The `activeStrategyName` getter on a localStorage snapshot: `getItem(TYPE_KEY) ?? ''`. */
  function ActiveNameIn(items: map<string, string>): string {
    if TYPE_KEY in items then items[TYPE_KEY] else ""
  }

  /** The `activeStrategyName` setter: an empty name removes the key. */
  function WithActiveName(items: map<string, string>, name: string): (r: map<string, string>)
    ensures ActiveNameIn(r) == name
    ensures name == "" <==> TYPE_KEY !in r
    ensures forall k :: k != TYPE_KEY ==> (k in r <==> k in items) && (k in r ==> r[k] == items[k])
  {
    if name == "" then items - {TYPE_KEY} else items[TYPE_KEY := name]
  }

  /** A write of the name when one was decided, no write otherwise. */
  function Activated(items: map<string, string>, name: Option<string>): map<string, string> {
    match name
    case None => items
    case Some(n) => WithActiveName(items, n)
  }

  /** The `startUrl` getter: the stored URL, or the origin when the key is absent. */
  function StartUrlIn(items: map<string, string>, origin: string): string {
    if START_URL_KEY in items then items[START_URL_KEY] else origin
  }

  /** The `startUrl` setter: a truthy URL is stored, `''` or undefined removes the key. */
  function WithStartUrl(items: map<string, string>, url: Option<string>): (r: map<string, string>)
    ensures forall origin :: StartUrlIn(r, origin) == (if Truthy(url) then url.value else origin)
    ensures ActiveNameIn(r) == ActiveNameIn(items)
  {
    if Truthy(url) then items[START_URL_KEY := url.value] else items - {START_URL_KEY}
  }

  /** Setting a name and reading it back gives the name; the start URL is not touched. */
  lemma ActiveNameRoundTrip(items: map<string, string>, name: string, origin: string)
    ensures ActiveNameIn(WithActiveName(items, name)) == name
    ensures StartUrlIn(WithActiveName(items, name), origin) == StartUrlIn(items, origin)
    ensures name == "" ==> TYPE_KEY !in WithActiveName(items, name)
  {
  }

  /** Setting `''` (or undefined) makes the next read return the default again. */
  lemma StartUrlRoundTrip(items: map<string, string>, url: Option<string>, origin: string)
    ensures StartUrlIn(WithStartUrl(items, url), origin) == (if Truthy(url) then url.value else origin)
    ensures !Truthy(url) ==> START_URL_KEY !in WithStartUrl(items, url)
  {
  }

  class StrategyHelper {
    /** localStorage: the one area every helper instance reads and writes. */
    const store: Storage
    /** The module's `startUrl` constant, the getter's default. */
    const origin: string
    var isAuthenticated: bool

    constructor (store: Storage, origin: string)
      ensures this.store == store && this.origin == origin && !isAuthenticated
    {
      this.store := store;
      this.origin := origin;
      isAuthenticated := false;
    }

    function ActiveStrategyName(): string
      reads store
    {
      ActiveNameIn(store.items)
    }

    method SetActiveStrategyName(name: string)
      modifies store
      ensures store.items == WithActiveName(old(store.items), name)
      ensures ActiveStrategyName() == name
    {
      if name == "" {
        store.RemoveItem(TYPE_KEY);
      } else {
        store.SetItem(TYPE_KEY, name);
      }
    }

    function StartUrl(): string
      reads store
    {
      StartUrlIn(store.items, origin)
    }

    method SetStartUrl(url: Option<string>)
      modifies store
      ensures store.items == WithStartUrl(old(store.items), url)
      ensures StartUrl() == if Truthy(url) then url.value else origin
    {
      if Truthy(url) {
        store.SetItem(START_URL_KEY, url.value);
      } else {
        store.RemoveItem(START_URL_KEY);
      }
    }

    /** Removes the active-name key only; the start URL stays. */
    method ClearStorage()
      modifies store
      ensures store.items == old(store.items) - {TYPE_KEY}
      ensures ActiveStrategyName() == "" && StartUrl() == old(StartUrl())
    {
      store.RemoveItem(TYPE_KEY);
    }

    /** `clearStorage()` and `isAuthenticated = false`. */
    method Reset()
      modifies this, store
      ensures store.items == old(store.items) - {TYPE_KEY} && !isAuthenticated
    {
      ClearStorage();
      isAuthenticated := false;
    }
  }

  /** Two resets leave the state of one: `reset` is idempotent. */
  method ResetTwice(h: StrategyHelper)
    modifies h, h.store
    ensures h.store.items == old(h.store.items) - {TYPE_KEY} && !h.isAuthenticated
  {
    h.Reset();
    ghost var once := h.store.items;
    h.Reset();
    assert h.store.items == once;
  }

  /** A name written through one helper is read by every helper over the same store. */
  method SharedStore(writer: StrategyHelper, reader: StrategyHelper, name: string)
    requires writer.store == reader.store
    modifies writer.store
    ensures reader.ActiveStrategyName() == name
  {
    writer.SetActiveStrategyName(name);
  }
}
