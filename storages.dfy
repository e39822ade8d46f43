/**
 * The browser's Web Storage areas (`window.localStorage`, `window.sessionStorage`),
 * which every helper and strategy reads and writes directly.
 */
module Storages {
  import opened Common

  /** The `StorageType` names accepted by `window[type]`. */
  datatype StorageType = LocalStorage | SessionStorage

  /** One Storage area: string keys to string values. */
  class Storage {
    var items: map<string, string>

    constructor ()
      ensures items == map[]
    {
      items := map[];
    }

    /** `getItem(key)`: the stored value, or `null` when the key is absent. */
    function GetItem(key: string): Option<string>
      reads this
    {
      if key in items then Some(items[key]) else None
    }

    method SetItem(key: string, value: string)
      modifies this
      ensures items == old(items)[key := value]
      ensures GetItem(key) == Some(value)
    {
      items := items[key := value];
    }

    method RemoveItem(key: string)
      modifies this
      ensures items == old(items) - {key}
      ensures GetItem(key) == None
    {
      items := items - {key};
    }

    /** `clear()`: every key is removed. */
    method Clear()
      modifies this
      ensures items == map[]
    {
      items := map[];
    }
  }

  /** The contents of both areas as one value. */
  datatype Stores = Stores(local: map<string, string>, session: map<string, string>) {
    function Area(t: StorageType): map<string, string> {
      match t
      case LocalStorage => local
      case SessionStorage => session
    }

    function Get(t: StorageType, key: string): Option<string> {
      if key in Area(t) then Some(Area(t)[key]) else None
    }

    /** `window[t].setItem(key, value)` */
    function Set(t: StorageType, key: string, value: string): (r: Stores)
      ensures r.Get(t, key) == Some(value)
      ensures forall k :: k != key ==> r.Get(t, k) == Get(t, k)
      ensures forall u :: u != t ==> r.Area(u) == Area(u)
    {
      match t
      case LocalStorage => this.(local := local[key := value])
      case SessionStorage => this.(session := session[key := value])
    }

    /** `window[t].removeItem(key)` */
    function Remove(t: StorageType, key: string): (r: Stores)
      ensures r.Get(t, key) == None
      ensures forall k :: k != key ==> r.Get(t, k) == Get(t, k)
      ensures forall u :: u != t ==> r.Area(u) == Area(u)
    {
      match t
      case LocalStorage => this.(local := local - {key})
      case SessionStorage => this.(session := session - {key})
    }
  }

  /** `window`: the two storage areas, which are distinct objects. */
  class Browser {
    const localStorage: Storage
    const sessionStorage: Storage

    ghost predicate Valid() {
      localStorage != sessionStorage
    }

    constructor ()
      ensures Valid() && fresh(localStorage) && fresh(sessionStorage)
      ensures Snapshot() == Stores(map[], map[])
    {
      localStorage := new Storage();
      sessionStorage := new Storage();
    }

    /** `window[t]` */
    function GetStorage(t: StorageType): (s: Storage)
      ensures s == localStorage || s == sessionStorage
    {
      match t
      case LocalStorage => localStorage
      case SessionStorage => sessionStorage
    }

    function Snapshot(): Stores
      reads localStorage, sessionStorage
    {
      Stores(localStorage.items, sessionStorage.items)
    }

    /** `window[t].setItem(key, value)` */
    method SetItem(t: StorageType, key: string, value: string)
      requires Valid()
      modifies localStorage, sessionStorage
      ensures Snapshot() == old(Snapshot()).Set(t, key, value)
    {
      GetStorage(t).SetItem(key, value);
    }

    /** `window[t].removeItem(key)` */
    method RemoveItem(t: StorageType, key: string)
      requires Valid()
      modifies localStorage, sessionStorage
      ensures Snapshot() == old(Snapshot()).Remove(t, key)
    {
      GetStorage(t).RemoveItem(key);
    }
  }
}
