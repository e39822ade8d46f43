/**
 * `ErrorManagerModel` of example/models/error-manager-model.ts: a record of
 * messages per field. A JavaScript object keeps its (non-numeric) keys in
 * first-insertion order, and `Object.values` lists the values in that
 * order, so the record is a sequence of entries with distinct keys.
 */
module ErrorManager {
  import opened Common

  datatype Entry = Entry(key: string, value: string)

  function Keys(d: seq<Entry>): (ks: seq<string>)
    ensures |ks| == |d| && forall i :: 0 <= i < |d| ==> ks[i] == d[i].key
  {
    if d == [] then [] else [d[0].key] + Keys(d[1..])
  }

  /** No key appears twice: what an object's own properties guarantee. */
  predicate UniqueKeys(d: seq<Entry>) {
    forall i, j :: 0 <= i < j < |d| ==> d[i].key != d[j].key
  }

  /** `data[key]`, with `None` for undefined. */
  function Lookup(d: seq<Entry>, key: string): (r: Option<string>)
    ensures r.Some? <==> key in Keys(d)
    ensures r.Some? ==> exists i :: 0 <= i < |d| && d[i] == Entry(key, r.value)
  {
    if d == [] then None
    else if d[0].key == key then Some(d[0].value)
    else Lookup(d[1..], key)
  }

  /**
   * `data[key] = value`: a key already present keeps its place and takes the
   * new value; a new key goes last.
   */
  function Assign(d: seq<Entry>, key: string, value: string): (r: seq<Entry>)
    ensures key !in Keys(d) ==> r == d + [Entry(key, value)]
    ensures |r| == if key in Keys(d) then |d| else |d| + 1
  {
    if d == [] then [Entry(key, value)]
    else if d[0].key == key then [Entry(key, value)] + d[1..]
    else
      assert Keys(d[1..]) == Keys(d)[1..];
      [d[0]] + Assign(d[1..], key, value)
  }

  /** After the assignment the key reads the new value and every other key reads as before. */
  lemma {:induction false} AssignLookup(d: seq<Entry>, key: string, value: string)
    ensures Lookup(Assign(d, key, value), key) == Some(value)
    ensures forall k :: k != key ==> Lookup(Assign(d, key, value), k) == Lookup(d, k)
  {
    if d != [] && d[0].key != key {
      AssignLookup(d[1..], key, value);
    }
  }

  /** Re-assigning a present key changes no key's position. */
  lemma {:induction false} AssignKeepsOrder(d: seq<Entry>, key: string, value: string)
    requires key in Keys(d)
    ensures Keys(Assign(d, key, value)) == Keys(d)
  {
    if d[0].key != key {
      assert Keys(d[1..]) == Keys(d)[1..];
      AssignKeepsOrder(d[1..], key, value);
      assert Keys(Assign(d, key, value)) == [d[0].key] + Keys(Assign(d[1..], key, value));
    } else {
      assert Keys(Assign(d, key, value)) == [key] + Keys(d[1..]);
    }
  }

  /** Assignment keeps the keys distinct. */
  lemma {:induction false} AssignUnique(d: seq<Entry>, key: string, value: string)
    requires UniqueKeys(d)
    ensures UniqueKeys(Assign(d, key, value))
  {
    if key in Keys(d) {
      AssignKeepsOrder(d, key, value);
      var r := Assign(d, key, value);
      assert forall i :: 0 <= i < |r| ==> r[i].key == Keys(r)[i];
    } else {
      var r := Assign(d, key, value);
      assert forall i :: 0 <= i < |d| ==> r[i] == d[i] && d[i].key != key;
    }
  }

  /** `Object.values(data).join('')` */
  function Join(d: seq<Entry>): string {
    if d == [] then "" else Join(d[..|d| - 1]) + d[|d| - 1].value
  }

  /** Appending an entry appends its message and nothing else. */
  lemma JoinAppend(d: seq<Entry>, e: Entry)
    ensures Join(d + [e]) == Join(d) + e.value
  {
    assert (d + [e])[..|d + [e]| - 1] == d;
  }

  /** The joined text is the messages, in insertion order, with no separator. */
  lemma {:induction false} JoinConcatenates(d: seq<Entry>, e: seq<Entry>)
    ensures Join(d + e) == Join(d) + Join(e)
    decreases |e|
  {
    if e == [] {
      assert d + e == d;
    } else {
      var init := e[..|e| - 1];
      var last := e[|e| - 1];
      assert d + e == (d + init) + [last];
      assert e == init + [last];
      JoinAppend(d + init, last);
      JoinAppend(init, last);
      JoinConcatenates(d, init);
    }
  }

  /** A first message for a new field is appended to the text. */
  lemma JoinAssignNew(d: seq<Entry>, key: string, value: string)
    requires key !in Keys(d)
    ensures Join(Assign(d, key, value)) == Join(d) + value
  {
    JoinAppend(d, Entry(key, value));
  }

  class ErrorManagerModel {
    var data: seq<Entry>

    constructor ()
      ensures data == [] && ToString() == ""
    {
      data := [];
    }

    function ToString(): string
      reads this
    {
      Join(data)
    }

    /** `data = {}` */
    method Clear()
      modifies this
      ensures data == [] && ToString() == ""
    {
      data := [];
    }
  }

  /** A second `clear` leaves the state of the first. */
  method ClearTwice(m: ErrorManagerModel)
    modifies m
    ensures m.data == [] && m.ToString() == ""
  {
    m.Clear();
    ghost var once := m.data;
    m.Clear();
    assert m.data == once;
  }
}
