/** The query string of the page as the table filters see it: a
    `URLSearchParams`, an ordered list of key/value pairs in which a key may
    repeat. The filters only delete, set and append. */
module SearchParams {
  import opened Common

  type Entry = (string, string)

  /** The entries whose key is not in `ks`, in their order. */
  function Drop(s: seq<Entry>, ks: set<string>): (r: seq<Entry>)
    ensures |r| <= |s|
    ensures forall i :: 0 <= i < |r| ==> r[i].0 !in ks
    ensures forall e :: e in r <==> e in s && e.0 !in ks
  {
    if s == [] then []
    else if s[0].0 in ks then Drop(s[1..], ks)
    else [s[0]] + Drop(s[1..], ks)
  }

  /** `getAll(k)`: the values under `k`, in order. */
  function GetAll(s: seq<Entry>, k: string): (r: seq<string>)
    ensures |r| <= |s|
    ensures forall v :: v in r <==> (k, v) in s
  {
    if s == [] then []
    else (if s[0].0 == k then [s[0].1] else []) + GetAll(s[1..], k)
  }

  /** `get(k)`: the first value under `k`, or null. */
  function Get(s: seq<Entry>, k: string): (r: Option<string>)
    ensures r.None? <==> GetAll(s, k) == []
    ensures r.Some? ==> r.value == GetAll(s, k)[0]
  {
    if s == [] then None
    else if s[0].0 == k then Some(s[0].1)
    else Get(s[1..], k)
  }

  /** `set(k, v)`: the first entry under `k` takes the value and any later
      ones go; with no entry under `k`, the pair goes at the end. */
  function SetValue(s: seq<Entry>, k: string, v: string): (r: seq<Entry>)
    ensures (k, v) in r
    ensures forall e :: e in r && e.0 == k ==> e.1 == v
    // the entries before the first one under `k` keep their places
    ensures forall i :: 0 <= i < |s| && (forall j :: 0 <= j <= i ==> s[j].0 != k) ==> i < |r| && r[i] == s[i]
    // an existing key is overwritten, not appended to
    ensures (exists i :: 0 <= i < |s| && s[i].0 == k) ==> |r| <= |s|
    ensures |r| <= |s| + 1
  {
    if s == [] then [(k, v)]
    else if s[0].0 == k then [(k, v)] + Drop(s[1..], {k})
    else [s[0]] + SetValue(s[1..], k, v)
  }

  // ---------------------------------------------------------------- laws

  lemma {:induction false} DropAppend(s: seq<Entry>, t: seq<Entry>, ks: set<string>)
    ensures Drop(s + t, ks) == Drop(s, ks) + Drop(t, ks)
  {
    if s == [] {
      assert s + t == t;
    } else {
      assert (s + t)[0] == s[0] && (s + t)[1..] == s[1..] + t;
      DropAppend(s[1..], t, ks);
    }
  }

  /** Dropping twice drops both sets of keys. */
  lemma {:induction false} DropDrop(s: seq<Entry>, a: set<string>, b: set<string>)
    ensures Drop(Drop(s, a), b) == Drop(s, a + b)
  {
    if s != [] {
      DropDrop(s[1..], a, b);
    }
  }

  /** Dropping keys that are not there changes nothing. */
  lemma {:induction false} DropAbsent(s: seq<Entry>, ks: set<string>)
    requires forall i :: 0 <= i < |s| ==> s[i].0 !in ks
    ensures Drop(s, ks) == s
  {
    if s != [] {
      DropAbsent(s[1..], ks);
    }
  }

  /** Only the dropped keys lose their values. */
  lemma {:induction false} GetAllOfDrop(s: seq<Entry>, ks: set<string>, k: string)
    ensures k in ks ==> GetAll(Drop(s, ks), k) == []
    ensures k !in ks ==> GetAll(Drop(s, ks), k) == GetAll(s, k)
  {
    if s != [] {
      GetAllOfDrop(s[1..], ks, k);
    }
  }

  lemma {:induction false} GetAllAppend(s: seq<Entry>, t: seq<Entry>, k: string)
    ensures GetAll(s + t, k) == GetAll(s, k) + GetAll(t, k)
  {
    if s == [] {
      assert s + t == t;
    } else {
      assert (s + t)[0] == s[0] && (s + t)[1..] == s[1..] + t;
      GetAllAppend(s[1..], t, k);
    }
  }

  /** After `set(k, v)` the key holds exactly `v`, and the entries under
      every other key are as they were, in the same order. */
  lemma {:induction false} SetValueLaw(s: seq<Entry>, k: string, v: string, ks: set<string>)
    requires k in ks
    ensures GetAll(SetValue(s, k, v), k) == [v]
    ensures Drop(SetValue(s, k, v), ks) == Drop(s, ks)
  {
    if s == [] {
    } else if s[0].0 == k {
      GetAllOfDrop(s[1..], {k}, k);
      DropDrop(s[1..], {k}, ks);
      assert {k} + ks == ks;
    } else {
      SetValueLaw(s[1..], k, v, ks);
    }
  }

  /** After `append(k, v)`, `v` is the last value under `k`, and the other
      keys are untouched. */
  lemma AppendLaw(s: seq<Entry>, k: string, v: string, ks: set<string>)
    requires k in ks
    ensures GetAll(s + [(k, v)], k) == GetAll(s, k) + [v]
    ensures Drop(s + [(k, v)], ks) == Drop(s, ks)
  {
    GetAllAppend(s, [(k, v)], k);
    DropAppend(s, [(k, v)], ks);
    assert GetAll([(k, v)], k) == [v];
    assert Drop([(k, v)], ks) == [];
  }

  /** The values under a key that is untouched by an update of key `k`. */
  lemma OtherKeyUnchanged(s: seq<Entry>, t: seq<Entry>, k: string, other: string)
    requires Drop(t, {k}) == Drop(s, {k})
    requires other != k
    ensures GetAll(t, other) == GetAll(s, other)
  {
    GetAllOfDrop(s, {k}, other);
    GetAllOfDrop(t, {k}, other);
  }

  // ---------------------------------------------------------------- the object

  class Params {
    var entries: seq<Entry>

    constructor(init: seq<Entry>)
      ensures entries == init
    {
      entries := init;
    }

    method Delete(k: string)
      modifies this
      ensures entries == Drop(old(entries), {k})
    {
      entries := Drop(entries, {k});
    }

    method Set(k: string, v: string)
      modifies this
      ensures entries == SetValue(old(entries), k, v)
    {
      entries := SetValue(entries, k, v);
    }

    method Append(k: string, v: string)
      modifies this
      ensures entries == old(entries) + [(k, v)]
    {
      entries := entries + [(k, v)];
    }
  }
}
