/** Shared vocabulary of the back-office model: optional values, the two
    currencies, the rate types the forms offer, money rounding, and the
    sequence operations (filter, column sum, sort) that the components use. */
module Common {

  /** A JavaScript value that may be `null`/`undefined`. */
  datatype Option<T> = None | Some(value: T)

  /** The result of a call into the backend: the data, or the error it threw. */
  datatype Result<T> = Ok(data: T) | Err(message: string)

  /** `moneda_origen_enum` / `MonedaOrigenEnum`. */
  datatype Currency = USD | VES

  /** The four rate types the forms offer: paralelo, BCV, promedio and a custom (manual) rate. */
  datatype RateType = Paralelo | Bcv | Promedio | Custom

  /** `x || null` on an optional string: the empty string counts as missing. */
  function OrNull(x: Option<string>): (r: Option<string>)
    ensures r.Some? <==> x.Some? && x.value != ""
    ensures r.Some? ==> r == x
  {
    if x.Some? && x.value != "" then x else None
  }

  /** `!x` on an optional string: missing or empty. */
  predicate Blank(x: Option<string>)
  {
    x.None? || x.value == ""
  }

  /** JavaScript truthiness of an optional amount: present and non-zero. */
  predicate Truthy(x: Option<real>)
  {
    x.Some? && x.value != 0.0
  }

  /** `x ?? 0` on an optional amount. */
  function OrZero(x: Option<real>): real
  {
    if x.Some? then x.value else 0.0
  }

  /** `Number.parseFloat(x.toFixed(2))`, modelled as rounding half up to the cent. */
  function Round2(x: real): (r: real)
    ensures x - 0.005 < r <= x + 0.005
    ensures (r * 100.0).Floor as real == r * 100.0
  {
    ((x * 100.0 + 0.5).Floor as real) / 100.0
  }

  /** `Math.round`: the nearest integer, halves rounded up. */
  function JsRound(x: real): (r: int)
    ensures x - 0.5 < r as real <= x + 0.5
  {
    (x + 0.5).Floor
  }

  // ---------------------------------------------------------------- sums

  /** `s.reduce((acc, x) => acc + f(x), 0)`. */
  function SumOf<T>(s: seq<T>, f: T -> real): real
  {
    if s == [] then 0.0 else f(s[0]) + SumOf(s[1..], f)
  }

  lemma {:induction false} SumOfAppend<T>(s: seq<T>, t: seq<T>, f: T -> real)
    ensures SumOf(s + t, f) == SumOf(s, f) + SumOf(t, f)
  {
    if s == [] {
      assert s + t == t;
    } else {
      assert (s + t)[1..] == s[1..] + t;
      SumOfAppend(s[1..], t, f);
    }
  }

  lemma SumOfSingleton<T>(x: T, f: T -> real)
    ensures SumOf([x], f) == f(x)
  {
    assert [x][1..] == [];
  }

  /** Changing one row changes a column sum by the difference. */
  lemma {:induction false} SumOfUpdate<T>(s: seq<T>, j: int, x: T, f: T -> real)
    requires 0 <= j < |s|
    ensures SumOf(s[j := x], f) == SumOf(s, f) - f(s[j]) + f(x)
  {
    if j > 0 {
      assert s[j := x][1..] == s[1..][j - 1 := x];
      SumOfUpdate(s[1..], j - 1, x, f);
    } else {
      assert s[j := x][1..] == s[1..];
    }
  }

  /** A column sum does not depend on the order of the rows. */
  lemma {:induction false} SumOfPermutation<T>(s: seq<T>, t: seq<T>, f: T -> real)
    requires multiset(s) == multiset(t)
    ensures SumOf(s, f) == SumOf(t, f)
    decreases |s|
  {
    if s == [] {
      assert |t| == |multiset(t)| == 0;
    } else {
      var x := s[0];
      assert x in multiset(t);
      var j :| 0 <= j < |t| && t[j] == x;
      var rest := t[..j] + t[j+1..];
      assert t == t[..j] + ([x] + t[j+1..]);
      SumOfAppend(t[..j], [x] + t[j+1..], f);
      assert ([x] + t[j+1..])[1..] == t[j+1..];
      SumOfAppend(t[..j], t[j+1..], f);
      assert s == [x] + s[1..];
      assert multiset(t) == multiset(t[..j]) + multiset{x} + multiset(t[j+1..]);
      assert multiset(rest) == multiset(t[..j]) + multiset(t[j+1..]);
      assert multiset(s) == multiset{x} + multiset(s[1..]);
      assert multiset(s[1..]) == multiset(s) - multiset{x};
      assert multiset(rest) == multiset(t) - multiset{x};
      SumOfPermutation(s[1..], rest, f);
    }
  }

  lemma {:induction false} SumOfZero<T>(s: seq<T>, f: T -> real)
    requires forall i :: 0 <= i < |s| ==> f(s[i]) == 0.0
    ensures SumOf(s, f) == 0.0
  {
    if s != [] {
      SumOfZero(s[1..], f);
    }
  }

  lemma {:induction false} SumOfNonNegative<T>(s: seq<T>, f: T -> real)
    requires forall i :: 0 <= i < |s| ==> f(s[i]) >= 0.0
    ensures SumOf(s, f) >= 0.0
  {
    if s != [] {
      SumOfNonNegative(s[1..], f);
    }
  }

  /** Pointwise smaller columns have a smaller sum. */
  lemma {:induction false} SumOfMonotone<T>(s: seq<T>, f: T -> real, g: T -> real)
    requires forall i :: 0 <= i < |s| ==> f(s[i]) <= g(s[i])
    ensures SumOf(s, f) <= SumOf(s, g)
  {
    if s != [] {
      SumOfMonotone(s[1..], f, g);
    }
  }

  lemma {:induction false} SumOfDifference<T>(s: seq<T>, f: T -> real, g: T -> real, h: T -> real)
    requires forall i :: 0 <= i < |s| ==> h(s[i]) == f(s[i]) - g(s[i])
    ensures SumOf(s, h) == SumOf(s, f) - SumOf(s, g)
  {
    if s != [] {
      SumOfDifference(s[1..], f, g, h);
    }
  }

  // ---------------------------------------------------------------- filter

  /** `r` keeps some of the elements of `s`, in their order. */
  predicate IsSubsequence<T(==)>(r: seq<T>, s: seq<T>)
    decreases |s|
  {
    r == [] || (s != [] && ((r[0] == s[0] && IsSubsequence(r[1..], s[1..])) || IsSubsequence(r, s[1..])))
  }

  /** `s.filter(p)`: exactly the elements satisfying `p`, with their multiplicities, in order. */
  function Filter<T(!new,==)>(s: seq<T>, p: T -> bool): (r: seq<T>)
    ensures forall x :: multiset(r)[x] == if p(x) then multiset(s)[x] else 0
    ensures forall x :: x in r <==> x in s && p(x)
    ensures forall i :: 0 <= i < |r| ==> p(r[i])
    ensures IsSubsequence(r, s)
    ensures |r| <= |s|
    decreases |s|
  {
    if s == [] then []
    else
      assert s == [s[0]] + s[1..];
      var rest := Filter(s[1..], p);
      if p(s[0]) then
        assert ([s[0]] + rest)[1..] == rest;
        [s[0]] + rest
      else rest
  }

  /** `Filter` one element at a time. */
  lemma FilterCons<T(!new)>(s: seq<T>, p: T -> bool)
    requires s != []
    ensures Filter(s, p) == (if p(s[0]) then [s[0]] else []) + Filter(s[1..], p)
  {
  }

  /** The same filter with no contract, to reason about concatenation. */
  function Keep<T>(s: seq<T>, p: T -> bool): seq<T>
  {
    if s == [] then [] else (if p(s[0]) then [s[0]] else []) + Keep(s[1..], p)
  }

  lemma {:induction false} FilterIsKeep<T(!new)>(s: seq<T>, p: T -> bool)
    ensures Filter(s, p) == Keep(s, p)
  {
    if s != [] {
      FilterCons(s, p);
      FilterIsKeep(s[1..], p);
    }
  }

  lemma {:induction false} KeepAppend<T>(s: seq<T>, t: seq<T>, p: T -> bool)
    ensures Keep(s + t, p) == Keep(s, p) + Keep(t, p)
  {
    if s == [] {
      assert s + t == t;
    } else {
      var h: seq<T> := if p(s[0]) then [s[0]] else [];
      assert (s + t)[0] == s[0] && (s + t)[1..] == s[1..] + t;
      calc {
        Keep(s + t, p);
        h + Keep(s[1..] + t, p);
      == { KeepAppend(s[1..], t, p); }
        h + (Keep(s[1..], p) + Keep(t, p));
        (h + Keep(s[1..], p)) + Keep(t, p);
        Keep(s, p) + Keep(t, p);
      }
    }
  }

  lemma FilterAppend<T(!new)>(s: seq<T>, t: seq<T>, p: T -> bool)
    ensures Filter(s + t, p) == Filter(s, p) + Filter(t, p)
  {
    FilterIsKeep(s + t, p);
    FilterIsKeep(s, p);
    FilterIsKeep(t, p);
    KeepAppend(s, t, p);
  }

  lemma {:induction false} FilterAll<T(!new)>(s: seq<T>, p: T -> bool)
    requires forall i :: 0 <= i < |s| ==> p(s[i])
    ensures Filter(s, p) == s
  {
    if s != [] {
      FilterAll(s[1..], p);
    }
  }

  lemma FilterSingleton<T(!new)>(x: T, p: T -> bool)
    ensures Filter([x], p) == if p(x) then [x] else []
  {
    assert [x][1..] == [];
  }

  // ---------------------------------------------------------------- lists keyed by id

  /** No two elements share an id. */
  ghost predicate UniqueIds<T>(s: seq<T>, idOf: T -> string)
  {
    forall i, j :: 0 <= i < j < |s| ==> idOf(s[i]) != idOf(s[j])
  }

  function NotId<T>(id: string, idOf: T -> string): T -> bool
  {
    (x: T) => idOf(x) != id
  }

  /** `s.filter(e => e.id !== id)`. */
  function RemoveById<T(!new,==)>(s: seq<T>, id: string, idOf: T -> string): (r: seq<T>)
    ensures forall x :: x in r <==> x in s && idOf(x) != id
    ensures forall x :: multiset(r)[x] == if idOf(x) != id then multiset(s)[x] else 0
    ensures IsSubsequence(r, s)
    ensures (forall i :: 0 <= i < |s| ==> idOf(s[i]) != id) ==> r == s
  {
    var keep := NotId(id, idOf);
    if forall i :: 0 <= i < |s| ==> idOf(s[i]) != id then
      FilterAll(s, keep);
      Filter(s, keep)
    else Filter(s, keep)
  }

  /** `s.map(e => e.id === x.id ? x : e)`. */
  function ReplaceById<T>(s: seq<T>, x: T, idOf: T -> string): (r: seq<T>)
    ensures |r| == |s|
    ensures forall i :: 0 <= i < |s| ==> r[i] == if idOf(s[i]) == idOf(x) then x else s[i]
    decreases |s|
  {
    if s == [] then []
    else
      var rest := ReplaceById(s[1..], x, idOf);
      var r := [if idOf(s[0]) == idOf(x) then x else s[0]] + rest;
      assert forall i :: 1 <= i < |s| ==> r[i] == rest[i - 1] && s[i] == s[1..][i - 1];
      r
  }

  /** Replacing the one element with `x`'s id changes a column sum by the
      difference of the two; with no such element nothing changes. */
  lemma {:induction false} SumOfReplace<T>(s: seq<T>, x: T, idOf: T -> string, f: T -> real, k: int)
    requires UniqueIds(s, idOf)
    requires 0 <= k < |s| && idOf(s[k]) == idOf(x)
    ensures SumOf(ReplaceById(s, x, idOf), f) == SumOf(s, f) - f(s[k]) + f(x)
    decreases |s|
  {
    var r := ReplaceById(s, x, idOf);
    assert r == [r[0]] + r[1..];
    assert r[1..] == ReplaceById(s[1..], x, idOf);
    if k == 0 {
      ReplaceUnmatched(s[1..], x, idOf);
    } else {
      assert idOf(s[0]) != idOf(x);
      SumOfReplace(s[1..], x, idOf, f, k - 1);
    }
  }

  lemma {:induction false} KeepAll<T>(s: seq<T>, p: T -> bool)
    requires forall i :: 0 <= i < |s| ==> p(s[i])
    ensures Keep(s, p) == s
  {
    if s != [] {
      KeepAll(s[1..], p);
    }
  }

  lemma {:induction false} SumOfKeepOther<T>(s: seq<T>, idOf: T -> string, f: T -> real, k: int)
    requires UniqueIds(s, idOf)
    requires 0 <= k < |s|
    ensures SumOf(Keep(s, NotId(idOf(s[k]), idOf)), f) == SumOf(s, f) - f(s[k])
    decreases |s|
  {
    var id := idOf(s[k]);
    var p := NotId(id, idOf);
    var tail := s[1..];
    if k == 0 {
      assert forall i :: 0 <= i < |tail| ==> p(tail[i]) by {
        forall i | 0 <= i < |tail| ensures p(tail[i]) {
          assert tail[i] == s[i + 1];
        }
      }
      KeepAll(tail, p);
      assert !p(s[0]);
      assert Keep(s, p) == [] + Keep(tail, p) == tail;
    } else {
      assert p(s[0]);
      assert UniqueIds(tail, idOf) by {
        forall i, j | 0 <= i < j < |tail| ensures idOf(tail[i]) != idOf(tail[j]) {
          assert tail[i] == s[i + 1] && tail[j] == s[j + 1];
        }
      }
      assert tail[k - 1] == s[k];
      SumOfKeepOther(tail, idOf, f, k - 1);
      var rest := Keep(tail, p);
      assert ([s[0]] + rest)[1..] == rest;
    }
  }

  /** Removing the one element with id `s[k]`'s id takes its value off a column sum. */
  lemma SumOfRemove<T(!new)>(s: seq<T>, idOf: T -> string, f: T -> real, k: int)
    requires UniqueIds(s, idOf)
    requires 0 <= k < |s|
    ensures SumOf(RemoveById(s, idOf(s[k]), idOf), f) == SumOf(s, f) - f(s[k])
  {
    FilterIsKeep(s, NotId(idOf(s[k]), idOf));
    SumOfKeepOther(s, idOf, f, k);
  }

  /** With no element carrying `x`'s id, replacing is the identity. */
  lemma {:induction false} ReplaceUnmatched<T>(s: seq<T>, x: T, idOf: T -> string)
    requires forall i :: 0 <= i < |s| ==> idOf(s[i]) != idOf(x)
    ensures ReplaceById(s, x, idOf) == s
  {
    var r := ReplaceById(s, x, idOf);
    assert forall i :: 0 <= i < |s| ==> r[i] == s[i];
  }

  /** Appending an element leaves an existing first match in place. */
  lemma {:induction false} FindExtend<T>(s: seq<T>, x: T, p: T -> bool)
    ensures Find(s + [x], p) == if Find(s, p).Some? then Find(s, p) else if p(x) then Some(x) else None
    decreases |s|
  {
    if s == [] {
      assert s + [x] == [x];
      assert [x][1..] == [];
    } else {
      assert (s + [x])[0] == s[0];
      assert (s + [x])[1..] == s[1..] + [x];
      if !p(s[0]) {
        FindExtend(s[1..], x, p);
      }
    }
  }

  /** `s.find(p)`: the first element satisfying `p`, if any. */
  function Find<T>(s: seq<T>, p: T -> bool): (r: Option<T>)
    ensures r.Some? <==> exists i :: 0 <= i < |s| && p(s[i])
    ensures r.Some? ==> p(r.value) && exists i :: 0 <= i < |s| && s[i] == r.value && forall j :: 0 <= j < i ==> !p(s[j])
    decreases |s|
  {
    if s == [] then None
    else if p(s[0]) then Some(s[0])
    else
      var r := Find(s[1..], p);
      assert r.Some? ==> exists i :: 0 <= i < |s| && s[i] == r.value && forall j :: 0 <= j < i ==> !p(s[j]) by {
        if r.Some? {
          var i :| 0 <= i < |s[1..]| && s[1..][i] == r.value && forall j :: 0 <= j < i ==> !p(s[1..][j]);
          assert s[i + 1] == r.value;
          assert forall j :: 0 <= j < i + 1 ==> !p(s[j]) by {
            forall j | 0 <= j < i + 1 ensures !p(s[j]) {
              if j > 0 { assert s[j] == s[1..][j - 1]; }
            }
          }
        }
      }
      assert (exists i :: 0 <= i < |s| && p(s[i])) ==> exists i :: 0 <= i < |s[1..]| && p(s[1..][i]) by {
        if exists i :: 0 <= i < |s| && p(s[i]) {
          var i :| 0 <= i < |s| && p(s[i]);
          assert i > 0 && s[1..][i - 1] == s[i];
        }
      }
      r
  }

  // ---------------------------------------------------------------- sort

  /** Two sequences with the same multiset have the same members. */
  lemma SameMembers<T>(a: seq<T>, b: seq<T>)
    requires multiset(a) == multiset(b)
    ensures forall x :: x in a <==> x in b
  {
    assert forall x :: x in a <==> x in multiset(a);
    assert forall x :: x in b <==> x in multiset(b);
  }

  /** The keys of `s` are non-decreasing. */
  ghost predicate SortedBy<T>(s: seq<T>, key: T -> int)
  {
    forall i, j :: 0 <= i < j < |s| ==> key(s[i]) <= key(s[j])
  }

  lemma ConsSorted<T>(x: T, s: seq<T>, key: T -> int)
    requires SortedBy(s, key)
    requires forall i :: 0 <= i < |s| ==> key(x) <= key(s[i])
    ensures SortedBy([x] + s, key)
  {
    var r := [x] + s;
    forall i, j | 0 <= i < j < |r| ensures key(r[i]) <= key(r[j]) {
      if i > 0 {
        assert r[i] == s[i - 1] && r[j] == s[j - 1];
      } else {
        assert r[j] == s[j - 1];
      }
    }
  }

  lemma LowerBoundOfPermutation<T>(a: T, x: T, s: seq<T>, r: seq<T>, key: T -> int)
    requires multiset(r) == multiset(s) + multiset{x}
    requires key(a) <= key(x)
    requires forall i :: 0 <= i < |s| ==> key(a) <= key(s[i])
    ensures forall i :: 0 <= i < |r| ==> key(a) <= key(r[i])
  {
    forall i | 0 <= i < |r| ensures key(a) <= key(r[i]) {
      assert r[i] in multiset(r);
      if r[i] != x {
        assert r[i] in multiset(s);
        var k :| 0 <= k < |s| && s[k] == r[i];
      }
    }
  }

  /** Places `x` in front of the first element whose key is larger: elements with
      equal keys keep their relative order. */
  function Insert<T>(x: T, s: seq<T>, key: T -> int): (r: seq<T>)
    requires SortedBy(s, key)
    ensures SortedBy(r, key)
    ensures multiset(r) == multiset(s) + multiset{x}
    ensures |r| == |s| + 1
    decreases |s|
  {
    if s == [] then [x]
    else if key(x) <= key(s[0]) then
      ConsSorted(x, s, key);
      [x] + s
    else
      var rest := Insert(x, s[1..], key);
      assert s == [s[0]] + s[1..];
      LowerBoundOfPermutation(s[0], x, s[1..], rest, key);
      ConsSorted(s[0], rest, key);
      [s[0]] + rest
  }

  /** `Array.prototype.sort` with the comparator `key(a) - key(b)` (a stable sort). */
  function SortBy<T>(s: seq<T>, key: T -> int): (r: seq<T>)
    ensures SortedBy(r, key)
    ensures multiset(r) == multiset(s)
    ensures |r| == |s|
    decreases |s|
  {
    if s == [] then []
    else
      assert s == [s[0]] + s[1..];
      Insert(s[0], SortBy(s[1..], key), key)
  }
}
