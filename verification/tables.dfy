/**
 * The array operations both stores are built from, over immutable
 * sequences: `filter`, `findIndex`, `find`, `splice(i, 1)` and `map`.
 * Records are matched by a key function (their `id`) and a string.
 */
module Tables {
  import opened Wrappers

  /** `r` is `s` with some elements left out: its elements occur in `s` in the same order. */
  ghost predicate Subsequence<T>(r: seq<T>, s: seq<T>)
    decreases |s|
  {
    r == [] || (s != [] && ((r[0] == s[0] && Subsequence(r[1..], s[1..])) || Subsequence(r, s[1..])))
  }

  /** `s.filter(p)`: the elements of `s` that satisfy `p`, in their order in `s`. */
  function Filter<T(!new)>(s: seq<T>, p: T -> bool): (r: seq<T>)
    ensures |r| <= |s|
    ensures forall x :: x in r <==> x in s && p(x)
  {
    if s == [] then []
    else
      var rest := Filter(s[1..], p);
      assert s == [s[0]] + s[1..];
      if p(s[0]) then [s[0]] + rest else rest
  }

  /** Each value occurs in the filtered sequence as often as in `s` if it satisfies `p`, else never. */
  lemma {:induction false} FilterCounts<T(!new)>(s: seq<T>, p: T -> bool)
    ensures forall x :: multiset(Filter(s, p))[x] == if p(x) then multiset(s)[x] else 0
  {
    if s != [] {
      FilterCounts(s[1..], p);
      assert s == [s[0]] + s[1..];
      assert multiset(s) == multiset{s[0]} + multiset(s[1..]);
    }
  }

  /** The filtered sequence keeps the order of `s`. */
  lemma {:induction false} FilterIsSubsequence<T(!new)>(s: seq<T>, p: T -> bool)
    ensures Subsequence(Filter(s, p), s)
  {
    if s != [] {
      FilterIsSubsequence(s[1..], p);
      var rest := Filter(s[1..], p);
      if p(s[0]) {
        var r := [s[0]] + rest;
        assert r[0] == s[0] && r[1..] == rest;
      }
    }
  }

  /** Filtering distributes over concatenation: relative order is kept. */
  lemma {:induction false} FilterAppend<T(!new)>(a: seq<T>, b: seq<T>, p: T -> bool)
    ensures Filter(a + b, p) == Filter(a, p) + Filter(b, p)
  {
    if a == [] {
      assert a + b == b;
    } else {
      var ab := a + b;
      assert ab[0] == a[0] && ab[1..] == a[1..] + b;
      FilterAppend(a[1..], b, p);
      var fa := Filter(a[1..], p);
      var fb := Filter(b, p);
      if p(a[0]) {
        calc {
          Filter(ab, p);
          [a[0]] + Filter(a[1..] + b, p);
          [a[0]] + (fa + fb);
          ([a[0]] + fa) + fb;
        }
      }
    }
  }

  /** A one-element sequence is kept exactly when its element satisfies `p`. */
  lemma FilterSingleton<T(!new)>(x: T, p: T -> bool)
    ensures Filter([x], p) == if p(x) then [x] else []
  {
    assert [x][1..] == [];
  }

  /** A sequence all of whose elements satisfy `p` is left as it is. */
  lemma {:induction false} FilterKeepsAll<T(!new)>(s: seq<T>, p: T -> bool)
    requires forall x :: x in s ==> p(x)
    ensures Filter(s, p) == s
  {
    if s != [] {
      assert forall x :: x in s[1..] ==> x in s;
      FilterKeepsAll(s[1..], p);
    }
  }

  /** Filtering twice by the same predicate is filtering once. */
  lemma FilterIdempotent<T(!new)>(s: seq<T>, p: T -> bool)
    ensures Filter(Filter(s, p), p) == Filter(s, p)
  {
    FilterKeepsAll(Filter(s, p), p);
  }

  /** Filtering by `p` and then by `q` is filtering by their conjunction `pq`. */
  lemma {:induction false} FilterThenFilter<T(!new)>(s: seq<T>, p: T -> bool, q: T -> bool, pq: T -> bool)
    requires forall x :: pq(x) == (p(x) && q(x))
    ensures Filter(Filter(s, p), q) == Filter(s, pq)
  {
    if s != [] {
      FilterThenFilter(s[1..], p, q, pq);
      var fp := Filter(s[1..], p);
      if p(s[0]) {
        var t := [s[0]] + fp;
        assert t[0] == s[0] && t[1..] == fp;
      }
    }
  }

  /** `s.findIndex(x => key(x) === id)`: the first index whose key is `id`, or -1. */
  function IndexOfKey<T(!new)>(s: seq<T>, key: T -> string, id: string): (r: int)
    ensures -1 <= r < |s|
    ensures 0 <= r ==> key(s[r]) == id && forall j :: 0 <= j < r ==> key(s[j]) != id
    ensures r == -1 <==> forall j :: 0 <= j < |s| ==> key(s[j]) != id
  {
    if s == [] then -1
    else if key(s[0]) == id then 0
    else
      var k := IndexOfKey(s[1..], key, id);
      if k == -1 then -1 else k + 1
  }

  /** `s.find(x => key(x) === id)`: the first element whose key is `id`, if any. */
  function FindByKey<T(!new)>(s: seq<T>, key: T -> string, id: string): (r: Option<T>)
    ensures r.Some? ==> r.value in s && key(r.value) == id
    ensures r.None? <==> forall x :: x in s ==> key(x) != id
    ensures var i := IndexOfKey(s, key, id);
            r == if i == -1 then None else Some(s[i])
  {
    if s == [] then None
    else if key(s[0]) == id then Some(s[0])
    else FindByKey(s[1..], key, id)
  }

  /** `s.splice(i, 1)` on a copy: `s` without its element at `i`. */
  function RemoveAt<T(!new)>(s: seq<T>, i: nat): (r: seq<T>)
    requires i < |s|
    ensures |r| == |s| - 1
    ensures forall j :: 0 <= j < i ==> r[j] == s[j]
    ensures forall j :: i <= j < |r| ==> r[j] == s[j + 1]
    ensures multiset(r) + multiset{s[i]} == multiset(s)
  {
    assert s == s[..i] + [s[i]] + s[i + 1..];
    s[..i] + s[i + 1..]
  }

  /**
   * `const i = s.findIndex(x => key(x) === id); if (i > -1) s.splice(i, 1)`,
   * as the new value of `s`.
   */
  function DeleteFirstKey<T(!new)>(s: seq<T>, key: T -> string, id: string): (r: seq<T>)
    ensures (forall x :: x in s ==> key(x) != id) ==> r == s
    ensures (exists x :: x in s && key(x) == id) ==>
              |r| == |s| - 1 && multiset(r) + multiset{s[IndexOfKey(s, key, id)]} == multiset(s)
  {
    var i := IndexOfKey(s, key, id);
    if i > -1 then RemoveAt(s, i) else s
  }

  /** Deletion removes the FIRST match only: every later record with the same key survives. */
  lemma DeleteFirstKeyKeepsLaterMatches<T(!new)>(s: seq<T>, key: T -> string, id: string)
    requires 0 <= IndexOfKey(s, key, id)
    ensures var i := IndexOfKey(s, key, id);
            forall j :: 0 <= j < i ==> DeleteFirstKey(s, key, id)[j] == s[j]
    ensures var i := IndexOfKey(s, key, id);
            forall j :: i < j < |s| ==> DeleteFirstKey(s, key, id)[j - 1] == s[j]
    ensures var i := IndexOfKey(s, key, id);
            forall j :: i < j < |s| && key(s[j]) == id ==> s[j] in DeleteFirstKey(s, key, id)
  {
  }

  /** The predicate `x => key(x) !== id`. */
  function KeyIsNot<T(!new)>(key: T -> string, id: string): T -> bool {
    (x: T) => key(x) != id
  }

  /** `s.filter(x => key(x) !== id)`: every record whose key is `id` dropped, order kept. */
  function WithoutKey<T(!new)>(s: seq<T>, key: T -> string, id: string): (r: seq<T>)
    ensures forall x :: x in r <==> x in s && key(x) != id
    ensures |r| <= |s|
  {
    Filter(s, KeyIsNot(key, id))
  }

  /** Dropping a key twice is dropping it once. */
  lemma WithoutKeyIdempotent<T(!new)>(s: seq<T>, key: T -> string, id: string)
    ensures WithoutKey(WithoutKey(s, key, id), key, id) == WithoutKey(s, key, id)
  {
    FilterKeepsAll(WithoutKey(s, key, id), KeyIsNot(key, id));
  }

  /** Dropping a key no record has leaves the sequence as it was. */
  lemma WithoutAbsentKey<T(!new)>(s: seq<T>, key: T -> string, id: string)
    requires forall x :: x in s ==> key(x) != id
    ensures WithoutKey(s, key, id) == s
  {
    FilterKeepsAll(s, KeyIsNot(key, id));
  }

  /** `s.map(x => key(x) === id ? f(x) : x)`: `f` applied to every record whose key is `id`. */
  function MapKey<T(!new)>(s: seq<T>, key: T -> string, id: string, f: T -> T): (r: seq<T>)
    ensures |r| == |s|
    ensures forall j :: 0 <= j < |s| ==> r[j] == if key(s[j]) == id then f(s[j]) else s[j]
  {
    if s == [] then []
    else [if key(s[0]) == id then f(s[0]) else s[0]] + MapKey(s[1..], key, id, f)
  }

  /** `s.map(key)`: the key of every record, in order. */
  function KeysOf<T(!new)>(s: seq<T>, key: T -> string): (r: seq<string>)
    ensures |r| == |s|
    ensures forall j :: 0 <= j < |s| ==> r[j] == key(s[j])
    ensures forall k :: k in r <==> exists x :: x in s && key(x) == k
  {
    if s == [] then []
    else
      var rest := KeysOf(s[1..], key);
      assert forall x :: x in s <==> x == s[0] || x in s[1..];
      [key(s[0])] + rest
  }

  /** At most one record of `s` has key `id`. */
  predicate KeyAtMostOnce<T(!new)>(s: seq<T>, key: T -> string, id: string) {
    forall i, j :: 0 <= i < j < |s| && key(s[i]) == id ==> key(s[j]) != id
  }

  /** Deleting the first match is deleting at the index `findIndex` gives, one record further in. */
  lemma {:induction false} DeleteFirstKeyCons<T(!new)>(s: seq<T>, key: T -> string, id: string)
    requires s != [] && key(s[0]) != id
    ensures DeleteFirstKey(s, key, id) == [s[0]] + DeleteFirstKey(s[1..], key, id)
  {
    var k := IndexOfKey(s[1..], key, id);
    if k != -1 {
      assert IndexOfKey(s, key, id) == k + 1;
      var r := RemoveAt(s, k + 1);
      var r' := [s[0]] + RemoveAt(s[1..], k);
      assert |r| == |r'|;
      forall j | 0 <= j < |r| ensures r[j] == r'[j] {
        if j > 0 { assert r'[j] == RemoveAt(s[1..], k)[j - 1]; }
      }
    } else {
      assert s == [s[0]] + s[1..];
    }
  }

  /**
   * The server deletes the first record with the id, the client store every
   * record with it: the two agree exactly when the id is not duplicated.
   */
  lemma {:induction false} DeletesAgreeOnUniqueKey<T(!new)>(s: seq<T>, key: T -> string, id: string)
    requires KeyAtMostOnce(s, key, id)
    ensures DeleteFirstKey(s, key, id) == WithoutKey(s, key, id)
  {
    if s == [] {
    } else if key(s[0]) == id {
      assert forall x :: x in s[1..] ==> key(x) != id by {
        forall x | x in s[1..] ensures key(x) != id {
          var j :| 0 <= j < |s[1..]| && s[1..][j] == x;
          assert s[j + 1] == x;
        }
      }
      WithoutAbsentKey(s[1..], key, id);
      assert RemoveAt(s, 0) == s[1..];
    } else {
      assert KeyAtMostOnce(s[1..], key, id) by {
        forall i, j | 0 <= i < j < |s[1..]| && key(s[1..][i]) == id ensures key(s[1..][j]) != id {
          assert s[1..][i] == s[i + 1] && s[1..][j] == s[j + 1];
        }
      }
      DeletesAgreeOnUniqueKey(s[1..], key, id);
      DeleteFirstKeyCons(s, key, id);
    }
  }

  /**
   * With a duplicated id the two deletes differ: the server keeps the later
   * copy, which the client drops.
   */
  lemma DeletesDifferOnDuplicateKey<T(!new)>(s: seq<T>, key: T -> string, id: string, i: nat, j: nat)
    requires i < j < |s| && key(s[i]) == id && key(s[j]) == id
    ensures s[j] in DeleteFirstKey(s, key, id) && s[j] !in WithoutKey(s, key, id)
    ensures DeleteFirstKey(s, key, id) != WithoutKey(s, key, id)
  {
    var f := IndexOfKey(s, key, id);
    assert 0 <= f <= i;
    var d := RemoveAt(s, f);
    assert d[j - 1] == s[j];
  }
}
