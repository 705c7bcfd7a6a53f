/**
 * `Array.prototype.sort` with a comparator of the form `(a, b) => key(b) - key(a)`.
 * ECMAScript 2019 and later require the sort to be stable, so the result is
 * determined: the elements in non-increasing key order, and elements with equal
 * keys in their original order. `SortDesc` is that result, computed by a stable
 * insertion sort; an ascending sort by `key` is `SortDesc` by `-key`.
 */
module Sorting {
  import opened Collections

  /** Keys never increase along `s`. */
  predicate NonIncreasing<T>(s: seq<T>, key: T -> int) {
    forall i, j :: 0 <= i < j < |s| ==> key(s[i]) >= key(s[j])
  }

  /** Inserts `x` after every element whose key is at least `key(x)`. */
  function InsertDesc<T>(x: T, s: seq<T>, key: T -> int): (r: seq<T>)
    ensures |r| == |s| + 1
    ensures multiset(r) == multiset(s) + multiset{x}
  {
    if s == [] then [x]
    else if key(x) > key(s[0]) then [x] + s
    else
      assert s == [s[0]] + s[1..];
      [s[0]] + InsertDesc(x, s[1..], key)
  }

  lemma {:induction false} InsertDescSorted<T>(x: T, s: seq<T>, key: T -> int)
    requires NonIncreasing(s, key)
    ensures NonIncreasing(InsertDesc(x, s, key), key)
  {
    if s != [] && key(x) <= key(s[0]) {
      var tail := InsertDesc(x, s[1..], key);
      DropNonIncreasing(s, key);
      InsertDescSorted(x, s[1..], key);
      forall i | 0 <= i < |s[1..]|
        ensures key(s[1..][i]) <= key(s[0])
      {
        assert s[1..][i] == s[i + 1];
      }
      InsertDescBelow(x, s[1..], key, key(s[0]));
      ConsNonIncreasing(s[0], tail, key);
    }
  }

  /** Inserting among elements with keys at most `b` an element with key at most `b` keeps every key at most `b`. */
  lemma InsertDescBelow<T>(x: T, s: seq<T>, key: T -> int, b: int)
    requires key(x) <= b
    requires forall i :: 0 <= i < |s| ==> key(s[i]) <= b
    ensures forall j :: 0 <= j < |InsertDesc(x, s, key)| ==> key(InsertDesc(x, s, key)[j]) <= b
  {
    var r := InsertDesc(x, s, key);
    forall j | 0 <= j < |r|
      ensures key(r[j]) <= b
    {
      assert r[j] in multiset(r);
      if r[j] != x {
        assert r[j] in multiset(s);
        var k :| 0 <= k < |s| && s[k] == r[j];
      }
    }
  }

  /** A head with a key at least every key of a non-increasing tail gives a non-increasing sequence. */
  lemma ConsNonIncreasing<T>(h: T, tail: seq<T>, key: T -> int)
    requires NonIncreasing(tail, key)
    requires forall j :: 0 <= j < |tail| ==> key(tail[j]) <= key(h)
    ensures NonIncreasing([h] + tail, key)
  {
    var r := [h] + tail;
    forall i, j | 0 <= i < j < |r|
      ensures key(r[i]) >= key(r[j])
    {
      assert r[j] == tail[j - 1];
      if i > 0 {
        assert r[i] == tail[i - 1];
      }
    }
  }

  /** The stable sort by non-increasing `key`. */
  function SortDesc<T>(s: seq<T>, key: T -> int): (r: seq<T>)
    ensures |r| == |s|
    ensures multiset(r) == multiset(s)
    ensures NonIncreasing(r, key)
  {
    if s == [] then []
    else
      assert s == s[..|s| - 1] + [s[|s| - 1]];
      var sorted := SortDesc(s[..|s| - 1], key);
      InsertDescSorted(s[|s| - 1], sorted, key);
      InsertDesc(s[|s| - 1], sorted, key)
  }

  /** A prefix of a non-increasing sequence is non-increasing. */
  lemma TakeNonIncreasing<T>(s: seq<T>, key: T -> int, n: nat)
    requires NonIncreasing(s, key)
    ensures NonIncreasing(Take(s, n), key)
  {
    var t := Take(s, n);
    forall i, j | 0 <= i < j < |t|
      ensures key(t[i]) >= key(t[j])
    {
      assert t[i] == s[i] && t[j] == s[j];
    }
  }

  lemma SortDescMembers<T>(s: seq<T>, key: T -> int, x: T)
    ensures x in SortDesc(s, key) <==> x in s
  {
    assert x in SortDesc(s, key) <==> x in multiset(SortDesc(s, key));
  }

  /**
   * The first `n` of the sorted list are `n` largest: an element of `s` left
   * out means all `n` places are taken, each by an element whose key is at
   * least the left-out element's key.
   */
  lemma TakeSortDescTop<T>(s: seq<T>, key: T -> int, n: nat, x: T)
    requires x in s && x !in Take(SortDesc(s, key), n)
    ensures |Take(SortDesc(s, key), n)| == n
    ensures forall y :: y in Take(SortDesc(s, key), n) ==> key(x) <= key(y)
  {
    var sorted := SortDesc(s, key);
    var top := Take(sorted, n);
    SortDescMembers(s, key, x);
    var j :| 0 <= j < |sorted| && sorted[j] == x;
    assert j >= |top| by {
      assert forall i :: 0 <= i < |top| ==> top[i] == sorted[i];
    }
    forall y | y in top
      ensures key(x) <= key(y)
    {
      var i :| 0 <= i < |top| && top[i] == y;
      assert sorted[i] == y;
    }
  }

  // ---------------------------------------------------------------------------
  // Stability
  // ---------------------------------------------------------------------------

  /** The elements of `s` whose key is `v`, in their order in `s`. */
  function KeyClass<T>(s: seq<T>, key: T -> int, v: int): seq<T> {
    if s == [] then []
    else KeyClass(s[..|s| - 1], key, v) + (if key(s[|s| - 1]) == v then [s[|s| - 1]] else [])
  }

  lemma {:induction false} KeyClassConcat<T>(a: seq<T>, b: seq<T>, key: T -> int, v: int)
    ensures KeyClass(a + b, key, v) == KeyClass(a, key, v) + KeyClass(b, key, v)
  {
    if b == [] {
      assert a + b == a;
    } else {
      assert (a + b)[..|a + b| - 1] == a + b[..|b| - 1];
      KeyClassConcat(a, b[..|b| - 1], key, v);
    }
  }

  lemma {:induction false} KeyClassNone<T>(s: seq<T>, key: T -> int, v: int)
    requires forall i :: 0 <= i < |s| ==> key(s[i]) < v
    ensures KeyClass(s, key, v) == []
  {
    if s != [] {
      KeyClassNone(s[..|s| - 1], key, v);
    }
  }

  lemma {:induction false} InsertDescStable<T>(x: T, s: seq<T>, key: T -> int, v: int)
    requires NonIncreasing(s, key)
    ensures KeyClass(InsertDesc(x, s, key), key, v)
         == KeyClass(s, key, v) + (if key(x) == v then [x] else [])
  {
    if s == [] {
      assert [x][..0] == [];
    } else if key(x) > key(s[0]) {
      InsertFrontStable(x, s, key, v);
    } else {
      DropNonIncreasing(s, key);
      InsertDescStable(x, s[1..], key, v);
      InsertBehindStable(x, s, key, v);
    }
  }

  /** An element inserted behind the head keeps the head first in its class. */
  lemma InsertBehindStable<T>(x: T, s: seq<T>, key: T -> int, v: int)
    requires s != [] && key(x) <= key(s[0])
    requires KeyClass(InsertDesc(x, s[1..], key), key, v)
          == KeyClass(s[1..], key, v) + (if key(x) == v then [x] else [])
    ensures KeyClass(InsertDesc(x, s, key), key, v)
         == KeyClass(s, key, v) + (if key(x) == v then [x] else [])
  {
    var tail := InsertDesc(x, s[1..], key);
    assert InsertDesc(x, s, key) == [s[0]] + tail;
    KeyClassConcat([s[0]], tail, key, v);
    KeyClassConcat([s[0]], s[1..], key, v);
    assert [s[0]] + s[1..] == s;
  }

  lemma DropNonIncreasing<T>(s: seq<T>, key: T -> int)
    requires s != [] && NonIncreasing(s, key)
    ensures NonIncreasing(s[1..], key)
  {
    forall i, j | 0 <= i < j < |s| - 1
      ensures key(s[1..][i]) >= key(s[1..][j])
    {
      assert s[1..][i] == s[i + 1] && s[1..][j] == s[j + 1];
    }
  }

  /** An element placed in front of larger keys comes first in its class. */
  lemma InsertFrontStable<T>(x: T, s: seq<T>, key: T -> int, v: int)
    requires NonIncreasing(s, key)
    requires s != [] && key(x) > key(s[0])
    ensures KeyClass([x] + s, key, v) == KeyClass(s, key, v) + (if key(x) == v then [x] else [])
  {
    assert KeyClass([x], key, v) == (if key(x) == v then [x] else []) by {
      assert [x][..0] == [];
    }
    KeyClassConcat([x], s, key, v);
    if key(x) == v {
      forall i | 0 <= i < |s|
        ensures key(s[i]) < v
      {
        if i > 0 {
          assert key(s[0]) >= key(s[i]);
        }
      }
      KeyClassNone(s, key, v);
    }
  }

  /** Sorting keeps the relative order of the elements of every key class. */
  lemma {:induction false} SortDescStable<T>(s: seq<T>, key: T -> int, v: int)
    ensures KeyClass(SortDesc(s, key), key, v) == KeyClass(s, key, v)
  {
    if s != [] {
      var init := s[..|s| - 1];
      SortDescStable(init, key, v);
      InsertDescStable(s[|s| - 1], SortDesc(init, key), key, v);
    }
  }

  // ---------------------------------------------------------------------------
  // Sums are invariant under sorting
  // ---------------------------------------------------------------------------

  lemma {:induction false} InsertDescSum<T>(x: T, s: seq<T>, key: T -> int, f: T -> int)
    ensures SumBy(InsertDesc(x, s, key), f) == SumBy(s, f) + f(x)
  {
    if s != [] && key(x) <= key(s[0]) {
      InsertDescSum(x, s[1..], key, f);
      assert ([s[0]] + InsertDesc(x, s[1..], key))[1..] == InsertDesc(x, s[1..], key);
    }
  }

  lemma {:induction false} SortDescSum<T>(s: seq<T>, key: T -> int, f: T -> int)
    ensures SumBy(SortDesc(s, key), f) == SumBy(s, f)
  {
    if s != [] {
      var init, last := s[..|s| - 1], s[|s| - 1];
      SortDescSum(init, key, f);
      assert SortDesc(s, key) == InsertDesc(last, SortDesc(init, key), key);
      InsertDescSum(last, SortDesc(init, key), key, f);
      SumByLast(s, f);
    }
  }

  /** The sum of a non-empty sequence is the sum of all but its last element, plus the last. */
  lemma SumByLast<T>(s: seq<T>, f: T -> int)
    requires |s| > 0
    ensures SumBy(s, f) == SumBy(s[..|s| - 1], f) + f(s[|s| - 1])
  {
    SumByConcat(s[..|s| - 1], [s[|s| - 1]], f);
    assert s[..|s| - 1] + [s[|s| - 1]] == s;
  }

  // ---------------------------------------------------------------------------
  // The head of a sorted sequence
  // ---------------------------------------------------------------------------

  /** `s[i]` has the largest key of `s`, and every element before it a strictly smaller one. */
  predicate IsFirstMax<T>(s: seq<T>, key: T -> int, i: int) {
    && 0 <= i < |s|
    && (forall j :: 0 <= j < |s| ==> key(s[j]) <= key(s[i]))
    && (forall j :: 0 <= j < i ==> key(s[j]) < key(s[i]))
  }

  /** The index of the first element with the largest key. */
  function FirstMaxIndex<T>(s: seq<T>, key: T -> int): (i: nat)
    requires |s| > 0
    ensures IsFirstMax(s, key, i)
  {
    if |s| == 1 then 0
    else
      var j := FirstMaxIndex(s[..|s| - 1], key);
      assert forall k :: 0 <= k < |s| - 1 ==> s[k] == s[..|s| - 1][k];
      if key(s[|s| - 1]) > key(s[j]) then |s| - 1 else j
  }

  lemma {:induction false} KeyClassFrom<T>(s: seq<T>, key: T -> int, i: nat)
    requires IsFirstMax(s, key, i)
    ensures KeyClass(s, key, key(s[i])) != [] && KeyClass(s, key, key(s[i]))[0] == s[i]
  {
    var v := key(s[i]);
    assert s == s[..i] + ([s[i]] + s[i + 1..]);
    KeyClassNone(s[..i], key, v);
    KeyClassConcat(s[..i], [s[i]] + s[i + 1..], key, v);
    KeyClassConcat([s[i]], s[i + 1..], key, v);
    assert [s[i]][..0] == [];
  }

  /**
   * The first element of the stable descending sort is the first element of
   * `s` with the largest key: `s.sort(...)[0]`.
   */
  lemma SortDescHead<T>(s: seq<T>, key: T -> int)
    requires |s| > 0
    ensures SortDesc(s, key)[0] == s[FirstMaxIndex(s, key)]
  {
    var sorted := SortDesc(s, key);
    var i := FirstMaxIndex(s, key);
    SortedHeadMax(s, key);
    KeyClassFrom(s, key, i);
    KeyClassFrom(sorted, key, 0);
    SortDescStable(s, key, key(s[i]));
  }

  /** The head of the sorted sequence has the largest key of `s`, and nothing is ahead of it. */
  lemma SortedHeadMax<T>(s: seq<T>, key: T -> int)
    requires |s| > 0
    ensures key(SortDesc(s, key)[0]) == key(s[FirstMaxIndex(s, key)])
    ensures IsFirstMax(SortDesc(s, key), key, 0)
  {
    var sorted := SortDesc(s, key);
    var i := FirstMaxIndex(s, key);
    var v := key(s[i]);
    assert s[i] in multiset(sorted);
    assert sorted[0] in multiset(s);
    assert key(sorted[0]) == v by {
      var j :| 0 <= j < |sorted| && sorted[j] == s[i];
      var k :| 0 <= k < |s| && s[k] == sorted[0];
    }
    forall j | 0 <= j < |sorted|
      ensures key(sorted[j]) <= v
    {
      assert sorted[j] in multiset(s);
      var k :| 0 <= k < |s| && s[k] == sorted[j];
    }
  }
}
