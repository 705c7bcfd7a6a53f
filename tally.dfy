/**
 * The two in-memory aggregations every statistic of the application is built
 * from: a JavaScript `Map` that counts keys (`m.set(k, (m.get(k) || 0) + 1)`)
 * and a `Map` that collects the items sharing a key. Both enumerate their
 * entries in order of first insertion.
 */
module Tally {
  import opened Collections
  import opened Sorting

  // ---------------------------------------------------------------------------
  // Counting maps
  // ---------------------------------------------------------------------------

  /** One `[key, count]` pair of `Array.from(map.entries())`. */
  datatype Entry<K> = Entry(key: K, count: nat)

  function EntryCount<K>(e: Entry<K>): int {
    e.count
  }

  function Keys<K>(es: seq<Entry<K>>): (r: seq<K>)
    ensures |r| == |es|
    ensures forall i :: 0 <= i < |es| ==> r[i] == es[i].key
  {
    seq(|es|, i requires 0 <= i < |es| => es[i].key)
  }

  /** For each key of `d`, in order, the entry holding its number of occurrences in `ks`. */
  function EntriesFor<K(==)>(d: seq<K>, ks: seq<K>): (r: seq<Entry<K>>)
    ensures |r| == |d|
    ensures forall i :: 0 <= i < |d| ==> r[i] == Entry(d[i], Count(ks, d[i]))
  {
    if d == [] then [] else [Entry(d[0], Count(ks, d[0]))] + EntriesFor(d[1..], ks)
  }

  /** The entries of a `Map` that counted the keys `ks`, in insertion order. */
  function TallyOf<K(==)>(ks: seq<K>): seq<Entry<K>> {
    EntriesFor(Distinct(ks), ks)
  }

  /** The counting loop: one `map.set(k, (map.get(k) || 0) + 1)` per key, then `Array.from(map.entries())`. */
  method CountKeys<K(==, !new)>(ks: seq<K>) returns (entries: seq<Entry<K>>)
    ensures entries == TallyOf(ks)
  {
    var order: seq<K> := [];
    var counts: map<K, nat> := map[];
    for i := 0 to |ks|
      invariant CountsOf(ks[..i], order, counts)
    {
      var k := ks[i];
      assert ks[..i + 1] == ks[..i] + [k];
      CountStep(ks[..i], k, order, counts);
      if k !in counts {
        order := order + [k];
      }
      counts := counts[k := (if k in counts then counts[k] else 0) + 1];
    }
    assert ks[..|ks|] == ks;
    entries := seq(|order|, j requires 0 <= j < |order| => Entry(order[j], counts[order[j]]));
    forall j | 0 <= j < |order|
      ensures entries[j] == TallyOf(ks)[j]
    {
      assert order[j] in order;
    }
  }

  /** `order` and `counts` are the `Map` after counting the keys `done`: its keys in insertion order and their counts. */
  ghost predicate CountsOf<K(!new)>(done: seq<K>, order: seq<K>, counts: map<K, nat>) {
    && order == Distinct(done)
    && (forall k :: k in counts <==> k in order)
    && (forall k :: k in counts ==> counts[k] == Count(done, k))
  }

  /** One `map.set(k, (map.get(k) || 0) + 1)`, with `k` appended to the key order when it is new. */
  lemma CountStep<K(!new)>(done: seq<K>, k: K, order: seq<K>, counts: map<K, nat>)
    requires CountsOf(done, order, counts)
    ensures CountsOf(done + [k], if k in counts then order else order + [k],
                     counts[k := (if k in counts then counts[k] else 0) + 1])
  {
    var order' := if k in counts then order else order + [k];
    var counts' := counts[k := (if k in counts then counts[k] else 0) + 1];
    DistinctSnoc(done, k);
    assert order' == Distinct(done + [k]);
    assert forall x :: x in counts' <==> x in order';
    forall x | x in counts'
      ensures counts'[x] == Count(done + [k], x)
    {
      CountSnoc(done, k, x);
      if x != k {
        assert x in counts && counts'[x] == counts[x];
      } else if k !in counts {
        assert Count(done, k) == 0;
      }
    }
  }

  /** One `map.set(k, (map.get(k) || 0) + 1)` on the entries `es`. */
  function Bump<K(==)>(es: seq<Entry<K>>, k: K): seq<Entry<K>> {
    if k in Keys(es) then
      seq(|es|, i requires 0 <= i < |es| => if es[i].key == k then Entry(k, es[i].count + 1) else es[i])
    else es + [Entry(k, 1)]
  }

  /** `keys.forEach(k => map.set(k, (map.get(k) || 0) + 1))`. */
  function BumpAll<K(==)>(es: seq<Entry<K>>, ks: seq<K>): seq<Entry<K>> {
    if ks == [] then es else Bump(BumpAll(es, ks[..|ks| - 1]), ks[|ks| - 1])
  }

  /** Counting one more key turns the entries for `ks` into the entries for `ks + [k]`. */
  lemma BumpTally<K>(ks: seq<K>, k: K)
    ensures Bump(TallyOf(ks), k) == TallyOf(ks + [k])
  {
    DistinctSnoc(ks, k);
    if k in Distinct(ks) {
      BumpPresent(ks, k);
    } else {
      BumpAbsent(ks, k);
    }
  }

  lemma BumpPresent<K>(ks: seq<K>, k: K)
    requires k in Distinct(ks)
    requires Distinct(ks + [k]) == Distinct(ks)
    ensures Bump(TallyOf(ks), k) == TallyOf(ks + [k])
  {
    EntriesForBump(Distinct(ks), ks, k);
  }

  lemma BumpAbsent<K>(ks: seq<K>, k: K)
    requires k !in Distinct(ks)
    requires Distinct(ks + [k]) == Distinct(ks) + [k]
    ensures Bump(TallyOf(ks), k) == TallyOf(ks + [k])
  {
    assert k !in ks;
    EntriesForFresh(Distinct(ks), ks, k);
  }

  /** Counting a key that has an entry increments that entry. */
  lemma EntriesForBump<K>(d: seq<K>, ks: seq<K>, k: K)
    requires k in d
    ensures Bump(EntriesFor(d, ks), k) == EntriesFor(d, ks + [k])
  {
    var t := EntriesFor(d, ks);
    var t' := EntriesFor(d, ks + [k]);
    var i :| 0 <= i < |d| && d[i] == k;
    assert Keys(t)[i] == k;
    forall j | 0 <= j < |t|
      ensures Bump(t, k)[j] == t'[j]
    {
      CountSnoc(ks, k, d[j]);
    }
  }

  /** Counting a key without an entry appends the entry `[k, 1]`. */
  lemma EntriesForFresh<K>(d: seq<K>, ks: seq<K>, k: K)
    requires k !in d && k !in ks
    ensures Bump(EntriesFor(d, ks), k) == EntriesFor(d + [k], ks + [k])
  {
    var t := EntriesFor(d, ks);
    var t' := EntriesFor(d + [k], ks + [k]);
    forall i | 0 <= i < |t|
      ensures Keys(t)[i] != k
    {
      assert Keys(t)[i] == d[i];
    }
    forall j | 0 <= j < |t'|
      ensures t'[j] == (t + [Entry(k, 1)])[j]
    {
      if j < |t| {
        CountSnoc(ks, k, d[j]);
        assert (d + [k])[j] == d[j];
      } else {
        CountSnoc(ks, k, k);
      }
    }
  }

  /** The counting loop over `ks'` continues the entries for `ks` into the entries for `ks + ks'`. */
  lemma {:induction false} BumpAllTally<K>(ks: seq<K>, ks': seq<K>)
    ensures BumpAll(TallyOf(ks), ks') == TallyOf(ks + ks')
  {
    if ks' == [] {
      assert ks + ks' == ks;
    } else {
      var init := ks'[..|ks'| - 1];
      var k := ks'[|ks'| - 1];
      BumpAllTally(ks, init);
      BumpTally(ks + init, k);
      ConcatSnoc(ks, ks');
    }
  }

  lemma {:induction false} EntriesForEmptySum<K>(d: seq<K>)
    ensures SumBy(EntriesFor(d, []), EntryCount) == 0
  {
    if d != [] {
      EntriesForEmptySum(d[1..]);
    }
  }

  lemma {:induction false} EntriesForSnocSum<K>(d: seq<K>, ks: seq<K>, k: K)
    requires NoDups(d)
    ensures SumBy(EntriesFor(d, ks + [k]), EntryCount)
         == SumBy(EntriesFor(d, ks), EntryCount) + (if k in d then 1 else 0)
  {
    if d != [] {
      CountSnoc(ks, k, d[0]);
      EntriesForSnocSum(d[1..], ks, k);
      assert k in d <==> k == d[0] || k in d[1..];
      assert d[0] !in d[1..];
    }
  }

  lemma {:induction false} EntriesForSum<K>(d: seq<K>, ks: seq<K>)
    requires NoDups(d)
    requires forall i :: 0 <= i < |ks| ==> ks[i] in d
    ensures SumBy(EntriesFor(d, ks), EntryCount) == |ks|
  {
    if ks == [] {
      EntriesForEmptySum(d);
    } else {
      var init, last := ks[..|ks| - 1], ks[|ks| - 1];
      assert ks == init + [last];
      forall i | 0 <= i < |init|
        ensures init[i] in d
      {
        assert init[i] == ks[i];
      }
      EntriesForSum(d, init);
      EntriesForSnocSum(d, init, last);
      assert last in d;
    }
  }

  /**
   * The first entry of largest count in the tally is the first key, in order of
   * first appearance, whose count no other key exceeds.
   */
  lemma TallyFirstMax<K>(ks: seq<K>)
    requires |TallyOf(ks)| > 0
    ensures var i := FirstMaxIndex(TallyOf(ks), EntryCount);
      var order := Distinct(ks);
      && i < |order| && TallyOf(ks)[i].key == order[i]
      && (forall j :: 0 <= j < |order| ==> Count(ks, order[j]) <= Count(ks, order[i]))
      && (forall j :: 0 <= j < i ==> Count(ks, order[j]) < Count(ks, order[i]))
  {
    var t := TallyOf(ks);
    var order := Distinct(ks);
    TallyOrder(ks);
    var i := FirstMaxIndex(t, EntryCount);
    forall j | 0 <= j < |order|
      ensures Count(ks, order[j]) <= Count(ks, order[i])
      ensures j < i ==> Count(ks, order[j]) < Count(ks, order[i])
    {
      assert EntryCount(t[j]) <= EntryCount(t[i]);
    }
  }

  /** Entry `j` of the tally is the `j`-th distinct key, in order of first appearance, with its count. */
  lemma TallyOrder<K>(ks: seq<K>)
    ensures |TallyOf(ks)| == |Distinct(ks)|
    ensures forall j :: 0 <= j < |TallyOf(ks)| ==> TallyOf(ks)[j] == Entry(Distinct(ks)[j], Count(ks, Distinct(ks)[j]))
  {
    TallyOfFacts(ks);
    var t := TallyOf(ks);
    assert |t| == |Keys(t)|;
    forall j | 0 <= j < |t|
      ensures t[j] == Entry(Distinct(ks)[j], Count(ks, Distinct(ks)[j]))
    {
      assert Keys(t)[j] == t[j].key;
      assert t[j] in t;
    }
  }

  /**
   * What a counting map holds: every distinct key once, in order of first
   * appearance, each with its number of occurrences; the counts add up to the
   * number of keys counted.
   */
  lemma TallyOfFacts<K>(ks: seq<K>)
    ensures Keys(TallyOf(ks)) == Distinct(ks)
    ensures forall e :: e in TallyOf(ks) ==> e.count == Count(ks, e.key) && e.count > 0
    ensures NoDups(TallyOf(ks))
    ensures SumBy(TallyOf(ks), EntryCount) == |ks|
  {
    EntriesForSum(Distinct(ks), ks);
    TallyKeys(ks);
    TallyCounts(ks);
    TallyNoDups(ks);
  }

  lemma TallyKeys<K>(ks: seq<K>)
    ensures Keys(TallyOf(ks)) == Distinct(ks)
  {
  }

  lemma TallyNoDups<K>(ks: seq<K>)
    ensures NoDups(TallyOf(ks))
  {
    var d := Distinct(ks);
    var t := TallyOf(ks);
    forall i, j | 0 <= i < j < |t|
      ensures t[i] != t[j]
    {
      assert t[i].key == d[i] && t[j].key == d[j];
    }
  }

  /** Each entry of the tally counts the occurrences of its key, at least one. */
  lemma TallyCounts<K>(ks: seq<K>)
    ensures forall e :: e in TallyOf(ks) ==> e.count == Count(ks, e.key) && e.count > 0
  {
    var d := Distinct(ks);
    var t := TallyOf(ks);
    forall e | e in t
      ensures e.count == Count(ks, e.key) && e.count > 0
    {
      var i :| 0 <= i < |t| && t[i] == e;
      assert d[i] in ks;
    }
  }

  // ---------------------------------------------------------------------------
  // Top-k of a counting map
  // ---------------------------------------------------------------------------

  lemma {:induction false} NoDupsMultiset<T>(s: seq<T>, x: T)
    requires NoDups(s)
    ensures multiset(s)[x] <= 1
  {
    if s != [] {
      assert s == [s[0]] + s[1..];
      assert NoDups(s[1..]) by {
        forall i, j | 0 <= i < j < |s[1..]|
          ensures s[1..][i] != s[1..][j]
        {
          assert s[1..][i] == s[i + 1] && s[1..][j] == s[j + 1];
        }
      }
      NoDupsMultiset(s[1..], x);
      if s[0] == x {
        assert x !in s[1..] by {
          forall k | 0 <= k < |s[1..]|
            ensures s[1..][k] != x
          {
            assert s[1..][k] == s[k + 1];
          }
        }
      }
    }
  }

  lemma NoDupsPermutation<T>(s: seq<T>, t: seq<T>)
    requires NoDups(s) && multiset(s) == multiset(t)
    ensures NoDups(t)
  {
    forall i, j | 0 <= i < j < |t|
      ensures t[i] != t[j]
    {
      NoDupsMultiset(s, t[i]);
      assert t == t[..j] + t[j..];
      assert t[i] in t[..j];
      assert t[j] in t[j..];
    }
  }

  /** No two entries of `s` have the same name. */
  predicate DistinctNames<T, N(==)>(s: seq<T>, name: T -> N) {
    forall i, j :: 0 <= i < j < |s| ==> name(s[i]) != name(s[j])
  }

  /** Sorting a list whose entries have pairwise distinct names and keeping a prefix keeps the names distinct. */
  lemma SortedNamesDistinct<T, N>(s: seq<T>, key: T -> int, name: T -> N, n: nat)
    requires DistinctNames(s, name)
    ensures DistinctNames(Take(SortDesc(s, key), n), name)
  {
    var sorted := SortDesc(s, key);
    var top := Take(sorted, n);
    assert NoDups(s);
    NoDupsPermutation(s, sorted);
    forall i, j | 0 <= i < j < |top|
      ensures name(top[i]) != name(top[j])
    {
      assert top[i] == sorted[i] && top[j] == sorted[j];
      assert sorted[i] in multiset(s) && sorted[j] in multiset(s);
      var a :| 0 <= a < |s| && s[a] == sorted[i];
      var b :| 0 <= b < |s| && s[b] == sorted[j];
    }
  }

  /** The `n` most frequent keys, as `Array.from(map.entries()).sort((a, b) => b[1] - a[1]).slice(0, n)`. */
  function TopEntries<K(==)>(ks: seq<K>, n: nat): seq<Entry<K>> {
    Take(SortDesc(TallyOf(ks), EntryCount), n)
  }

  /**
   * The top entries: the `n` most frequent keys, or every key when there are
   * fewer, each occurring in `ks` with its exact count, no key twice, counts
   * never increasing, and no key left out occurring more often than a key
   * kept; when `n` covers every key, all counts are there and add up to `|ks|`.
   */
  lemma TopEntriesFacts<K>(ks: seq<K>, n: nat)
    ensures |TopEntries(ks, n)| == if n < |Distinct(ks)| then n else |Distinct(ks)|
    ensures forall k :: k in ks && k !in Keys(TopEntries(ks, n)) ==>
              forall e :: e in TopEntries(ks, n) ==> Count(ks, k) <= e.count
    ensures forall e :: e in TopEntries(ks, n) ==> e.count == Count(ks, e.key) && e.count > 0
    ensures NoDups(Keys(TopEntries(ks, n)))
    ensures NonIncreasing(TopEntries(ks, n), EntryCount)
    ensures |Distinct(ks)| <= n ==> SumBy(TopEntries(ks, n), EntryCount) == |ks|
  {
    var top := TopEntries(ks, n);
    TallyOfFacts(ks);
    forall e | e in top
      ensures e.count == Count(ks, e.key) && e.count > 0
    {
      TopEntryInTally(ks, n, e);
    }
    TopEntriesDistinct(ks, n);
    TopEntriesOrdered(ks, n);
    TopEntriesSelect(ks, n);
    if |Distinct(ks)| <= n {
      SortDescSum(TallyOf(ks), EntryCount, EntryCount);
      assert top == SortDesc(TallyOf(ks), EntryCount);
    }
  }

  lemma TopEntriesSelect<K>(ks: seq<K>, n: nat)
    ensures |TopEntries(ks, n)| == if n < |Distinct(ks)| then n else |Distinct(ks)|
    ensures forall k :: k in ks && k !in Keys(TopEntries(ks, n)) ==>
              forall e :: e in TopEntries(ks, n) ==> Count(ks, k) <= e.count
  {
    var t := TallyOf(ks);
    var top := TopEntries(ks, n);
    TallyOrder(ks);
    forall k | k in ks && k !in Keys(top)
      ensures forall e :: e in top ==> Count(ks, k) <= e.count
    {
      var d := Distinct(ks);
      var i :| 0 <= i < |ks| && ks[i] == k;
      var m :| 0 <= m < |d| && d[m] == k;
      assert t[m] == Entry(k, Count(ks, k));
      assert t[m] !in top by {
        assert forall j :: 0 <= j < |top| ==> Keys(top)[j] == top[j].key;
      }
      TakeSortDescTop(t, EntryCount, n, t[m]);
    }
  }

  lemma TopEntriesDistinct<K>(ks: seq<K>, n: nat)
    ensures NoDups(Keys(TopEntries(ks, n)))
  {
    var t := TallyOf(ks);
    var sorted := SortDesc(t, EntryCount);
    var top := TopEntries(ks, n);
    TallyOfFacts(ks);
    NoDupsPermutation(t, sorted);
    forall i, j | 0 <= i < j < |top|
      ensures top[i].key != top[j].key
    {
      TopEntryInTally(ks, n, top[i]);
      TopEntryInTally(ks, n, top[j]);
      assert top[i] == sorted[i] && top[j] == sorted[j];
    }
  }

  lemma TopEntriesOrdered<K>(ks: seq<K>, n: nat)
    ensures NonIncreasing(TopEntries(ks, n), EntryCount)
  {
    var sorted := SortDesc(TallyOf(ks), EntryCount);
    var top := TopEntries(ks, n);
    forall i, j | 0 <= i < j < |top|
      ensures top[i].count >= top[j].count
    {
      assert top[i] == sorted[i] && top[j] == sorted[j];
    }
  }

  lemma TopEntriesAll<K>(ks: seq<K>)
    ensures TopEntries(ks, |ks|) == SortDesc(TallyOf(ks), EntryCount)
  {
    TallyOrder(ks);
  }

  /**
   * The whole tally, most frequent first: every key of `ks` once with its exact
   * count, the counts adding up to `|ks|` and never increasing.
   */
  lemma SortedTallyFacts<K>(ks: seq<K>)
    ensures var sorted := SortDesc(TallyOf(ks), EntryCount);
      && SumBy(sorted, EntryCount) == |ks|
      && NonIncreasing(sorted, EntryCount)
      && NoDups(Keys(sorted))
      && (forall e :: e in sorted ==> e.count == Count(ks, e.key) > 0)
      && (forall i :: 0 <= i < |ks| ==> ks[i] in Keys(sorted))
  {
    TopEntriesAll(ks);
    TopEntriesFacts(ks, |ks|);
    forall i | 0 <= i < |ks|
      ensures ks[i] in Keys(SortDesc(TallyOf(ks), EntryCount))
    {
      TopEntriesKeys(ks, |ks|, ks[i]);
    }
  }

  lemma TopEntryInTally<K>(ks: seq<K>, n: nat, e: Entry<K>)
    requires e in TopEntries(ks, n)
    ensures e in TallyOf(ks)
    ensures e.count == Count(ks, e.key) && e.count > 0
  {
    var sorted := SortDesc(TallyOf(ks), EntryCount);
    assert e in sorted;
    SortDescMembers(TallyOf(ks), EntryCount, e);
    TallyOfFacts(ks);
  }

  /**
   * The keys of the top entries: the `n` most frequent keys, or all of them
   * when there are fewer, distinct, in non-increasing order of their counts in
   * `ks`, and none left out occurring more often than one kept.
   */
  lemma TopKeysFacts<K>(ks: seq<K>, n: nat)
    ensures |Keys(TopEntries(ks, n))| == if n < |Distinct(ks)| then n else |Distinct(ks)|
    ensures forall k, k' :: k in ks && k !in Keys(TopEntries(ks, n)) && k' in Keys(TopEntries(ks, n)) ==>
              Count(ks, k) <= Count(ks, k')
    ensures NoDups(Keys(TopEntries(ks, n)))
    ensures forall i, j :: 0 <= i < j < |Keys(TopEntries(ks, n))| ==>
              Count(ks, Keys(TopEntries(ks, n))[i]) >= Count(ks, Keys(TopEntries(ks, n))[j])
  {
    var top := TopEntries(ks, n);
    TopEntriesDistinct(ks, n);
    TopEntriesOrdered(ks, n);
    TopEntriesSelect(ks, n);
    forall i, j | 0 <= i < j < |top|
      ensures Count(ks, top[i].key) >= Count(ks, top[j].key)
    {
      TopEntryInTally(ks, n, top[i]);
      TopEntryInTally(ks, n, top[j]);
    }
    TopKeysSelect(ks, n);
  }

  lemma TopKeysSelect<K>(ks: seq<K>, n: nat)
    ensures forall k, k' :: k in ks && k !in Keys(TopEntries(ks, n)) && k' in Keys(TopEntries(ks, n)) ==>
              Count(ks, k) <= Count(ks, k')
  {
    var top := TopEntries(ks, n);
    forall k, k' | k in ks && k !in Keys(top) && k' in Keys(top)
      ensures Count(ks, k) <= Count(ks, k')
    {
      TopEntriesSelect(ks, n);
      var j :| 0 <= j < |top| && Keys(top)[j] == k';
      assert top[j] in top;
      TopEntryInTally(ks, n, top[j]);
    }
  }

  /** A key is among the top entries only if it occurs; when `n` covers every key, each key that occurs is there. */
  lemma TopEntriesKeys<K>(ks: seq<K>, n: nat, k: K)
    ensures k in Keys(TopEntries(ks, n)) ==> k in ks
    ensures |Distinct(ks)| <= n && k in ks ==> k in Keys(TopEntries(ks, n))
  {
    var t := TallyOf(ks);
    var sorted := SortDesc(t, EntryCount);
    var top := TopEntries(ks, n);
    if k in Keys(top) {
      var i :| 0 <= i < |top| && Keys(top)[i] == k;
      TopEntryInTally(ks, n, top[i]);
    }
    if |Distinct(ks)| <= n && k in ks {
      TallyOfFacts(ks);
      var d := Distinct(ks);
      var i :| 0 <= i < |ks| && ks[i] == k;
      assert k in d;
      var m :| 0 <= m < |d| && d[m] == k;
      assert t[m].key == k;
      SortDescMembers(t, EntryCount, t[m]);
      assert top == sorted;
      var j :| 0 <= j < |sorted| && sorted[j] == t[m];
      assert Keys(top)[j] == k;
    }
  }

  // ---------------------------------------------------------------------------
  // Grouping maps
  // ---------------------------------------------------------------------------

  function KeysOf<T, K>(xs: seq<T>, key: T -> K): (r: seq<K>)
    ensures |r| == |xs|
    ensures forall i :: 0 <= i < |xs| ==> r[i] == key(xs[i])
  {
    seq(|xs|, i requires 0 <= i < |xs| => key(xs[i]))
  }

  /** The items of `xs` whose key is `k`, in their order in `xs`. */
  function Members<T, K(==)>(xs: seq<T>, key: T -> K, k: K): (r: seq<T>)
    ensures |r| == Count(KeysOf(xs, key), k)
  {
    if xs == [] then []
    else
      var init := xs[..|xs| - 1];
      var last := xs[|xs| - 1];
      assert KeysOf(xs, key) == KeysOf(init, key) + [key(last)];
      CountSnoc(KeysOf(init, key), key(last), k);
      Members(init, key, k) + (if key(last) == k then [last] else [])
  }

  /** Every member of a group is an item of `xs` carrying the group's key. */
  lemma {:induction false} MembersFacts<T, K>(xs: seq<T>, key: T -> K, k: K)
    ensures forall i :: 0 <= i < |Members(xs, key, k)| ==>
              Members(xs, key, k)[i] in xs && key(Members(xs, key, k)[i]) == k
  {
    if xs != [] {
      var init := xs[..|xs| - 1];
      MembersFacts(init, key, k);
      assert forall x :: x in init ==> x in xs;
    }
  }

  /** An item carrying the key is among the key's members. */
  lemma {:induction false} MembersContain<T, K>(xs: seq<T>, key: T -> K, n: nat)
    requires n < |xs|
    ensures xs[n] in Members(xs, key, key(xs[n]))
  {
    var init := xs[..|xs| - 1];
    if n < |xs| - 1 {
      MembersContain(init, key, n);
      assert init[n] == xs[n];
    }
  }

  /** The first member under a key is the first item carrying that key. */
  lemma {:induction false} MembersHead<T, K>(xs: seq<T>, key: T -> K, k: K)
    requires |Members(xs, key, k)| > 0
    ensures exists i :: 0 <= i < |xs| && Members(xs, key, k)[0] == xs[i] && key(xs[i]) == k
                        && forall j :: 0 <= j < i ==> key(xs[j]) != k
  {
    var init := xs[..|xs| - 1];
    var last := xs[|xs| - 1];
    if |Members(init, key, k)| > 0 {
      MembersHead(init, key, k);
      var i :| 0 <= i < |init| && Members(init, key, k)[0] == init[i] && key(init[i]) == k
               && forall j :: 0 <= j < i ==> key(init[j]) != k;
      assert xs[i] == init[i];
      assert forall j :: 0 <= j < i ==> xs[j] == init[j];
    } else {
      assert k !in KeysOf(init, key);
      forall j | 0 <= j < |xs| - 1
        ensures key(xs[j]) != k
      {
        assert KeysOf(init, key)[j] == key(xs[j]);
      }
    }
  }

  lemma MembersSnoc<T, K>(xs: seq<T>, key: T -> K, x: T, k: K)
    ensures Members(xs + [x], key, k) == Members(xs, key, k) + (if key(x) == k then [x] else [])
  {
    assert (xs + [x])[..|xs|] == xs;
  }

  /**
   * The value a `Map` entry holds once the items `ms` sharing its key were
   * visited: the first item creates the entry with `start`, and every item,
   * the first included, then updates it with `step`.
   */
  function Fold<T, A>(ms: seq<T>, start: T -> A, step: (A, T) -> A): A
    requires |ms| > 0
  {
    if |ms| == 1 then step(start(ms[0]), ms[0])
    else step(Fold(ms[..|ms| - 1], start, step), ms[|ms| - 1])
  }

  lemma FoldSnoc<T, A>(ms: seq<T>, x: T, start: T -> A, step: (A, T) -> A)
    requires |ms| > 0
    ensures Fold(ms + [x], start, step) == step(Fold(ms, start, step), x)
  {
    assert (ms + [x])[..|ms|] == ms;
  }

  /** One `[key, value]` pair of `Array.from(map.entries())`. */
  datatype Slot<K, A> = Slot(key: K, value: A)

  function SlotKeys<K, A>(slots: seq<Slot<K, A>>): (r: seq<K>)
    ensures |r| == |slots|
    ensures forall i :: 0 <= i < |slots| ==> r[i] == slots[i].key
  {
    seq(|slots|, i requires 0 <= i < |slots| => slots[i].key)
  }

  /** The entries of the `Map` after visiting `xs`: one per key, in insertion order, each the fold of its items. */
  function Accumulated<T, K(==), A>(xs: seq<T>, key: T -> K, start: T -> A, step: (A, T) -> A): seq<Slot<K, A>> {
    var d := Distinct(KeysOf(xs, key));
    seq(|d|, i requires 0 <= i < |d| => Slot(d[i], Fold(Members(xs, key, d[i]), start, step)))
  }

  /** The `i`-th entry is the fold of the items of the `i`-th distinct key. */
  lemma SlotAt<T, K, A>(xs: seq<T>, key: T -> K, start: T -> A, step: (A, T) -> A, i: nat)
    requires i < |Distinct(KeysOf(xs, key))|
    ensures var k := Distinct(KeysOf(xs, key))[i];
      && |Members(xs, key, k)| > 0
      && i < |Accumulated(xs, key, start, step)|
      && Accumulated(xs, key, start, step)[i] == Slot(k, Fold(Members(xs, key, k), start, step))
  {
    var d := Distinct(KeysOf(xs, key));
    assert d[i] in d;
    MembersOfDistinct(xs, key, d[i]);
  }

  /** `order` and `acc` are the `Map` after visiting the items `done`: its keys in insertion order and the entry under each. */
  ghost predicate Accumulating<T, K(!new), A>(done: seq<T>, key: T -> K, start: T -> A, step: (A, T) -> A,
                                              order: seq<K>, acc: map<K, A>) {
    && order == Distinct(KeysOf(done, key))
    && (forall k :: k in acc <==> k in order)
    && (forall j :: 0 <= j < |order| ==> acc[order[j]] == Fold(Members(done, key, order[j]), start, step))
  }

  /** Visiting one more item keeps the map in step with `Distinct` and `Fold`. */
  lemma AccumulatingSnoc<T, K(!new), A>(done: seq<T>, key: T -> K, start: T -> A, step: (A, T) -> A,
                                        order: seq<K>, acc: map<K, A>, x: T)
    requires Accumulating(done, key, start, step, order, acc)
    ensures var k := key(x);
      var order' := if k in acc then order else order + [k];
      var created := if k in acc then acc else acc[k := start(x)];
      Accumulating(done + [x], key, start, step, order', created[k := step(created[k], x)])
  {
    var k := key(x);
    var order' := if k in acc then order else order + [k];
    var created := if k in acc then acc else acc[k := start(x)];
    var acc' := created[k := step(created[k], x)];
    DistinctKeysSnoc(done, key, x);
    assert order' == Distinct(KeysOf(done + [x], key));
    forall j | 0 <= j < |order'|
      ensures |Members(done + [x], key, order'[j])| > 0
      ensures acc'[order'[j]] == Fold(Members(done + [x], key, order'[j]), start, step)
    {
      AccumulatingSnocSlot(done, key, start, step, order, acc, x, order', acc', j);
    }
    forall k' | k' in acc' || k' in order'
      ensures k' in acc' <==> k' in order'
    {
      assert k' in acc' <==> k' == k || k' in acc;
      assert k' in order' <==> k' == k || k' in order;
    }
    assert Accumulating(done + [x], key, start, step, order', acc');
  }

  lemma AccumulatingSnocSlot<T, K(!new), A>(done: seq<T>, key: T -> K, start: T -> A, step: (A, T) -> A,
                                            order: seq<K>, acc: map<K, A>, x: T,
                                            order': seq<K>, acc': map<K, A>, j: int)
    requires Accumulating(done, key, start, step, order, acc)
    requires order' == if key(x) in acc then order else order + [key(x)]
    requires acc' == var created := if key(x) in acc then acc else acc[key(x) := start(x)];
                     created[key(x) := step(created[key(x)], x)]
    requires order' == Distinct(KeysOf(done + [x], key))
    requires 0 <= j < |order'|
    ensures |Members(done + [x], key, order'[j])| > 0
    ensures acc'[order'[j]] == Fold(Members(done + [x], key, order'[j]), start, step)
  {
    var k := key(x);
    var k' := order'[j];
    MembersOfDistinct(done + [x], key, k');
    if k' != k {
      assert j < |order| && order[j] == k';
      SlotUntouched(done, key, start, step, order, acc, x, j);
      assert acc'[k'] == acc[k'];
    } else if k in acc {
      SlotUpdated(done, key, start, step, order, acc, x);
    } else {
      SlotCreated(done, key, start, step, order, acc, x);
    }
  }

  lemma DistinctKeysSnoc<T, K>(done: seq<T>, key: T -> K, x: T)
    ensures var d := Distinct(KeysOf(done, key));
      Distinct(KeysOf(done + [x], key)) == if key(x) in d then d else d + [key(x)]
  {
    assert KeysOf(done + [x], key) == KeysOf(done, key) + [key(x)];
    DistinctSnoc(KeysOf(done, key), key(x));
  }

  lemma MembersOfDistinct<T, K>(xs: seq<T>, key: T -> K, k: K)
    requires k in Distinct(KeysOf(xs, key))
    ensures |Members(xs, key, k)| > 0
  {
    var d := Distinct(KeysOf(xs, key));
    var i :| 0 <= i < |d| && d[i] == k;
    assert k in KeysOf(xs, key);
  }

  lemma SlotUntouched<T, K(!new), A>(done: seq<T>, key: T -> K, start: T -> A, step: (A, T) -> A,
                                     order: seq<K>, acc: map<K, A>, x: T, j: int)
    requires Accumulating(done, key, start, step, order, acc)
    requires 0 <= j < |order| && order[j] != key(x)
    ensures |Members(done + [x], key, order[j])| > 0
    ensures Fold(Members(done + [x], key, order[j]), start, step) == acc[order[j]]
  {
    var k' := order[j];
    MembersOfDistinct(done, key, k');
    MembersSnoc(done, key, x, k');
    assert Members(done + [x], key, k') == Members(done, key, k');
  }

  lemma SlotUpdated<T, K(!new), A>(done: seq<T>, key: T -> K, start: T -> A, step: (A, T) -> A,
                                   order: seq<K>, acc: map<K, A>, x: T)
    requires Accumulating(done, key, start, step, order, acc)
    requires key(x) in acc
    ensures |Members(done + [x], key, key(x))| > 0
    ensures Fold(Members(done + [x], key, key(x)), start, step) == step(acc[key(x)], x)
  {
    var k := key(x);
    var j :| 0 <= j < |order| && order[j] == k;
    MembersOfDistinct(done, key, k);
    MembersSnoc(done, key, x, k);
    FoldSnoc(Members(done, key, k), x, start, step);
  }

  lemma SlotCreated<T, K(!new), A>(done: seq<T>, key: T -> K, start: T -> A, step: (A, T) -> A,
                                   order: seq<K>, acc: map<K, A>, x: T)
    requires Accumulating(done, key, start, step, order, acc)
    requires key(x) !in acc
    ensures Members(done + [x], key, key(x)) == [x]
  {
    var k := key(x);
    assert k !in KeysOf(done, key);
    assert Members(done, key, k) == [];
    MembersSnoc(done, key, x, k);
  }

  /**
   * The accumulation loop: per item, `if (!map.has(k)) map.set(k, start(x))`
   * followed by the in-place update of `map.get(k)`; then the entries.
   */
  method AccumulateBy<T, K(==, !new), A>(xs: seq<T>, key: T -> K, start: T -> A, step: (A, T) -> A)
    returns (slots: seq<Slot<K, A>>)
    ensures slots == Accumulated(xs, key, start, step)
  {
    var order: seq<K> := [];
    var acc: map<K, A> := map[];
    for i := 0 to |xs|
      invariant Accumulating(xs[..i], key, start, step, order, acc)
    {
      var x := xs[i];
      AccumulatingSnoc(xs[..i], key, start, step, order, acc, x);
      PrefixSnoc(xs, i);
      var k := key(x);
      if k !in acc {
        acc := acc[k := start(x)];
        order := order + [k];
      }
      acc := acc[k := step(acc[k], x)];
    }
    assert xs[..|xs|] == xs;
    slots := seq(|order|, j requires 0 <= j < |order| => Slot(order[j], acc[order[j]]));
    assert |slots| == |Accumulated(xs, key, start, step)|;
    forall j | 0 <= j < |slots|
      ensures slots[j] == Accumulated(xs, key, start, step)[j]
    {
    }
  }

  /**
   * The entries have pairwise distinct keys, every key is carried by some item,
   * and every item's key has an entry.
   */
  lemma AccumulatedKeys<T, K, A>(xs: seq<T>, key: T -> K, start: T -> A, step: (A, T) -> A)
    ensures SlotKeys(Accumulated(xs, key, start, step)) == Distinct(KeysOf(xs, key))
    ensures NoDups(SlotKeys(Accumulated(xs, key, start, step)))
    ensures forall k :: k in SlotKeys(Accumulated(xs, key, start, step)) <==> exists x :: x in xs && key(x) == k
  {
    var ks := KeysOf(xs, key);
    var d := Distinct(ks);
    assert SlotKeys(Accumulated(xs, key, start, step)) == d;
    forall k
      ensures k in d <==> exists x :: x in xs && key(x) == k
    {
      if k in d {
        var j :| 0 <= j < |ks| && ks[j] == k;
        assert xs[j] in xs;
      }
      if exists x :: x in xs && key(x) == k {
        var x :| x in xs && key(x) == k;
        var j :| 0 <= j < |xs| && xs[j] == x;
        assert ks[j] == k;
      }
    }
  }

  /** Any per-key quantity equal to the number of items under the key sums to the number of items. */
  lemma GroupSizesSum<T, K, B>(xs: seq<T>, key: T -> K, bs: seq<B>, size: B -> int)
    requires |bs| == |Distinct(KeysOf(xs, key))|
    requires forall i :: 0 <= i < |bs| ==> size(bs[i]) == |Members(xs, key, Distinct(KeysOf(xs, key))[i])|
    ensures SumBy(bs, size) == |xs|
  {
    var ks := KeysOf(xs, key);
    var d := Distinct(ks);
    EntriesForSum(d, ks);
    SumByPointwise(bs, size, TallyOf(ks), EntryCount);
  }
}
