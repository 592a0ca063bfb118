/**
 * Keep the best item per key, sort, take the first few: the merge that the
 * investor home screen and the founder feed share. The question answered here is
 * how much of the answer survives when each source is cut before the merge.
 */
module Ranking {
  import opened Options

  /** One row of a source: a startup with its score, or an event with its time. */
  datatype Item<K> = Item(key: K, rank: int)

  ghost predicate SortedDesc<K>(xs: seq<Item<K>>) {
    forall i, j | 0 <= i < j < |xs| :: xs[i].rank >= xs[j].rank
  }

  ghost predicate DistinctKeys<K>(xs: seq<Item<K>>) {
    forall i, j | 0 <= i < j < |xs| :: xs[i].key != xs[j].key
  }

  /** The keys seen with rank at least t. */
  ghost function KeysAtLeast<K>(xs: seq<Item<K>>, t: int): set<K> {
    set x | x in xs && x.rank >= t :: x.key
  }

  function Flatten<K>(lists: seq<seq<Item<K>>>): seq<Item<K>> {
    if lists == [] then [] else Flatten(lists[..|lists| - 1]) + lists[|lists| - 1]
  }

  function Take<K>(xs: seq<Item<K>>, n: nat): (taken: seq<Item<K>>)
    ensures taken <= xs && |taken| <= n && (|taken| < n ==> taken == xs)
  {
    if n < |xs| then xs[..n] else xs
  }

  lemma TakeKeepsOrder<K>(xs: seq<Item<K>>, n: nat)
    requires SortedDesc(xs) && DistinctKeys(xs)
    ensures SortedDesc(Take(xs, n)) && DistinctKeys(Take(xs, n))
  {
  }

  function Cut<K>(lists: seq<seq<Item<K>>>, p: nat): seq<seq<Item<K>>> {
    seq(|lists|, i requires 0 <= i < |lists| => Take(lists[i], p))
  }

  // ---- best per key ----

  /** Some item of es has x's key and ranks at least as high. */
  ghost predicate Covers<K(!new)>(es: seq<Item<K>>, x: Item<K>) {
    exists e | e in es :: e.key == x.key && e.rank >= x.rank
  }

  /** es holds each key of xs once, with its highest rank, and nothing else. */
  ghost predicate BestPerKey<K(!new)>(es: seq<Item<K>>, xs: seq<Item<K>>) {
    && DistinctKeys(es)
    && (forall e | e in es :: e in xs)
    && (forall x | x in xs :: Covers(es, x))
  }

  /** `out` is some sorted arrangement of the best item of every key of xs. */
  ghost predicate Ranks<K(!new)>(out: seq<Item<K>>, xs: seq<Item<K>>) {
    SortedDesc(out) && BestPerKey(out, xs)
  }

  lemma DistinctIsBest<K(!new)>(xs: seq<Item<K>>)
    requires DistinctKeys(xs)
    ensures BestPerKey(xs, xs)
  {
  }

  function IndexOf<K(==)>(es: seq<Item<K>>, key: K): (i: Option<nat>)
    ensures i.Some? ==> i.value < |es| && es[i.value].key == key
    ensures i == None ==> forall e | e in es :: e.key != key
  {
    if es == [] then None
    else if es[|es| - 1].key == key then Some(|es| - 1)
    else IndexOf(es[..|es| - 1], key)
  }

  /** One `byStartup.set` of the nested loop: a Map keeps its insertion order. */
  function Put<K(==)>(es: seq<Item<K>>, x: Item<K>): seq<Item<K>> {
    var i := IndexOf(es, x.key);
    if i == None then es + [x]
    else if x.rank > es[i.value].rank then es[i.value := x]
    else es
  }

  lemma PutCovers<K(!new)>(es: seq<Item<K>>, x: Item<K>, y: Item<K>)
    requires Covers(es, y) || y == x
    ensures Covers(Put(es, x), y)
  {
    var es' := Put(es, x);
    var i := IndexOf(es, x.key);
    if y == x {
      assert i == None ==> es'[|es|] == x;
      assert i.Some? ==> es'[i.value].key == x.key && es'[i.value].rank >= x.rank;
    } else {
      var e :| e in es && e.key == y.key && e.rank >= y.rank;
      var k :| 0 <= k < |es| && es[k] == e;
      assert es'[k] in es' && es'[k].key == y.key && es'[k].rank >= y.rank;
    }
  }

  lemma PutKeepsDistinct<K>(es: seq<Item<K>>, x: Item<K>)
    requires DistinctKeys(es)
    ensures DistinctKeys(Put(es, x))
    ensures forall e | e in Put(es, x) :: e in es || e == x
  {
    if IndexOf(es, x.key) == None {
      assert forall k | 0 <= k < |es| :: es[k] in es;
    }
  }

  lemma PutKeepsBest<K(!new)>(es: seq<Item<K>>, xs: seq<Item<K>>, x: Item<K>)
    requires BestPerKey(es, xs)
    ensures BestPerKey(Put(es, x), xs + [x])
  {
    PutKeepsDistinct(es, x);
    forall y | y in xs + [x] ensures Covers(Put(es, x), y) {
      PutCovers(es, x, y);
    }
  }

  lemma InsertedIsSorted<K>(xs: seq<Item<K>>, x: Item<K>, i: nat)
    requires SortedDesc(xs) && i <= |xs|
    requires forall j | 0 <= j < i :: xs[j].rank >= x.rank
    requires i < |xs| ==> xs[i].rank < x.rank
    ensures SortedDesc(xs[..i] + [x] + xs[i..])
  {
    var out := xs[..i] + [x] + xs[i..];
    forall j, k | 0 <= j < k < |out| ensures out[j].rank >= out[k].rank {
      if k > i {
        assert out[k] == xs[k - 1] && x.rank >= xs[i].rank >= xs[k - 1].rank;
      }
    }
  }

  lemma InsertedIsPermuted<K>(xs: seq<Item<K>>, x: Item<K>, i: nat)
    requires i <= |xs|
    ensures multiset(xs[..i] + [x] + xs[i..]) == multiset(xs) + multiset{x}
  {
    assert xs == xs[..i] + xs[i..];
  }

  method InsertByRank<K>(xs: seq<Item<K>>, x: Item<K>) returns (out: seq<Item<K>>)
    requires SortedDesc(xs)
    ensures SortedDesc(out) && multiset(out) == multiset(xs) + multiset{x}
  {
    var i := 0;
    while i < |xs| && xs[i].rank >= x.rank
      invariant i <= |xs|
      invariant forall j | 0 <= j < i :: xs[j].rank >= x.rank
    {
      i := i + 1;
    }
    InsertedIsSorted(xs, x, i);
    InsertedIsPermuted(xs, x, i);
    out := xs[..i] + [x] + xs[i..];
  }

  /** Some sorted permutation of xs. */
  method SortByRank<K>(xs: seq<Item<K>>) returns (out: seq<Item<K>>)
    ensures SortedDesc(out) && multiset(out) == multiset(xs)
  {
    out := [];
    for n := 0 to |xs|
      invariant SortedDesc(out) && multiset(out) == multiset(xs[..n])
    {
      out := InsertByRank(out, xs[n]);
      assert xs[..n + 1] == xs[..n] + [xs[n]];
    }
    assert xs[..|xs|] == xs;
  }

  lemma SortingKeepsBest<K(!new)>(out: seq<Item<K>>, es: seq<Item<K>>, xs: seq<Item<K>>)
    requires BestPerKey(es, xs) && multiset(out) == multiset(es)
    ensures BestPerKey(out, xs)
  {
    forall e: Item<K> | true ensures e in out <==> e in es {
      assert e in multiset(out) <==> e in multiset(es);
    }
    PermutationKeepsDistinct(out, es);
  }

  lemma PermutationKeepsDistinct<K>(out: seq<Item<K>>, es: seq<Item<K>>)
    requires DistinctKeys(es) && multiset(out) == multiset(es)
    ensures DistinctKeys(out)
  {
    forall i, j | 0 <= i < j < |out| ensures out[i].key != out[j].key {
      if out[i].key == out[j].key {
        assert out[i] in multiset(es) && out[j] in multiset(es);
        assert out[i] == out[j];
        assert out == out[..i] + [out[i]] + out[i + 1..j] + [out[j]] + out[j + 1..];
        assert multiset(out)[out[i]] >= 2;
        OncePerKey(es, out[i]);
      }
    }
  }

  lemma {:induction false} OncePerKey<K>(es: seq<Item<K>>, e: Item<K>)
    requires DistinctKeys(es)
    ensures multiset(es)[e] <= 1
  {
    if es != [] {
      var n := |es| - 1;
      assert es == es[..n] + [es[n]];
      OncePerKey(es[..n], e);
    }
  }

  // ---- counting: a rank is reached at position i iff more than i keys reach it ----

  lemma {:induction false} KeyCount<K>(xs: seq<Item<K>>, t: int)
    requires DistinctKeys(xs) && forall x | x in xs :: x.rank >= t
    ensures |KeysAtLeast(xs, t)| == |xs|
  {
    if xs == [] {
      assert KeysAtLeast(xs, t) == {};
    } else {
      var n := |xs| - 1;
      KeyCount(xs[..n], t);
      assert xs == xs[..n] + [xs[n]];
      assert KeysAtLeast(xs, t) == KeysAtLeast(xs[..n], t) + {xs[n].key};
    }
  }

  lemma {:induction false} SortedRank<K>(out: seq<Item<K>>, t: int, i: nat)
    requires SortedDesc(out) && DistinctKeys(out)
    ensures i < |KeysAtLeast(out, t)| <==> i < |out| && out[i].rank >= t
  {
    if out == [] {
      assert KeysAtLeast(out, t) == {};
    } else {
      var n := |out| - 1;
      assert out == out[..n] + [out[n]];
      if out[n].rank >= t {
        KeyCount(out, t);
      } else {
        SortedRank(out[..n], t, i);
        assert KeysAtLeast(out, t) == KeysAtLeast(out[..n], t);
      }
    }
  }

  lemma BestKeepsCounts<K(!new)>(es: seq<Item<K>>, xs: seq<Item<K>>, t: int)
    requires BestPerKey(es, xs)
    ensures KeysAtLeast(es, t) == KeysAtLeast(xs, t)
  {
    forall x | x in xs && x.rank >= t ensures x.key in KeysAtLeast(es, t) {
      assert Covers(es, x);
    }
  }

  /** What position i of a ranking says about the rows it ranks. */
  lemma RankingReads<K(!new)>(out: seq<Item<K>>, xs: seq<Item<K>>, t: int, i: nat)
    requires Ranks(out, xs)
    ensures i < |KeysAtLeast(xs, t)| <==> i < |out| && out[i].rank >= t
  {
    BestKeepsCounts(out, xs, t);
    SortedRank(out, t, i);
  }

  // ---- cutting each source to p ----

  ghost predicate RankedLists<K>(lists: seq<seq<Item<K>>>) {
    forall i | 0 <= i < |lists| :: SortedDesc(lists[i]) && DistinctKeys(lists[i])
  }

  lemma {:induction false} FlattenHas<K>(lists: seq<seq<Item<K>>>, i: nat, x: Item<K>)
    requires i < |lists| && x in lists[i]
    ensures x in Flatten(lists)
  {
    var n := |lists| - 1;
    if i < n {
      FlattenHas(lists[..n], i, x);
    }
  }

  lemma FlattenFrom<K>(lists: seq<seq<Item<K>>>, x: Item<K>) returns (i: nat)
    requires x in Flatten(lists)
    ensures i < |lists| && x in lists[i]
  {
    var n := |lists| - 1;
    if x in lists[n] {
      i := n;
    } else {
      i := FlattenFrom(lists[..n], x);
    }
  }

  lemma CutIsPart<K>(lists: seq<seq<Item<K>>>, p: nat, t: int)
    ensures KeysAtLeast(Flatten(Cut(lists, p)), t) <= KeysAtLeast(Flatten(lists), t)
  {
    forall x | x in Flatten(Cut(lists, p)) ensures x in Flatten(lists) {
      var i := FlattenFrom(Cut(lists, p), x);
      FlattenHas(lists, i, x);
    }
  }

  /** Cutting loses no key that reaches t, unless p other keys reach it. */
  lemma CutCounts<K>(lists: seq<seq<Item<K>>>, p: nat, t: int)
    requires RankedLists(lists)
    ensures var cut, full := KeysAtLeast(Flatten(Cut(lists, p)), t), KeysAtLeast(Flatten(lists), t);
            cut <= full && (cut == full || |cut| >= p)
  {
    var cut, full := KeysAtLeast(Flatten(Cut(lists, p)), t), KeysAtLeast(Flatten(lists), t);
    CutIsPart(lists, p, t);
    if cut != full {
      var k :| k in full && k !in cut;
      var x :| x in Flatten(lists) && x.rank >= t && x.key == k;
      var i, j := CutAway(lists, p, x);
      CutOffBehind(lists, p, i, j);
      SubsetCount(KeysAtLeast(Flatten(Cut(lists, p)), x.rank), cut);
    }
  }

  lemma TakeHas<K>(xs: seq<Item<K>>, p: nat, j: nat)
    requires j < |xs|
    ensures j < p ==> xs[j] in Take(xs, p)
  {
    if j < p {
      assert Take(xs, p)[j] == xs[j];
    }
  }

  /** If place j of list i is cut away, the p items kept of that list all rank as high. */
  lemma CutOffBehind<K>(lists: seq<seq<Item<K>>>, p: nat, i: nat, j: nat)
    requires RankedLists(lists) && i < |lists| && p <= j < |lists[i]|
    ensures |KeysAtLeast(Flatten(Cut(lists, p)), lists[i][j].rank)| >= p
  {
    var kept, t := Cut(lists, p)[i], lists[i][j].rank;
    forall y | y in kept ensures y in Flatten(Cut(lists, p)) {
      FlattenHas(Cut(lists, p), i, y);
    }
    KeyCount(kept, t);
    SubsetCount(KeysAtLeast(kept, t), KeysAtLeast(Flatten(Cut(lists, p)), t));
  }

  /** A row missing from the cut lists was cut away from its list. */
  lemma CutAway<K>(lists: seq<seq<Item<K>>>, p: nat, x: Item<K>) returns (i: nat, j: nat)
    requires x in Flatten(lists) && x !in Flatten(Cut(lists, p))
    ensures i < |lists| && p <= j < |lists[i]| && lists[i][j] == x
  {
    i := FlattenFrom(lists, x);
    j :| 0 <= j < |lists[i]| && lists[i][j] == x;
    if j < p {
      TakeHas(lists[i], p, j);
      FlattenHas(Cut(lists, p), i, x);
    }
  }

  lemma {:induction false} SubsetCount<K>(a: set<K>, b: set<K>)
    requires a <= b
    ensures |a| <= |b|
  {
    if a != {} {
      var x :| x in a;
      SubsetCount(a - {x}, b - {x});
    }
  }

  /**
   * Cutting each source to p before the merge leaves the first p positions as
   * they were: the same ranks, and each key there with its true best rank.
   */
  lemma CutIsExactUpTo<K(!new)>(lists: seq<seq<Item<K>>>, p: nat, out: seq<Item<K>>, full: seq<Item<K>>, i: nat)
    requires RankedLists(lists) && i < p
    requires Ranks(out, Flatten(Cut(lists, p))) && Ranks(full, Flatten(lists))
    ensures i < |out| <==> i < |full|
    ensures i < |out| ==> out[i].rank == full[i].rank
    ensures i < |out| ==> forall x | x in Flatten(lists) && x.key == out[i].key :: x.rank <= out[i].rank
  {
    if i < |out| {
      KeepsRank(lists, p, out, full, i, out[i].rank);
      forall x | x in Flatten(lists) && x.key == out[i].key ensures x.rank <= out[i].rank {
        if x.rank > out[i].rank {
          KeepsKey(lists, p, out, i, x);
        }
      }
    }
    if i < |full| {
      KeepsRank(lists, p, out, full, i, full[i].rank);
    }
  }

  lemma KeepsRank<K(!new)>(lists: seq<seq<Item<K>>>, p: nat, out: seq<Item<K>>, full: seq<Item<K>>, i: nat, t: int)
    requires RankedLists(lists) && i < p
    requires Ranks(out, Flatten(Cut(lists, p))) && Ranks(full, Flatten(lists))
    ensures (i < |out| && out[i].rank >= t) <==> (i < |full| && full[i].rank >= t)
  {
    RankingReads(out, Flatten(Cut(lists, p)), t, i);
    RankingReads(full, Flatten(lists), t, i);
    CutCounts(lists, p, t);
    SubsetCount(KeysAtLeast(Flatten(Cut(lists, p)), t), KeysAtLeast(Flatten(lists), t));
  }

  /** However far down, a place after the cut ranks no higher than that place without it. */
  lemma CutNeverOverstates<K(!new)>(lists: seq<seq<Item<K>>>, p: nat, out: seq<Item<K>>, full: seq<Item<K>>, i: nat)
    requires Ranks(out, Flatten(Cut(lists, p))) && Ranks(full, Flatten(lists)) && i < |out|
    ensures i < |full| && out[i].rank <= full[i].rank
  {
    var t := out[i].rank;
    RankingReads(out, Flatten(Cut(lists, p)), t, i);
    RankingReads(full, Flatten(lists), t, i);
    CutIsPart(lists, p, t);
    SubsetCount(KeysAtLeast(Flatten(Cut(lists, p)), t), KeysAtLeast(Flatten(lists), t));
  }

  /** A better row of the same key cannot have been cut away from a key ranked before p. */
  lemma KeepsKey<K(!new)>(lists: seq<seq<Item<K>>>, p: nat, out: seq<Item<K>>, i: nat, x: Item<K>)
    requires RankedLists(lists) && i < p && i < |out|
    requires Ranks(out, Flatten(Cut(lists, p)))
    requires x in Flatten(lists) && x.key == out[i].key
    ensures x.rank <= out[i].rank
  {
    var t := x.rank;
    var cut := KeysAtLeast(Flatten(Cut(lists, p)), t);
    CutCounts(lists, p, t);
    RankingReads(out, Flatten(Cut(lists, p)), t, i);
    if x.key in cut {
      BestKeepsCounts(out, Flatten(Cut(lists, p)), t);
      OnlyItemOfItsKey(out, i, t);
    }
  }

  lemma OnlyItemOfItsKey<K>(out: seq<Item<K>>, i: nat, t: int)
    requires DistinctKeys(out) && i < |out| && out[i].key in KeysAtLeast(out, t)
    ensures out[i].rank >= t
  {
    var e :| e in out && e.rank >= t && e.key == out[i].key;
    var k :| 0 <= k < |out| && out[k] == e;
  }
}
