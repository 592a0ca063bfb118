/**
 * An investor's best matches: each mandate's ranked stream
 * (apps/api/src/modules/investors/mandates.service.ts) cut to five and merged
 * (apps/api/src/modules/workspace/workspace-dashboard.service.ts).
 */
module InvestorHome {
  import opened Options
  import opened Ranking
  import opened TrustModel
  import TrustEngine

  const BEST_MATCHES_LIMIT: nat := 8
  const MATCHES_PER_MANDATE: nat := 5

  type Match = Item<string>

  /** The columns `matches` selects from a trust snapshot, with the time it sorts them by. */
  datatype BandRow = BandRow(entityId: string, band: Band, computedAt: nat)

  ghost predicate NewestFirst(rows: seq<BandRow>) {
    forall i, j | 0 <= i < j < |rows| :: rows[i].computedAt >= rows[j].computedAt
  }

  /** The band on the startup's first row in the database's order. */
  function FirstBand(rows: seq<BandRow>, id: string): Option<Band> {
    if rows == [] then None
    else if FirstBand(rows[..|rows| - 1], id).Some? then FirstBand(rows[..|rows| - 1], id)
    else if rows[|rows| - 1].entityId == id then Some(rows[|rows| - 1].band)
    else None
  }

  lemma {:induction false} NoFirstBand(rows: seq<BandRow>, id: string)
    ensures FirstBand(rows, id) == None <==> forall i | 0 <= i < |rows| :: rows[i].entityId != id
  {
    if rows != [] {
      NoFirstBand(rows[..|rows| - 1], id);
    }
  }

  lemma FirstBandAt(rows: seq<BandRow>, id: string) returns (k: nat)
    requires FirstBand(rows, id).Some?
    ensures k < |rows| && rows[k].entityId == id && rows[k].band == FirstBand(rows, id).value
    ensures forall i | 0 <= i < k :: rows[i].entityId != id
  {
    var n := |rows| - 1;
    NoFirstBand(rows[..n], id);
    if FirstBand(rows[..n], id).Some? {
      k := FirstBandAt(rows[..n], id);
    } else {
      k := n;
    }
  }

  /** With the rows newest first, the first row of a startup is one that no other row of it is newer than. */
  lemma FirstBandIsLatest(rows: seq<BandRow>, id: string)
    requires NewestFirst(rows) && FirstBand(rows, id).Some?
    ensures exists r | r in rows :: r.entityId == id && r.band == FirstBand(rows, id).value && IsNewest(rows, r)
  {
    var k := FirstBandAt(rows, id);
    assert rows[k] in rows && IsNewest(rows, rows[k]);
  }

  ghost predicate IsNewest(rows: seq<BandRow>, r: BandRow) {
    forall q | q in rows && q.entityId == r.entityId :: q.computedAt <= r.computedAt
  }

  /** First row of each startup wins. */
  method LatestBands(rows: seq<BandRow>) returns (latest: map<string, Band>)
    ensures forall id :: id in latest <==> FirstBand(rows, id).Some?
    ensures forall id | id in latest :: FirstBand(rows, id) == Some(latest[id])
  {
    latest := map[];
    for n := 0 to |rows|
      invariant forall id :: id in latest <==> FirstBand(rows[..n], id).Some?
      invariant forall id | id in latest :: FirstBand(rows[..n], id) == Some(latest[id])
    {
      assert rows[..n + 1][..n] == rows[..n];
      if rows[n].entityId !in latest {
        latest := latest[rows[n].entityId := rows[n].band];
      }
    }
    assert rows[..|rows|] == rows;
  }

  predicate BandReaches(latest: map<string, Band>, minBand: Band, id: string) {
    id in latest && Ordinal(latest[id]) >= Ordinal(minBand)
  }

  function KeepReaching(ranked: seq<Match>, latest: map<string, Band>, minBand: Band): seq<Match> {
    if ranked == [] then []
    else
      var rest := KeepReaching(ranked[..|ranked| - 1], latest, minBand);
      var last := ranked[|ranked| - 1];
      if BandReaches(latest, minBand, last.key) then rest + [last] else rest
  }

  /** The filter keeps exactly the matches whose band reaches. */
  lemma {:induction false} KeptIff(ranked: seq<Match>, latest: map<string, Band>, minBand: Band, x: Match)
    ensures x in KeepReaching(ranked, latest, minBand) <==> x in ranked && BandReaches(latest, minBand, x.key)
  {
    if ranked != [] {
      KeptIff(ranked[..|ranked| - 1], latest, minBand, x);
      assert ranked == ranked[..|ranked| - 1] + [ranked[|ranked| - 1]];
    }
  }

  /** The filter keeps the order. */
  lemma {:induction false} KeptInOrder(ranked: seq<Match>, latest: map<string, Band>, minBand: Band)
    requires SortedDesc(ranked) && DistinctKeys(ranked)
    ensures SortedDesc(KeepReaching(ranked, latest, minBand)) && DistinctKeys(KeepReaching(ranked, latest, minBand))
  {
    if ranked != [] {
      var n := |ranked| - 1;
      var rest := KeepReaching(ranked[..n], latest, minBand);
      KeptInOrder(ranked[..n], latest, minBand);
      forall i | 0 <= i < |rest| ensures rest[i].rank >= ranked[n].rank && rest[i].key != ranked[n].key {
        KeptIff(ranked[..n], latest, minBand, rest[i]);
      }
    }
  }

  lemma KeepReachingKeeps(ranked: seq<Match>, latest: map<string, Band>, minBand: Band)
    requires SortedDesc(ranked) && DistinctKeys(ranked)
    ensures var kept := KeepReaching(ranked, latest, minBand);
            && SortedDesc(kept) && DistinctKeys(kept)
            && forall x :: x in kept <==> x in ranked && BandReaches(latest, minBand, x.key)
  {
    KeptInOrder(ranked, latest, minBand);
    forall x: Match | true
      ensures x in KeepReaching(ranked, latest, minBand) <==> x in ranked && BandReaches(latest, minBand, x.key)
    {
      KeptIff(ranked, latest, minBand, x);
    }
  }

  /** Whether a startup passes a mandate's trust filter, read off the snapshot rows themselves. */
  predicate Qualifies(rows: seq<BandRow>, minBand: Option<Band>, id: string) {
    minBand == None || (FirstBand(rows, id).Some? && Ordinal(FirstBand(rows, id).value) >= Ordinal(minBand.value))
  }

  /** Without a band asked for everyone passes; with one, those whose latest band is entered at as high a score. */
  lemma QualifiesByFloor(rows: seq<BandRow>, minBand: Band, id: string)
    ensures Qualifies(rows, None, id)
    ensures Qualifies(rows, Some(minBand), id)
            <==> FirstBand(rows, id).Some? && Floor(FirstBand(rows, id).value) >= Floor(minBand)
  {
  }

  datatype Mandate = Mandate(scored: seq<Match>, minTrustBand: Option<Band>)

  /** `stream` is every startup the mandate lets through, best score first. */
  ghost predicate IsStream(stream: seq<Match>, m: Mandate, rows: seq<BandRow>) {
    && SortedDesc(stream) && DistinctKeys(stream)
    && forall x :: x in stream <==> x in m.scored && Qualifies(rows, m.minTrustBand, x.key)
  }

  /** A mandate's match stream, cut to `limit`; `stream` is the uncut one. */
  method Matches(m: Mandate, rows: seq<BandRow>, limit: nat) returns (matches: seq<Match>, ghost stream: seq<Match>)
    requires DistinctKeys(m.scored)
    ensures IsStream(stream, m, rows)
    ensures matches == Take(stream, limit)
  {
    var ranked := SortByRank(m.scored);
    PermutationKeepsDistinct(ranked, m.scored);
    SameMembers(ranked, m.scored);
    if m.minTrustBand.Some? {
      var latest := LatestBands(rows);
      KeepReachingKeeps(ranked, latest, m.minTrustBand.value);
      ranked := KeepReaching(ranked, latest, m.minTrustBand.value);
    }
    stream := ranked;
    matches := Take(ranked, limit);
  }

  lemma SameMembers(a: seq<Match>, b: seq<Match>)
    requires multiset(a) == multiset(b)
    ensures forall x :: x in a <==> x in b
  {
    forall x: Match | true ensures x in a <==> x in b {
      assert x in multiset(a) <==> x in multiset(b);
    }
  }

  ghost predicate AreStreams(streams: seq<seq<Match>>, mandates: seq<Mandate>, rows: seq<BandRow>) {
    |streams| == |mandates| && forall i | 0 <= i < |streams| :: IsStream(streams[i], mandates[i], rows)
  }

  /** What the home screen shows agrees with `full` in its first n places: ranks, and each startup's true best. */
  ghost predicate ExactUpTo(shown: seq<Match>, full: seq<Match>, all: seq<Match>, n: nat) {
    forall i: nat | i < n :: ExactAt(shown, full, all, i)
  }

  ghost predicate ExactAt(shown: seq<Match>, full: seq<Match>, all: seq<Match>, i: nat) {
    && (i < |shown| <==> i < |full|)
    && (i < |shown| ==> shown[i].rank == full[i].rank)
    && (i < |shown| ==> forall x | x in all && x.key == shown[i].key :: x.rank <= shown[i].rank)
  }

  /** No place shown overstates: the full ranking has that place, with a score at least as high. */
  ghost predicate NeverOverstates(shown: seq<Match>, full: seq<Match>) {
    |shown| <= |full| && forall i | 0 <= i < |shown| :: shown[i].rank <= full[i].rank
  }

  /** The match is among the first five of some mandate's stream. */
  ghost predicate InTopFive(streams: seq<seq<Match>>, x: Match) {
    exists i, j | 0 <= i < |streams| && 0 <= j < |streams[i]| && j < 5 :: streams[i][j] == x
  }

  ghost function TopFiveStartups(streams: seq<seq<Match>>): set<string> {
    set i, j | 0 <= i < |streams| && 0 <= j < |streams[i]| && j < 5 :: streams[i][j].key
  }

  /** A startup among the first fives is shown with at least that score, or eight at least as good are shown. */
  ghost predicate ShownOrOutdone(best: seq<Match>, x: Match) {
    Covers(best, x) || (|best| == 8 && forall m | m in best :: m.rank >= x.rank)
  }

  /**
   * The best matches over all mandates, each out of some mandate's stream. However many mandates there are and
   * however long their streams, the first five shown are exact: they have the
   * scores that merging the uncut streams gives, and each startup shown there
   * carries its best score over all of them. The other three never claim more than
   * the uncut streams would give that place.
   */
  method GetBestMatches(mandates: seq<Mandate>, rows: seq<BandRow>)
    returns (best: seq<Match>, ghost streams: seq<seq<Match>>)
    requires forall m | m in mandates :: DistinctKeys(m.scored)
    ensures AreStreams(streams, mandates, rows)
    ensures SortedDesc(best) && DistinctKeys(best)
    ensures |best| == if |TopFiveStartups(streams)| < 8 then |TopFiveStartups(streams)| else 8
    ensures forall m | m in best :: m in Flatten(streams) && InTopFive(streams, m)
    ensures forall x | InTopFive(streams, x) :: ShownOrOutdone(best, x)
    ensures ExactForAny(best, Flatten(streams))
  {
    var perMandate;
    perMandate, streams := MatchesPerMandate(mandates, rows);
    var byStartup := MergeBest(perMandate);
    ghost var sorted;
    best, sorted := Top(byStartup, Flatten(perMandate));
    StreamsAreRanked(streams, mandates, rows);
    ShownIsFromStreams(streams, sorted);
    ShownIsTopOfFives(streams, sorted);
    CountShown(streams, best);
    ShownIsExact(streams, sorted);
  }

  /** Sorts the merged matches and keeps the first eight. */
  method Top(byStartup: seq<Match>, ghost all: seq<Match>) returns (best: seq<Match>, ghost sorted: seq<Match>)
    requires BestPerKey(byStartup, all)
    ensures Ranks(sorted, all) && best == Take(sorted, BEST_MATCHES_LIMIT)
    ensures SortedDesc(best) && DistinctKeys(best)
  {
    var ranked := SortByRank(byStartup);
    SortingKeepsBest(ranked, byStartup, all);
    TakeKeepsOrder(ranked, BEST_MATCHES_LIMIT);
    best := Take(ranked, BEST_MATCHES_LIMIT);
    sorted := ranked;
  }

  lemma StreamsAreRanked(streams: seq<seq<Match>>, mandates: seq<Mandate>, rows: seq<BandRow>)
    requires AreStreams(streams, mandates, rows)
    ensures RankedLists(streams)
  {
    forall i | 0 <= i < |streams| ensures SortedDesc(streams[i]) && DistinctKeys(streams[i]) {
      assert IsStream(streams[i], mandates[i], rows);
    }
  }

  lemma NoneOverstated(streams: seq<seq<Match>>, sorted: seq<Match>, full: seq<Match>)
    requires Ranks(sorted, Flatten(Cut(streams, MATCHES_PER_MANDATE))) && Ranks(full, Flatten(streams))
    ensures NeverOverstates(Take(sorted, BEST_MATCHES_LIMIT), full)
  {
    forall i: nat | i < |sorted| ensures i < |full| && sorted[i].rank <= full[i].rank {
      CutNeverOverstates(streams, MATCHES_PER_MANDATE, sorted, full, i);
    }
    if |full| < |sorted| {
      CutNeverOverstates(streams, MATCHES_PER_MANDATE, sorted, full, |full|);
    }
  }

  lemma FirstFiveExact(streams: seq<seq<Match>>, sorted: seq<Match>, full: seq<Match>)
    requires RankedLists(streams)
    requires Ranks(sorted, Flatten(Cut(streams, MATCHES_PER_MANDATE))) && Ranks(full, Flatten(streams))
    ensures ExactUpTo(Take(sorted, BEST_MATCHES_LIMIT), full, Flatten(streams), MATCHES_PER_MANDATE)
  {
    forall i: nat | i < MATCHES_PER_MANDATE
      ensures ExactAt(Take(sorted, BEST_MATCHES_LIMIT), full, Flatten(streams), i)
    {
      CutIsExactUpTo(streams, MATCHES_PER_MANDATE, sorted, full, i);
    }
  }

  lemma ShownIsExact(streams: seq<seq<Match>>, sorted: seq<Match>)
    requires RankedLists(streams) && Ranks(sorted, Flatten(Cut(streams, MATCHES_PER_MANDATE)))
    ensures ExactForAny(Take(sorted, BEST_MATCHES_LIMIT), Flatten(streams))
  {
    forall full: seq<Match> | Ranks(full, Flatten(streams))
      ensures ExactUpTo(Take(sorted, BEST_MATCHES_LIMIT), full, Flatten(streams), MATCHES_PER_MANDATE)
              && NeverOverstates(Take(sorted, BEST_MATCHES_LIMIT), full)
    {
      FirstFiveExact(streams, sorted, full);
      NoneOverstated(streams, sorted, full);
    }
  }

  /** The cut rows are the first fives. */
  lemma CutIsTopFive(streams: seq<seq<Match>>, x: Match)
    ensures x in Flatten(Cut(streams, MATCHES_PER_MANDATE)) <==> InTopFive(streams, x)
  {
    var cut := Cut(streams, MATCHES_PER_MANDATE);
    if x in Flatten(cut) {
      var i := FlattenFrom(cut, x);
      var j :| 0 <= j < |cut[i]| && cut[i][j] == x;
      assert streams[i][j] == x;
    }
    if InTopFive(streams, x) {
      var i, j :| 0 <= i < |streams| && 0 <= j < |streams[i]| && j < 5 && streams[i][j] == x;
      assert cut[i][j] == x;
      FlattenHas(cut, i, x);
    }
  }

  lemma CoveredIsShown(sorted: seq<Match>, x: Match)
    requires SortedDesc(sorted) && Covers(sorted, x)
    ensures ShownOrOutdone(Take(sorted, BEST_MATCHES_LIMIT), x)
  {
    var m :| m in sorted && m.key == x.key && m.rank >= x.rank;
    var k :| 0 <= k < |sorted| && sorted[k] == m;
    if k < |Take(sorted, BEST_MATCHES_LIMIT)| {
      assert Take(sorted, BEST_MATCHES_LIMIT)[k] == m;
    }
  }

  lemma ShownIsTopOfFives(streams: seq<seq<Match>>, sorted: seq<Match>)
    requires Ranks(sorted, Flatten(Cut(streams, MATCHES_PER_MANDATE)))
    ensures var best := Take(sorted, BEST_MATCHES_LIMIT);
            && |best| <= 8
            && (forall m | m in best :: InTopFive(streams, m))
            && forall x | InTopFive(streams, x) :: ShownOrOutdone(best, x)
  {
    var best := Take(sorted, BEST_MATCHES_LIMIT);
    forall m | m in best ensures InTopFive(streams, m) {
      assert m in sorted;
      CutIsTopFive(streams, m);
    }
    forall x | InTopFive(streams, x) ensures ShownOrOutdone(best, x) {
      CutIsTopFive(streams, x);
      CoveredIsShown(sorted, x);
    }
  }

  lemma {:induction false} DistinctKeyCount(xs: seq<Match>)
    requires DistinctKeys(xs)
    ensures |set m | m in xs :: m.key| == |xs|
  {
    if xs == [] {
      assert (set m | m in xs :: m.key) == {};
    } else {
      var n := |xs| - 1;
      DistinctKeyCount(xs[..n]);
      assert xs == xs[..n] + [xs[n]];
      assert (set m | m in xs :: m.key) == (set m | m in xs[..n] :: m.key) + {xs[n].key};
    }
  }

  lemma CountShown(streams: seq<seq<Match>>, best: seq<Match>)
    requires DistinctKeys(best) && |best| <= 8
    requires forall m | m in best :: InTopFive(streams, m)
    requires forall x | InTopFive(streams, x) :: ShownOrOutdone(best, x)
    ensures |best| == if |TopFiveStartups(streams)| < 8 then |TopFiveStartups(streams)| else 8
  {
    var keys, all := set m | m in best :: m.key, TopFiveStartups(streams);
    DistinctKeyCount(best);
    assert keys <= all by {
      forall m | m in best ensures m.key in all {
        var i, j :| 0 <= i < |streams| && 0 <= j < |streams[i]| && j < 5 && streams[i][j] == m;
      }
    }
    SubsetCount(keys, all);
    if |best| < 8 {
      forall k | k in all ensures k in keys {
        var i, j :| 0 <= i < |streams| && 0 <= j < |streams[i]| && j < 5 && streams[i][j].key == k;
        assert InTopFive(streams, streams[i][j]);
        assert Covers(best, streams[i][j]);
      }
      assert keys == all;
    }
  }

  /** Every match shown is one of the streams'. */
  lemma ShownIsFromStreams(streams: seq<seq<Match>>, sorted: seq<Match>)
    requires Ranks(sorted, Flatten(Cut(streams, MATCHES_PER_MANDATE)))
    ensures forall m | m in Take(sorted, BEST_MATCHES_LIMIT) :: m in Flatten(streams)
  {
    forall m | m in Take(sorted, BEST_MATCHES_LIMIT) ensures m in Flatten(streams) {
      assert m in sorted;
      var i := FlattenFrom(Cut(streams, MATCHES_PER_MANDATE), m);
      FlattenHas(streams, i, m);
    }
  }

  /** Whichever way the uncut rows are ranked, the first five places agree and none overstates. */
  ghost predicate ExactForAny(shown: seq<Match>, all: seq<Match>) {
    forall full | Ranks(full, all) ::
      ExactUpTo(shown, full, all, MATCHES_PER_MANDATE) && NeverOverstates(shown, full)
  }

  /** `matches` for every mandate, five each. */
  method MatchesPerMandate(mandates: seq<Mandate>, rows: seq<BandRow>)
    returns (perMandate: seq<seq<Match>>, ghost streams: seq<seq<Match>>)
    requires forall m | m in mandates :: DistinctKeys(m.scored)
    ensures AreStreams(streams, mandates, rows)
    ensures perMandate == Cut(streams, MATCHES_PER_MANDATE)
  {
    perMandate := [];
    streams := [];
    for n := 0 to |mandates|
      invariant AreStreams(streams, mandates[..n], rows)
      invariant perMandate == Cut(streams, MATCHES_PER_MANDATE)
    {
      assert mandates[n] in mandates;
      ghost var stream;
      var matches;
      matches, stream := Matches(mandates[n], rows, MATCHES_PER_MANDATE);
      perMandate := perMandate + [matches];
      streams := streams + [stream];
    }
    assert mandates[..|mandates|] == mandates;
  }

  /** The nested loop over the mandates' matches. */
  method MergeBest(perMandate: seq<seq<Match>>) returns (byStartup: seq<Match>)
    ensures BestPerKey(byStartup, Flatten(perMandate))
  {
    byStartup := [];
    for n := 0 to |perMandate|
      invariant BestPerKey(byStartup, Flatten(perMandate[..n]))
    {
      var matches := perMandate[n];
      ghost var before := Flatten(perMandate[..n]);
      assert before + matches[..0] == before;
      for k := 0 to |matches|
        invariant BestPerKey(byStartup, before + matches[..k])
      {
        PutKeepsBest(byStartup, before + matches[..k], matches[k]);
        assert before + matches[..k + 1] == before + matches[..k] + [matches[k]];
        byStartup := Put(byStartup, matches[k]);
      }
      assert matches[..|matches|] == matches;
      assert perMandate[..n + 1][..n] == perMandate[..n];
    }
    assert perMandate[..|perMandate|] == perMandate;
  }

  /** The sixth place need not be exact: the sixth best startup of a mandate is cut, and a worse one is shown. */
  lemma SixthPlaceMayBeWrong() returns (streams: seq<seq<Match>>, shown: seq<Match>, full: seq<Match>)
    ensures RankedLists(streams)
    ensures Ranks(shown, Flatten(Cut(streams, MATCHES_PER_MANDATE))) && Ranks(full, Flatten(streams))
    ensures |shown| > 5 && |full| > 5 && shown[5].rank != full[5].rank
  {
    var a, b, c, d := Item("a", 90), Item("b", 80), Item("c", 70), Item("d", 60);
    var e, f, g := Item("e", 50), Item("f", 40), Item("g", 10);
    streams := [[a, b, c, d, e, f], [g]];
    shown := [a, b, c, d, e, g];
    full := [a, b, c, d, e, f, g];
    FlattenTwo(streams);
    assert Take(streams[0], MATCHES_PER_MANDATE) == [a, b, c, d, e];
    assert Cut(streams, MATCHES_PER_MANDATE) == [[a, b, c, d, e], [g]];
    FlattenTwo([[a, b, c, d, e], [g]]);
    assert Flatten(streams) == full;
    assert Flatten(Cut(streams, MATCHES_PER_MANDATE)) == shown;
    DistinctIsBest(shown);
    DistinctIsBest(full);
  }

  lemma FlattenTwo(lists: seq<seq<Match>>)
    requires |lists| == 2
    ensures Flatten(lists) == lists[0] + lists[1]
  {
    assert Flatten(lists[..1]) == Flatten(lists[..1][..0]) + lists[0];
  }

  // ---- the trust filter over the engine's own history ----

  /** The rows `matches` reads are the engine's, in whatever order. */
  ghost predicate FromEngine(rows: seq<BandRow>, table: seq<TrustEngine.Snapshot>) {
    forall r | r in rows :: exists s | s in table :: s.entityId == r.entityId && s.band == r.band
  }

  /**
   * While only the engine writes snapshots, a mandate that asks for Gold or
   * Platinum matches nobody: its stream is empty whatever the candidates are.
   */
  lemma GoldMandatesMatchNobody(m: Mandate, rows: seq<BandRow>, table: seq<TrustEngine.Snapshot>, stream: seq<Match>)
    requires TrustEngine.WrittenByEngine(table) && FromEngine(rows, table)
    requires m.minTrustBand == Some(Gold) || m.minTrustBand == Some(Platinum)
    requires IsStream(stream, m, rows)
    ensures stream == []
  {
    if stream != [] {
      var x := stream[0];
      assert x in stream;
      var k := FirstBandAt(rows, x.key);
      assert rows[k] in rows;
      var s :| s in table && s.entityId == rows[k].entityId && s.band == rows[k].band;
      TrustEngine.NobodyAboveSilver(table, s);
      assert false;
    }
  }
}
