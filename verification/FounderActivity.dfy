/**
 * The founder activity feed and the "recently active" list
 * (apps/api/src/modules/startups/founder-activity.service.ts). A sort is any
 * arrangement by time: the feed's comparator does not order equal times.
 */
module FounderActivity {
  import opened Options
  import opened Ranking

  datatype Source =
    | Milestone | StartupUpdate | JobPosted | ConnectionReceived
    | DocumentUploaded | TractionUpdated | VerificationCompleted

  /** An entry's id is its source's prefix and the row's own id. */
  datatype EntryId = EntryId(source: Source, row: nat)

  type Entry = Item<EntryId>
  type Row = Item<nat>

  /** Every row of each table in the order its query asks for, and the startup's own dates. */
  datatype Tables = Tables(
    milestones: seq<Row>, updates: seq<Row>, jobs: seq<Row>, connections: seq<Row>, documents: seq<Row>,
    tractionUpdatedAt: Option<int>, publishedAt: Option<int>, verifiedAt: Option<int>)

  ghost predicate Queried(rows: seq<Row>) {
    SortedDesc(rows) && DistinctKeys(rows)
  }

  ghost predicate AllQueried(t: Tables) {
    Queried(t.milestones) && Queried(t.updates) && Queried(t.jobs) && Queried(t.connections) && Queried(t.documents)
  }

  function Entries(source: Source, rows: seq<Row>): seq<Entry> {
    seq(|rows|, i requires 0 <= i < |rows| => Item(EntryId(source, rows[i].key), rows[i].rank))
  }

  function TractionEntry(t: Tables): seq<Entry> {
    if t.tractionUpdatedAt.Some? && t.publishedAt.Some? && t.tractionUpdatedAt.value > t.publishedAt.value
    then [Item(EntryId(TractionUpdated, 0), t.tractionUpdatedAt.value)] else []
  }

  function VerificationEntry(t: Tables): seq<Entry> {
    if t.verifiedAt.Some? then [Item(EntryId(VerificationCompleted, 0), t.verifiedAt.value)] else []
  }

  /** All rows of all sources, uncut; the last two are made by the code itself. */
  function Sources(t: Tables, ownerTier: bool): seq<seq<Entry>> {
    [
      Entries(Milestone, t.milestones), Entries(StartupUpdate, t.updates), Entries(JobPosted, t.jobs),
      if ownerTier then Entries(ConnectionReceived, t.connections) else [],
      if ownerTier then Entries(DocumentUploaded, t.documents) else [],
      TractionEntry(t), VerificationEntry(t)
    ]
  }

  const SOURCE_ORDER: seq<Source> :=
    [Milestone, StartupUpdate, JobPosted, ConnectionReceived, DocumentUploaded, TractionUpdated, VerificationCompleted]

  /** The entry stands for a row of its own table at that row's time, or for a date of the startup itself. */
  predicate Eligible(t: Tables, ownerTier: bool, x: Entry) {
    match x.key.source
    case Milestone => Item(x.key.row, x.rank) in t.milestones
    case StartupUpdate => Item(x.key.row, x.rank) in t.updates
    case JobPosted => Item(x.key.row, x.rank) in t.jobs
    case ConnectionReceived => ownerTier && Item(x.key.row, x.rank) in t.connections
    case DocumentUploaded => ownerTier && Item(x.key.row, x.rank) in t.documents
    case TractionUpdated =>
      x.key.row == 0 && t.tractionUpdatedAt == Some(x.rank) && t.publishedAt.Some? && x.rank > t.publishedAt.value
    case VerificationCompleted => x.key.row == 0 && t.verifiedAt == Some(x.rank)
  }

  lemma EntriesHave(source: Source, rows: seq<Row>, x: Entry)
    ensures x in Entries(source, rows) <==> x.key.source == source && Item(x.key.row, x.rank) in rows
  {
    if x.key.source == source && Item(x.key.row, x.rank) in rows {
      var i :| 0 <= i < |rows| && rows[i] == Item(x.key.row, x.rank);
      assert Entries(source, rows)[i] == x;
    }
  }

  /** All rows of all sources are the eligible entries. */
  lemma SourcesAreEligible(t: Tables, ownerTier: bool, x: Entry)
    ensures x in Flatten(Sources(t, ownerTier)) <==> Eligible(t, ownerTier, x)
  {
    var s := Sources(t, ownerTier);
    FlattenSeven(s[0], s[1], s[2], s[3], s[4], s[5], s[6]);
    assert s == [s[0], s[1], s[2], s[3], s[4], s[5], s[6]];
    EntriesHave(Milestone, t.milestones, x);
    EntriesHave(StartupUpdate, t.updates, x);
    EntriesHave(JobPosted, t.jobs, x);
    EntriesHave(ConnectionReceived, t.connections, x);
    EntriesHave(DocumentUploaded, t.documents, x);
  }

  lemma EntriesAreRanked(source: Source, rows: seq<Row>)
    requires Queried(rows)
    ensures SortedDesc(Entries(source, rows)) && DistinctKeys(Entries(source, rows))
  {
  }

  lemma SourcesAreRanked(t: Tables, ownerTier: bool)
    requires AllQueried(t)
    ensures RankedLists(Sources(t, ownerTier))
    ensures Labelled(Sources(t, ownerTier), SOURCE_ORDER)
  {
    EntriesAreRanked(Milestone, t.milestones);
    EntriesAreRanked(StartupUpdate, t.updates);
    EntriesAreRanked(JobPosted, t.jobs);
    EntriesAreRanked(ConnectionReceived, t.connections);
    EntriesAreRanked(DocumentUploaded, t.documents);
  }

  /** Each list carries its own source's prefix. */
  ghost predicate Labelled(lists: seq<seq<Entry>>, labels: seq<Source>) {
    && |lists| == |labels|
    && (forall i, j | 0 <= i < j < |labels| :: labels[i] != labels[j])
    && (forall i, k | 0 <= i < |lists| && 0 <= k < |lists[i]| :: lists[i][k].key.source == labels[i])
  }

  lemma LabelledFlattenDistinct(lists: seq<seq<Entry>>, labels: seq<Source>)
    requires RankedLists(lists) && Labelled(lists, labels)
    ensures DistinctKeys(Flatten(lists))
  {
    if lists != [] {
      var n := |lists| - 1;
      LabelledFlattenDistinct(lists[..n], labels[..n]);
      var rest := Flatten(lists[..n]);
      forall i, k | 0 <= i < |rest| && 0 <= k < |lists[n]| ensures rest[i].key != lists[n][k].key {
        var l := FlattenFrom(lists[..n], rest[i]);
        var m :| 0 <= m < |lists[l]| && lists[l][m] == rest[i];
      }
    }
  }

  lemma CutKeepsShape(lists: seq<seq<Entry>>, labels: seq<Source>, p: nat)
    requires RankedLists(lists) && Labelled(lists, labels)
    ensures RankedLists(Cut(lists, p)) && Labelled(Cut(lists, p), labels)
  {
  }

  /** Any arrangement of xs by time. */
  ghost predicate Arranges(out: seq<Entry>, xs: seq<Entry>) {
    SortedDesc(out) && multiset(out) == multiset(xs)
  }

  /** The entry is in the feed, or the feed is full of entries at least as new. */
  ghost predicate ShownOrOlder(feed: seq<Entry>, limit: nat, x: Entry) {
    x in feed || (|feed| == limit && forall y | y in feed :: y.rank >= x.rank)
  }

  lemma SortedShows(sorted: seq<Entry>, limit: nat, x: Entry)
    requires SortedDesc(sorted) && x in sorted
    ensures ShownOrOlder(Take(sorted, limit), limit, x)
  {
    var k :| 0 <= k < |sorted| && sorted[k] == x;
    if k < |Take(sorted, limit)| {
      assert Take(sorted, limit)[k] == x;
    }
  }

  /** `limit` kept rows of x's own table are at least as new. */
  lemma EnoughAreKept(lists: seq<seq<Entry>>, limit: nat, x: Entry)
    requires RankedLists(lists) && x in Flatten(lists) && x !in Flatten(Cut(lists, limit))
    ensures |KeysAtLeast(Flatten(Cut(lists, limit)), x.rank)| >= limit
  {
    var i, j := CutAway(lists, limit, x);
    CutOffBehind(lists, limit, i, j);
  }

  lemma FirstAreAsNew(sorted: seq<Entry>, rows: seq<Entry>, limit: nat, t: int)
    requires limit > 0 && Ranks(sorted, rows) && |KeysAtLeast(rows, t)| >= limit
    ensures |sorted| >= limit && forall y | y in Take(sorted, limit) :: y.rank >= t
  {
    RankingReads(sorted, rows, t, limit - 1);
    TopAtLeast(sorted, limit, t);
  }

  /** An entry left out of the cut and sorted list, or past its first `limit`, is no newer than those shown. */
  lemma NoneNewerLeftOut(lists: seq<seq<Entry>>, limit: nat, sorted: seq<Entry>, x: Entry)
    requires limit > 0 && RankedLists(lists) && Ranks(sorted, Flatten(Cut(lists, limit)))
    requires x in Flatten(lists) && (x in sorted <==> x in Flatten(Cut(lists, limit)))
    ensures ShownOrOlder(Take(sorted, limit), limit, x)
  {
    if x in sorted {
      SortedShows(sorted, limit, x);
    } else {
      EnoughAreKept(lists, limit, x);
      FirstAreAsNew(sorted, Flatten(Cut(lists, limit)), limit, x.rank);
    }
  }

  lemma TopAtLeast(sorted: seq<Entry>, limit: nat, t: int)
    requires SortedDesc(sorted) && 0 < limit <= |sorted| && sorted[limit - 1].rank >= t
    ensures forall y | y in Take(sorted, limit) :: y.rank >= t
  {
  }

  /**
   * The feed of a startup that exists. It shows eligible entries only, newest first
   * and each once, and leaves one out only for `limit` that are as new. Reading `limit` rows a source and
   * slicing the merged list to `limit` shows the times that sorting every row of
   * every source and slicing once would show.
   */
  method Aggregate(t: Tables, ownerTier: bool, limit: nat) returns (feed: seq<Entry>)
    requires AllQueried(t)
    ensures |feed| <= limit && SortedDesc(feed) && DistinctKeys(feed)
    ensures forall x | x in feed :: Eligible(t, ownerTier, x)
    ensures forall x | Eligible(t, ownerTier, x) :: ShownOrOlder(feed, limit, x)
    ensures forall full | Arranges(full, Flatten(Sources(t, ownerTier))) ::
              ShowsTimesOf(feed, full, limit)
  {
    var entries := Gather(t, ownerTier, limit);
    var sorted := SortByRank(entries);
    feed := Take(sorted, limit);
    if limit > 0 {
      SourcesAreRanked(t, ownerTier);
      FeedIsExact(Sources(t, ownerTier), SOURCE_ORDER, limit, sorted);
      FeedIsEligible(t, ownerTier, limit, sorted);
    }
  }

  /** `entries` before the sort: at most `limit` rows of each table, then the two synthetic entries. */
  method Gather(t: Tables, ownerTier: bool, limit: nat) returns (entries: seq<Entry>)
    ensures limit > 0 ==> entries == Flatten(Cut(Sources(t, ownerTier), limit))
    ensures limit > 0 ==> forall x | x in entries :: Eligible(t, ownerTier, x)
  {
    entries := Entries(Milestone, Take(t.milestones, limit))
               + Entries(StartupUpdate, Take(t.updates, limit))
               + Entries(JobPosted, Take(t.jobs, limit))
               + (if ownerTier then Entries(ConnectionReceived, Take(t.connections, limit)) else [])
               + (if ownerTier then Entries(DocumentUploaded, Take(t.documents, limit)) else []);
    if t.tractionUpdatedAt.Some? && t.publishedAt.Some? && t.tractionUpdatedAt.value > t.publishedAt.value {
      entries := entries + [Item(EntryId(TractionUpdated, 0), t.tractionUpdatedAt.value)];
    }
    if t.verifiedAt.Some? {
      entries := entries + [Item(EntryId(VerificationCompleted, 0), t.verifiedAt.value)];
    }
    if limit > 0 {
      EntriesAreTheCut(t, ownerTier, limit, entries);
      CutEntriesAreEntries(Sources(t, ownerTier), limit, entries);
      forall x | x in entries ensures Eligible(t, ownerTier, x) {
        SourcesAreEligible(t, ownerTier, x);
      }
    }
  }

  /** feed has the times of the first `limit` entries of full. */
  ghost predicate ShowsTimesOf(feed: seq<Entry>, full: seq<Entry>, limit: nat) {
    |feed| == |Take(full, limit)| && forall i: nat | i < |feed| :: feed[i].rank == full[i].rank
  }

  lemma FlattenSnoc(lists: seq<seq<Entry>>, last: seq<Entry>)
    ensures Flatten(lists + [last]) == Flatten(lists) + last
  {
    assert (lists + [last])[..|lists|] == lists;
  }

  lemma FlattenSeven(a: seq<Entry>, b: seq<Entry>, c: seq<Entry>, d: seq<Entry>, e: seq<Entry>,
                     f: seq<Entry>, g: seq<Entry>)
    ensures Flatten([a, b, c, d, e, f, g]) == a + b + c + d + e + f + g
  {
    FlattenSnoc([], a);
    FlattenSnoc([a], b);
    FlattenSnoc([a, b], c);
    FlattenSnoc([a, b, c], d);
    FlattenSnoc([a, b, c, d], e);
    FlattenSnoc([a, b, c, d, e], f);
    FlattenSnoc([a, b, c, d, e, f], g);
    assert [] + [a] == [a] && [a] + [b] == [a, b] && [a, b] + [c] == [a, b, c] && [a, b, c] + [d] == [a, b, c, d];
    assert [a, b, c, d] + [e] == [a, b, c, d, e] && [a, b, c, d, e] + [f] == [a, b, c, d, e, f];
    assert [a, b, c, d, e, f] + [g] == [a, b, c, d, e, f, g];
  }

  lemma EntriesOfTake(source: Source, rows: seq<Row>, n: nat)
    ensures Entries(source, Take(rows, n)) == Take(Entries(source, rows), n)
  {
  }

  lemma CutOfSources(t: Tables, ownerTier: bool, limit: nat)
    requires limit > 0
    ensures Cut(Sources(t, ownerTier), limit)
            == [Entries(Milestone, Take(t.milestones, limit)), Entries(StartupUpdate, Take(t.updates, limit)),
                Entries(JobPosted, Take(t.jobs, limit)),
                if ownerTier then Entries(ConnectionReceived, Take(t.connections, limit)) else [],
                if ownerTier then Entries(DocumentUploaded, Take(t.documents, limit)) else [],
                TractionEntry(t), VerificationEntry(t)]
  {
    EntriesOfTake(Milestone, t.milestones, limit);
    EntriesOfTake(StartupUpdate, t.updates, limit);
    EntriesOfTake(JobPosted, t.jobs, limit);
    EntriesOfTake(ConnectionReceived, t.connections, limit);
    EntriesOfTake(DocumentUploaded, t.documents, limit);
  }

  /** What `entries` holds before the sort is the cut of every source. */
  lemma EntriesAreTheCut(t: Tables, ownerTier: bool, limit: nat, entries: seq<Entry>)
    requires limit > 0
    requires entries == Entries(Milestone, Take(t.milestones, limit)) + Entries(StartupUpdate, Take(t.updates, limit))
                        + Entries(JobPosted, Take(t.jobs, limit))
                        + (if ownerTier then Entries(ConnectionReceived, Take(t.connections, limit)) else [])
                        + (if ownerTier then Entries(DocumentUploaded, Take(t.documents, limit)) else [])
                        + TractionEntry(t) + VerificationEntry(t)
    ensures entries == Flatten(Cut(Sources(t, ownerTier), limit))
  {
    CutOfSources(t, ownerTier, limit);
    FlattenSeven(Entries(Milestone, Take(t.milestones, limit)), Entries(StartupUpdate, Take(t.updates, limit)),
                 Entries(JobPosted, Take(t.jobs, limit)),
                 if ownerTier then Entries(ConnectionReceived, Take(t.connections, limit)) else [],
                 if ownerTier then Entries(DocumentUploaded, Take(t.documents, limit)) else [],
                 TractionEntry(t), VerificationEntry(t));
  }

  lemma ArrangedIsRanked(out: seq<Entry>, xs: seq<Entry>)
    requires DistinctKeys(xs) && Arranges(out, xs)
    ensures Ranks(out, xs)
  {
    DistinctIsBest(xs);
    SortingKeepsBest(out, xs, xs);
  }

  lemma FeedIsExact(lists: seq<seq<Entry>>, labels: seq<Source>, limit: nat, sorted: seq<Entry>)
    requires RankedLists(lists) && Labelled(lists, labels)
    requires Arranges(sorted, Flatten(Cut(lists, limit)))
    ensures DistinctKeys(sorted)
    ensures forall x | x in sorted :: x in Flatten(lists)
    ensures forall full | Arranges(full, Flatten(lists)) :: ShowsTimesOf(Take(sorted, limit), full, limit)
  {
    var cut := Cut(lists, limit);
    CutKeepsShape(lists, labels, limit);
    LabelledFlattenDistinct(cut, labels);
    ArrangedIsRanked(sorted, Flatten(cut));
    CutEntriesAreEntries(lists, limit, sorted);
    forall full | Arranges(full, Flatten(lists)) ensures ShowsTimesOf(Take(sorted, limit), full, limit) {
      LabelledFlattenDistinct(lists, labels);
      ArrangedIsRanked(full, Flatten(lists));
      SameTimes(lists, limit, sorted, full);
    }
  }

  lemma FeedIsEligible(t: Tables, ownerTier: bool, limit: nat, sorted: seq<Entry>)
    requires limit > 0 && AllQueried(t)
    requires Arranges(sorted, Flatten(Cut(Sources(t, ownerTier), limit)))
    ensures SortedDesc(Take(sorted, limit))
    ensures forall x | x in Take(sorted, limit) :: Eligible(t, ownerTier, x)
    ensures forall x | Eligible(t, ownerTier, x) :: ShownOrOlder(Take(sorted, limit), limit, x)
  {
    var lists := Sources(t, ownerTier);
    SourcesAreRanked(t, ownerTier);
    FeedIsExact(lists, SOURCE_ORDER, limit, sorted);
    CutKeepsShape(lists, SOURCE_ORDER, limit);
    LabelledFlattenDistinct(Cut(lists, limit), SOURCE_ORDER);
    ArrangedIsRanked(sorted, Flatten(Cut(lists, limit)));
    TakeKeepsOrder(sorted, limit);
    forall x | x in Take(sorted, limit) ensures Eligible(t, ownerTier, x) {
      assert x in sorted;
      SourcesAreEligible(t, ownerTier, x);
    }
    forall x | Eligible(t, ownerTier, x) ensures ShownOrOlder(Take(sorted, limit), limit, x) {
      SourcesAreEligible(t, ownerTier, x);
      assert x in multiset(sorted) <==> x in multiset(Flatten(Cut(lists, limit)));
      NoneNewerLeftOut(lists, limit, sorted, x);
    }
  }

  lemma CutEntriesAreEntries(lists: seq<seq<Entry>>, limit: nat, sorted: seq<Entry>)
    requires forall x | x in sorted :: x in Flatten(Cut(lists, limit))
    ensures forall x | x in sorted :: x in Flatten(lists)
  {
    forall x | x in sorted ensures x in Flatten(lists) {
      var i := FlattenFrom(Cut(lists, limit), x);
      FlattenHas(lists, i, x);
    }
  }

  lemma SameTimes(lists: seq<seq<Entry>>, limit: nat, sorted: seq<Entry>, full: seq<Entry>)
    requires RankedLists(lists)
    requires Ranks(sorted, Flatten(Cut(lists, limit))) && Ranks(full, Flatten(lists))
    ensures ShowsTimesOf(Take(sorted, limit), full, limit)
  {
    var feed := Take(sorted, limit);
    forall i: nat | i < |feed| ensures i < |full| && feed[i].rank == full[i].rank {
      CutIsExactUpTo(lists, limit, sorted, full, i);
    }
    if |sorted| < limit {
      CutIsExactUpTo(lists, limit, sorted, full, |sorted|);
    }
    if |full| < limit {
      CutIsExactUpTo(lists, limit, sorted, full, |full|);
    }
  }

  // ---- recently active startups ----

  type Activity = Item<Option<string>>

  /** `distinct: ["startupId"]`: the first row of each startup in the query's order. */
  function DistinctOn(rows: seq<Activity>): seq<Activity> {
    if rows == [] then []
    else Keep(DistinctOn(rows[..|rows| - 1]), rows[|rows| - 1])
  }

  function Keep(kept: seq<Activity>, row: Activity): seq<Activity> {
    if IndexOf(kept, row.key).Some? then kept else kept + [row]
  }

  /** The rows whose startup is known. */
  function Known(rows: seq<Activity>): seq<Item<string>> {
    if rows == [] then []
    else
      var row := rows[|rows| - 1];
      Known(rows[..|rows| - 1]) + if row.key.Some? then [Item(row.key.value, row.rank)] else []
  }

  lemma {:induction false} KnownHas(rows: seq<Activity>, x: Item<string>)
    ensures x in Known(rows) <==> Item(Some(x.key), x.rank) in rows
  {
    if rows != [] {
      KnownHas(rows[..|rows| - 1], x);
      assert rows == rows[..|rows| - 1] + [rows[|rows| - 1]];
    }
  }

  /** Keeping the first row of each startup keeps its newest one. */
  lemma DistinctOnCovers(rows: seq<Activity>, x: Activity)
    requires SortedDesc(rows) && x in rows
    ensures Covers(DistinctOn(rows), x)
    ensures forall y | y in DistinctOn(rows) :: y in rows
  {
    var n := |rows| - 1;
    var kept := DistinctOn(rows[..n]);
    forall y | y in DistinctOn(rows) ensures y in rows {
      DistinctOnIsPart(rows, y);
    }
    if x in rows[..n] {
      DistinctOnCovers(rows[..n], x);
      var e :| e in kept && e.key == x.key && e.rank >= x.rank;
      assert e in DistinctOn(rows);
    } else {
      var i := IndexOf(kept, x.key);
      if i.Some? {
        DistinctOnIsPart(rows[..n], kept[i.value]);
        assert kept[i.value] in DistinctOn(rows);
      } else {
        assert DistinctOn(rows)[|kept|] == x;
      }
    }
  }

  /** One row a startup. */
  lemma {:induction false} DistinctOnIsDistinct(rows: seq<Activity>)
    ensures DistinctKeys(DistinctOn(rows))
  {
    if rows != [] {
      var kept := DistinctOn(rows[..|rows| - 1]);
      DistinctOnIsDistinct(rows[..|rows| - 1]);
      forall i | 0 <= i < |kept| && IndexOf(kept, rows[|rows| - 1].key) == None
        ensures kept[i].key != rows[|rows| - 1].key
      {
        assert kept[i] in kept;
      }
    }
  }

  lemma {:induction false} DistinctOnIsPart(rows: seq<Activity>, y: Activity)
    requires y in DistinctOn(rows)
    ensures y in rows
  {
    var n := |rows| - 1;
    if y in DistinctOn(rows[..n]) {
      DistinctOnIsPart(rows[..n], y);
    }
  }

  /** Rows of the three tables in the window, each in its query's order. */
  method RecentlyActiveStartupIds(milestones: seq<Activity>, posts: seq<Activity>, jobs: seq<Activity>, limit: nat)
    returns (ids: seq<string>, ghost ranking: seq<Item<string>>)
    requires SortedDesc(milestones) && SortedDesc(posts) && SortedDesc(jobs)
    ensures Ranks(ranking, Known(milestones + posts + jobs))
    ensures ids == KeysOf(Take(ranking, limit))
  {
    var rows := DistinctOn(milestones) + DistinctOn(posts) + DistinctOn(jobs);
    var mostRecent := MostRecentByStartup(rows);
    var sorted := SortByRank(mostRecent);
    SortingKeepsBest(sorted, mostRecent, Known(rows));
    BestOfDistinctIsBest(sorted, milestones, posts, jobs);
    ranking := sorted;
    ids := KeysOf(Take(sorted, limit));
  }

  function KeysOf(xs: seq<Item<string>>): (keys: seq<string>)
    ensures |keys| == |xs| && forall i | 0 <= i < |keys| :: keys[i] == xs[i].key
  {
    seq(|xs|, i requires 0 <= i < |xs| => xs[i].key)
  }

  /** The loop that keeps each startup's newest row. */
  method MostRecentByStartup(rows: seq<Activity>) returns (mostRecent: seq<Item<string>>)
    ensures BestPerKey(mostRecent, Known(rows))
  {
    mostRecent := [];
    for n := 0 to |rows|
      invariant BestPerKey(mostRecent, Known(rows[..n]))
    {
      assert rows[..n + 1][..n] == rows[..n];
      if rows[n].key.Some? {
        var x := Item(rows[n].key.value, rows[n].rank);
        PutKeepsBest(mostRecent, Known(rows[..n]), x);
        mostRecent := Put(mostRecent, x);
      }
    }
    assert rows[..|rows|] == rows;
  }

  lemma DistinctOnAllCover(milestones: seq<Activity>, posts: seq<Activity>, jobs: seq<Activity>, x: Activity)
    requires SortedDesc(milestones) && SortedDesc(posts) && SortedDesc(jobs)
    requires x in milestones + posts + jobs
    ensures Covers(DistinctOn(milestones) + DistinctOn(posts) + DistinctOn(jobs), x)
  {
    var all := DistinctOn(milestones) + DistinctOn(posts) + DistinctOn(jobs);
    var part := if x in milestones then milestones else if x in posts then posts else jobs;
    DistinctOnCovers(part, x);
    var e :| e in DistinctOn(part) && e.key == x.key && e.rank >= x.rank;
    assert e in all;
  }

  /** Reading one row a startup from each table loses nothing the ranking depends on. */
  lemma BestOfDistinctIsBest(out: seq<Item<string>>, milestones: seq<Activity>, posts: seq<Activity>,
                             jobs: seq<Activity>)
    requires SortedDesc(milestones) && SortedDesc(posts) && SortedDesc(jobs)
    requires BestPerKey(out, Known(DistinctOn(milestones) + DistinctOn(posts) + DistinctOn(jobs)))
    ensures BestPerKey(out, Known(milestones + posts + jobs))
  {
    var all, one := milestones + posts + jobs, DistinctOn(milestones) + DistinctOn(posts) + DistinctOn(jobs);
    forall e | e in out ensures e in Known(all) {
      KnownHas(one, e);
      KnownHas(all, e);
      var y: Activity := Item(Some(e.key), e.rank);
      if y in DistinctOn(milestones) {
        DistinctOnIsPart(milestones, y);
      } else if y in DistinctOn(posts) {
        DistinctOnIsPart(posts, y);
      } else {
        DistinctOnIsPart(jobs, y);
      }
    }
    forall x | x in Known(all) ensures Covers(out, x) {
      KnownHas(all, x);
      DistinctOnAllCover(milestones, posts, jobs, Item(Some(x.key), x.rank));
      var e :| e in one && e.key == Some(x.key) && e.rank >= x.rank;
      KnownHas(one, Item(x.key, e.rank));
      assert Covers(out, Item(x.key, e.rank));
    }
  }
}
