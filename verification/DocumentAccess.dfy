/**
 * The permissioned data room
 * (apps/api/src/modules/documents/document-access.service.ts), as a sequence of
 * calls with a clock. What the tables say is checked against the history of calls.
 */
module DocumentAccess {
  import opened Options

  const DAY_MS: int := 24 * 60 * 60 * 1000

  /** A DocumentGrant row; its id is its place in the table. */
  datatype Grant = Grant(
    documentId: nat, grantedTo: nat, expiresAt: int, requireNda: bool,
    ndaAcceptedAt: Option<int>, revokedAt: Option<int>)

  datatype View = View(documentId: nat, viewer: nat, at: int)

  datatype Outcome = Ok | NotFound | NoAccess | NdaRequired

  /** A call that succeeded. */
  datatype Act =
    | Granted(doc: nat, to: nat, expiresAt: int, requireNda: bool)
    | Revoked(doc: nat, to: nat, at: int)
    | NdaAccepted(doc: nat, to: nat, at: int)
    | Opened(doc: nat, viewer: nat, at: int)   // the owner's own opens included

  function Find(grants: seq<Grant>, doc: nat, to: nat): (i: Option<nat>)
    ensures i.Some? ==> i.value < |grants| && grants[i.value].documentId == doc && grants[i.value].grantedTo == to
    ensures i == None ==> forall j | 0 <= j < |grants| :: grants[j].documentId != doc || grants[j].grantedTo != to
  {
    if grants == [] then None
    else
      var n := |grants| - 1;
      if grants[n].documentId == doc && grants[n].grantedTo == to then Some(n) else Find(grants[..n], doc, to)
  }

  function Row(grants: seq<Grant>, doc: nat, to: nat): Option<Grant> {
    var i := Find(grants, doc, to);
    if i == None then None else Some(grants[i.value])
  }

  /** What `access` answers, before it logs the view. */
  function Decide(owners: map<nat, nat>, grants: seq<Grant>, viewer: nat, doc: nat, now: int): Outcome {
    if doc !in owners then NotFound
    else if owners[doc] == viewer then Ok
    else
      var row := Row(grants, doc, viewer);
      if row == None || row.value.revokedAt.Some? || row.value.expiresAt < now then NoAccess
      else if row.value.requireNda && row.value.ndaAcceptedAt == None then NdaRequired
      else Ok
  }

  // ---- the history ----

  /** Act g granted the pair and nothing since has granted or revoked it. */
  ghost predicate Standing(h: seq<Act>, g: nat, doc: nat, to: nat) {
    && g < |h| && h[g].Granted? && h[g].doc == doc && h[g].to == to
    && forall k | g < k < |h| && (h[k].Granted? || h[k].Revoked?) :: h[k].doc != doc || h[k].to != to
  }

  ghost predicate NdaSince(h: seq<Act>, g: nat, doc: nat, to: nat) {
    exists a :: g < a < |h| && h[a].NdaAccepted? && h[a].doc == doc && h[a].to == to
  }

  /** The viewer may open the document now: a standing, unexpired grant, the NDA accepted since if it asks for one. */
  ghost predicate Authorised(h: seq<Act>, doc: nat, viewer: nat, now: int) {
    exists g: nat ::
      Standing(h, g, doc, viewer) && now <= h[g].expiresAt && (h[g].requireNda ==> NdaSince(h, g, doc, viewer))
  }

  /** The row the history leaves for a pair. */
  function RowOf(h: seq<Act>, doc: nat, to: nat): Option<Grant> {
    if h == [] then None
    else
      var rest := RowOf(h[..|h| - 1], doc, to);
      var e := h[|h| - 1];
      if !e.Opened? && e.doc == doc && e.to == to then After(rest, e) else rest
  }

  /** What an act on a pair does to the pair's row. */
  function After(row: Option<Grant>, e: Act): Option<Grant> {
    match e
    case Granted(doc, to, expiresAt, requireNda) => Some(Grant(doc, to, expiresAt, requireNda, None, None))
    case Revoked(_, _, at) => if row == None then None else Some(row.value.(revokedAt := Some(at)))
    case NdaAccepted(_, _, at) => if row == None then None else Some(row.value.(ndaAcceptedAt := Some(at)))
    case Opened(_, _, _) => row
  }

  function ViewsOf(h: seq<Act>, owners: map<nat, nat>): seq<View> {
    if h == [] then []
    else
      var e := h[|h| - 1];
      ViewsOf(h[..|h| - 1], owners)
      + if e.Opened? && e.doc in owners && owners[e.doc] != e.viewer then [View(e.doc, e.viewer, e.at)] else []
  }

  /** The table's unique key: document and recipient. */
  ghost predicate OneRowPerPair(grants: seq<Grant>) {
    forall i, j | 0 <= i < j < |grants| ::
      grants[i].documentId != grants[j].documentId || grants[i].grantedTo != grants[j].grantedTo
  }

  /** The tables are what the history says, and nobody opened a document unauthorised. */
  ghost predicate Honest(owners: map<nat, nat>, grants: seq<Grant>, views: seq<View>, h: seq<Act>) {
    && (forall doc, to :: Row(grants, doc, to) == RowOf(h, doc, to))
    && OneRowPerPair(grants)
    && (forall i | 0 <= i < |grants| :: grants[i].documentId in owners)
    && views == ViewsOf(h, owners)
    && (forall n | 0 <= n < |h| && h[n].Opened? :: OpenedRightly(owners, h, n))
  }

  ghost predicate OpenedRightly(owners: map<nat, nat>, h: seq<Act>, n: nat)
    requires n < |h| && h[n].Opened?
  {
    h[n].doc in owners && (owners[h[n].doc] == h[n].viewer || Authorised(h[..n], h[n].doc, h[n].viewer, h[n].at))
  }

  lemma {:induction false} StandingRow(h: seq<Act>, g: nat, doc: nat, to: nat)
    requires Standing(h, g, doc, to)
    ensures var row := RowOf(h, doc, to);
            && row.Some? && row.value.revokedAt == None
            && row.value.expiresAt == h[g].expiresAt && row.value.requireNda == h[g].requireNda
            && (row.value.ndaAcceptedAt.Some? <==> NdaSince(h, g, doc, to))
  {
    var n := |h| - 1;
    if g < n {
      assert Standing(h[..n], g, doc, to);
      StandingRow(h[..n], g, doc, to);
      if NdaSince(h[..n], g, doc, to) {
        var a :| g < a < n && h[..n][a].NdaAccepted? && h[..n][a].doc == doc && h[..n][a].to == to;
        assert h[a].NdaAccepted?;
      }
      if NdaSince(h, g, doc, to) && !(h[n].NdaAccepted? && h[n].doc == doc && h[n].to == to) {
        var a :| g < a < |h| && h[a].NdaAccepted? && h[a].doc == doc && h[a].to == to;
        assert h[..n][a].NdaAccepted?;
      }
    }
  }

  lemma UnrevokedStands(h: seq<Act>, doc: nat, to: nat) returns (g: nat)
    requires RowOf(h, doc, to).Some? && RowOf(h, doc, to).value.revokedAt == None
    ensures Standing(h, g, doc, to)
  {
    var n := |h| - 1;
    if h[n].Granted? && h[n].doc == doc && h[n].to == to {
      g := n;
    } else {
      g := UnrevokedStands(h[..n], doc, to);
      assert h[..n][g] == h[g];
    }
  }

  lemma OnlyOneStands(h: seq<Act>, g: nat, doc: nat, to: nat)
    requires Standing(h, g, doc, to)
    ensures forall k: nat | Standing(h, k, doc, to) :: k == g
  {
  }

  /**
   * `access` lets a non-owner in exactly when the history authorises it, and asks for
   * the NDA exactly when only that is missing.
   */
  lemma DecideIffAuthorised(owners: map<nat, nat>, grants: seq<Grant>, views: seq<View>, h: seq<Act>,
                            viewer: nat, doc: nat, now: int)
    requires Honest(owners, grants, views, h) && doc in owners && owners[doc] != viewer
    ensures Decide(owners, grants, viewer, doc, now) == Ok <==> Authorised(h, doc, viewer, now)
    ensures Decide(owners, grants, viewer, doc, now) == NdaRequired
            <==> !Authorised(h, doc, viewer, now)
                 && exists g: nat :: Standing(h, g, doc, viewer) && now <= h[g].expiresAt
    ensures Decide(owners, grants, viewer, doc, now) != NotFound
  {
    var row := RowOf(h, doc, viewer);
    assert row == Row(grants, doc, viewer);
    if row.Some? && row.value.revokedAt == None {
      var g := UnrevokedStands(h, doc, viewer);
      StandingRow(h, g, doc, viewer);
    }
    if g: nat :| Standing(h, g, doc, viewer) {
      StandingRow(h, g, doc, viewer);
      OnlyOneStands(h, g, doc, viewer);
    }
  }

  /** Every view row was written while its viewer was authorised by the history before it. */
  lemma {:induction false} EveryViewWasAuthorised(owners: map<nat, nat>, h: seq<Act>, v: View) returns (n: nat)
    requires forall n | 0 <= n < |h| && h[n].Opened? :: OpenedRightly(owners, h, n)
    requires v in ViewsOf(h, owners)
    ensures n < |h| && h[n] == Opened(v.documentId, v.viewer, v.at)
    ensures v.documentId in owners && owners[v.documentId] != v.viewer
    ensures Authorised(h[..n], v.documentId, v.viewer, v.at)
  {
    var last := |h| - 1;
    var e := h[last];
    if e.Opened? && e.doc in owners && owners[e.doc] != e.viewer && v == View(e.doc, e.viewer, e.at) {
      n := last;
      assert OpenedRightly(owners, h, last);
    } else {
      forall k | 0 <= k < last && h[..last][k].Opened? ensures OpenedRightly(owners, h[..last], k) {
        assert h[..last][..k] == h[..k];
        assert OpenedRightly(owners, h, k);
      }
      n := EveryViewWasAuthorised(owners, h[..last], v);
      assert h[..last][..n] == h[..n];
    }
  }

  // ---- counting ----

  function ViewCount(views: seq<View>, doc: nat, viewer: nat): nat {
    if views == [] then 0
    else
      var v := views[|views| - 1];
      ViewCount(views[..|views| - 1], doc, viewer) + if v.documentId == doc && v.viewer == viewer then 1 else 0
  }

  function Opens(h: seq<Act>, doc: nat, viewer: nat): nat {
    if h == [] then 0
    else
      var e := h[|h| - 1];
      Opens(h[..|h| - 1], doc, viewer) + if e.Opened? && e.doc == doc && e.viewer == viewer then 1 else 0
  }

  /** The count a founder is shown is the number of times that person opened the document; the owner never counts. */
  lemma {:induction false} ViewCountIsOpens(h: seq<Act>, owners: map<nat, nat>, doc: nat, viewer: nat)
    requires doc in owners
    ensures ViewCount(ViewsOf(h, owners), doc, viewer) == if owners[doc] == viewer then 0 else Opens(h, doc, viewer)
  {
    if h != [] {
      ViewCountIsOpens(h[..|h| - 1], owners, doc, viewer);
      var views, before := ViewsOf(h, owners), ViewsOf(h[..|h| - 1], owners);
      if |views| > |before| {
        assert views[..|views| - 1] == before;
      } else {
        assert views == before;
      }
    }
  }

  // ---- the list a viewer sees ----

  predicate Listed(g: Grant, viewer: nat, now: int) {
    g.grantedTo == viewer && g.revokedAt == None && g.expiresAt > now
  }

  /**
   * The list and the gate agree except at the very instant of expiry: a grant is
   * listed exactly when `access` would not refuse it for lack of access and it
   * does not expire now. So anything listed can only be refused for its NDA.
   */
  lemma ListedIffNotRefused(owners: map<nat, nat>, grants: seq<Grant>, viewer: nat, i: nat, now: int)
    requires i < |grants| && grants[i].grantedTo == viewer && grants[i].documentId in owners
    requires owners[grants[i].documentId] != viewer
    requires OneRowPerPair(grants)
    ensures var answer := Decide(owners, grants, viewer, grants[i].documentId, now);
            && answer != NotFound
            && (Listed(grants[i], viewer, now) <==> answer != NoAccess && grants[i].expiresAt != now)
            && (Listed(grants[i], viewer, now) ==>
                  (answer == NdaRequired <==> grants[i].requireNda && grants[i].ndaAcceptedAt == None))
  {
    FindOnly(grants, i);
  }

  lemma {:induction false} FindOnly(grants: seq<Grant>, i: nat)
    requires i < |grants|
    requires OneRowPerPair(grants)
    ensures Find(grants, grants[i].documentId, grants[i].grantedTo) == Some(i)
  {
    var n := |grants| - 1;
    if i < n {
      FindOnly(grants[..n], i);
    }
  }

  // ---- the service ----

  class DataRoom {
    const owners: map<nat, nat>
    const users: set<nat>
    var grants: seq<Grant>
    var views: seq<View>
    ghost var history: seq<Act>

    ghost predicate Valid()
      reads this
    {
      Honest(owners, grants, views, history)
    }

    constructor (owners: map<nat, nat>, users: set<nat>)
      ensures Valid() && this.owners == owners && this.users == users
      ensures grants == [] && views == [] && history == []
    {
      this.owners := owners;
      this.users := users;
      grants, views, history := [], [], [];
    }

    /** Upserts the pair's one grant; re-sharing resets it. */
    method Share(founder: nat, doc: nat, to: nat, expiresInDays: nat, requireNda: bool, now: int)
      returns (outcome: Outcome)
      requires Valid()
      modifies this
      ensures Valid() && views == old(views)
      ensures outcome == if doc !in owners || owners[doc] != founder || to !in users then NotFound else Ok
      ensures outcome != Ok ==> history == old(history) && grants == old(grants)
      ensures outcome == Ok ==>
                && history == old(history) + [Granted(doc, to, now + expiresInDays * 86_400_000, requireNda)]
                && Row(grants, doc, to)
                   == Some(Grant(doc, to, now + expiresInDays * 86_400_000, requireNda, None, None))
                && |grants| == |old(grants)| + if Row(old(grants), doc, to) == None then 1 else 0
    {
      if doc !in owners || owners[doc] != founder || to !in users { return NotFound; }
      var expiresAt := now + expiresInDays * DAY_MS;
      var row := Grant(doc, to, expiresAt, requireNda, None, None);
      ghost var was, act := grants, Granted(doc, to, expiresAt, requireNda);
      var i := Find(grants, doc, to);
      if i == None {
        grants := grants + [row];
        AddedRow(was, row);
      } else {
        grants := grants[i.value := row];
        ChangedRow(was, i.value, row);
      }
      assert RowSetAt(was, grants, row, doc, to);
      RowsStayHonest(owners, was, grants, views, history, act, row);
      history := history + [act];
      return Ok;
    }

    method Revoke(founder: nat, grantId: nat, now: int) returns (outcome: Outcome)
      requires Valid()
      modifies this
      ensures Valid() && views == old(views)
      ensures outcome == if grantId >= |old(grants)| || owners[old(grants)[grantId].documentId] != founder
                         then NotFound else Ok
      ensures outcome != Ok ==> history == old(history) && grants == old(grants)
      ensures outcome == Ok ==>
                && history == old(history)
                              + [Revoked(old(grants)[grantId].documentId, old(grants)[grantId].grantedTo, now)]
                && grants == old(grants)[grantId := old(grants)[grantId].(revokedAt := Some(now))]
    {
      if grantId >= |grants| || owners[grants[grantId].documentId] != founder { return NotFound; }
      ghost var was, act := grants, Revoked(grants[grantId].documentId, grants[grantId].grantedTo, now);
      grants := grants[grantId := grants[grantId].(revokedAt := Some(now))];
      FindOnly(was, grantId);
      ChangedRow(was, grantId, grants[grantId]);
      RowsStayHonest(owners, was, grants, views, history, act, grants[grantId]);
      history := history + [act];
      return Ok;
    }

    method AcceptNda(viewer: nat, grantId: nat, now: int) returns (outcome: Outcome)
      requires Valid()
      modifies this
      ensures Valid() && views == old(views)
      ensures outcome == if grantId >= |old(grants)| || old(grants)[grantId].grantedTo != viewer then NotFound else Ok
      ensures outcome != Ok || !old(grants)[grantId].requireNda ==> history == old(history) && grants == old(grants)
      ensures outcome == Ok && old(grants)[grantId].requireNda ==>
                && history == old(history) + [NdaAccepted(old(grants)[grantId].documentId, viewer, now)]
                && grants == old(grants)[grantId := old(grants)[grantId].(ndaAcceptedAt := Some(now))]
    {
      if grantId >= |grants| || grants[grantId].grantedTo != viewer { return NotFound; }
      if !grants[grantId].requireNda { return Ok; }
      ghost var was, act := grants, NdaAccepted(grants[grantId].documentId, viewer, now);
      grants := grants[grantId := grants[grantId].(ndaAcceptedAt := Some(now))];
      FindOnly(was, grantId);
      ChangedRow(was, grantId, grants[grantId]);
      RowsStayHonest(owners, was, grants, views, history, act, grants[grantId]);
      history := history + [act];
      return Ok;
    }

    /** Opens a document: a view row is written for everyone but its owner. */
    method Access(viewer: nat, doc: nat, now: int) returns (outcome: Outcome)
      requires Valid()
      modifies this
      ensures Valid() && grants == old(grants)
      ensures outcome == Decide(owners, grants, viewer, doc, now)
      ensures outcome == NotFound <==> doc !in owners
      ensures doc in owners && owners[doc] == viewer ==> outcome == Ok
      ensures doc in owners && owners[doc] != viewer ==> (outcome == Ok <==> Authorised(old(history), doc, viewer, now))
      ensures outcome != Ok ==> views == old(views) && history == old(history)
      ensures outcome == Ok ==>
                && history == old(history) + [Opened(doc, viewer, now)]
                && views == old(views) + if owners[doc] == viewer then [] else [View(doc, viewer, now)]
    {
      if doc !in owners { return NotFound; }
      if owners[doc] == viewer {
        OpenStaysHonest(owners, grants, views, history, doc, viewer, now);
        history := history + [Opened(doc, viewer, now)];
        return Ok;
      }
      DecideIffAuthorised(owners, grants, views, history, viewer, doc, now);
      var i := Find(grants, doc, viewer);
      if i == None || grants[i.value].revokedAt.Some? || grants[i.value].expiresAt < now { return NoAccess; }
      if grants[i.value].requireNda && grants[i.value].ndaAcceptedAt == None { return NdaRequired; }
      OpenStaysHonest(owners, grants, views, history, doc, viewer, now);
      views := views + [View(doc, viewer, now)];
      history := history + [Opened(doc, viewer, now)];
      return Ok;
    }
  }

  /** grants' differs from grants in the row of one pair only, which is now `row`. */
  ghost predicate OneRowSet(grants: seq<Grant>, grants': seq<Grant>, row: Grant) {
    forall doc: nat, to: nat :: RowSetAt(grants, grants', row, doc, to)
  }

  predicate RowSetAt(grants: seq<Grant>, grants': seq<Grant>, row: Grant, doc: nat, to: nat) {
    Row(grants', doc, to) == if doc == row.documentId && to == row.grantedTo then Some(row) else Row(grants, doc, to)
  }

  lemma AddedRow(grants: seq<Grant>, g: Grant)
    ensures OneRowSet(grants, grants + [g], g)
  {
    assert (grants + [g])[..|grants|] == grants;
  }

  lemma ChangedRow(grants: seq<Grant>, i: nat, g: Grant)
    requires i < |grants| && g.documentId == grants[i].documentId && g.grantedTo == grants[i].grantedTo
    requires Find(grants, g.documentId, g.grantedTo) == Some(i)
    ensures OneRowSet(grants, grants[i := g], g)
  {
    var grants' := grants[i := g];
    forall doc: nat, to: nat ensures RowSetAt(grants, grants', g, doc, to) {
      SameKeysSameFind(grants, grants', doc, to);
    }
  }

  lemma {:induction false} SameKeysSameFind(a: seq<Grant>, b: seq<Grant>, doc: nat, to: nat)
    requires |a| == |b|
    requires forall i | 0 <= i < |a| :: a[i].documentId == b[i].documentId && a[i].grantedTo == b[i].grantedTo
    ensures Find(a, doc, to) == Find(b, doc, to)
  {
    if a != [] { SameKeysSameFind(a[..|a| - 1], b[..|b| - 1], doc, to); }
  }

  lemma OpenedBefore(owners: map<nat, nat>, h: seq<Act>, e: Act)
    requires forall n | 0 <= n < |h| && h[n].Opened? :: OpenedRightly(owners, h, n)
    ensures forall n | 0 <= n < |h| && h[n].Opened? :: OpenedRightly(owners, h + [e], n)
  {
    forall n | 0 <= n < |h| && h[n].Opened? ensures OpenedRightly(owners, h + [e], n) {
      assert (h + [e])[..n] == h[..n];
      assert OpenedRightly(owners, h, n);
    }
  }

  /** A step on the grants keeps the tables honest if it sets the row its act says it does. */
  lemma RowsStayHonest(owners: map<nat, nat>, grants: seq<Grant>, grants': seq<Grant>, views: seq<View>,
                       h: seq<Act>, e: Act, row: Grant)
    requires Honest(owners, grants, views, h) && !e.Opened?
    requires OneRowPerPair(grants')
    requires forall i | 0 <= i < |grants'| :: grants'[i].documentId in owners
    requires OneRowSet(grants, grants', row)
    requires row.documentId == e.doc && row.grantedTo == e.to && Some(row) == After(Row(grants, e.doc, e.to), e)
    ensures Honest(owners, grants', views, h + [e])
  {
    assert (h + [e])[..|h|] == h;
    OpenedBefore(owners, h, e);
    forall doc: nat, to: nat | true ensures Row(grants', doc, to) == RowOf(h + [e], doc, to) {
      assert RowSetAt(grants, grants', row, doc, to);
      assert Row(grants, doc, to) == RowOf(h, doc, to);
    }
  }

  lemma OpenStaysHonest(owners: map<nat, nat>, grants: seq<Grant>, views: seq<View>, h: seq<Act>,
                        doc: nat, viewer: nat, now: int)
    requires Honest(owners, grants, views, h) && doc in owners
    requires owners[doc] == viewer || Authorised(h, doc, viewer, now)
    ensures Honest(owners, grants, views + (if owners[doc] == viewer then [] else [View(doc, viewer, now)]),
                   h + [Opened(doc, viewer, now)])
  {
    var h' := h + [Opened(doc, viewer, now)];
    assert h'[..|h|] == h;
    OpenedBefore(owners, h, h'[|h|]);
  }
}
