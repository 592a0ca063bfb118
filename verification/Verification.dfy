/**
 * Automatic verification of a startup profile. Being verified is itself one of
 * the seven completion checks that verification reads
 * (apps/api/src/modules/verification/verification-engine.service.ts,
 * apps/api/src/modules/startups/profile-completion.service.ts).
 */
module Verification {
  import opened Options

  datatype Status = Unverified | Pending | Verified | Rejected

  /** What a recompute reads from the database besides the status. */
  datatype Signals = Signals(
    registered: bool, incorporationDoc: bool, pitchDeck: bool, website: bool,
    teamCount: nat, demoVideo: bool, revenueData: bool, recentMilestone: bool)

  function CountTrue(bs: seq<bool>): nat {
    if bs == [] then 0 else CountTrue(bs[..|bs| - 1]) + if bs[|bs| - 1] then 1 else 0
  }

  /** CHECKS, in the source's order. */
  function Checks(s: Signals, isVerified: bool): seq<bool> {
    [s.website, s.pitchDeck, s.teamCount > 0, isVerified, s.demoVideo, s.revenueData, s.recentMilestone]
  }

  /** `Math.round((complete / checks) * 100)` */
  function Percent(checks: seq<bool>): nat
    requires checks != []
  {
    (200 * CountTrue(checks) + |checks|) / (2 * |checks|)
  }

  function DeriveStatus(required: seq<bool>): Status {
    var met := CountTrue(required);
    if met == |required| then Verified
    else if met == 0 then Unverified
    else Pending
  }

  predicate RegistrationOk(s: Signals) {
    s.registered || s.incorporationDoc
  }

  function NextStatus(status: Status, s: Signals): Status {
    DeriveStatus([RegistrationOk(s), s.pitchDeck, Percent(Checks(s, status == Verified)) >= 80])
  }

  // ---- the row, its audit trail and the ledger ----

  const TTL_MS: nat := 180 * 24 * 60 * 60 * 1000

  datatype AuditEntry = AuditEntry(status: Status, at: nat)

  datatype LedgerRow = LedgerRow(status: Status, verifiedAt: Option<nat>, expiresAt: Option<nat>)

  datatype Profile = Profile(
    status: Status, verifiedAt: Option<nat>, audit: seq<AuditEntry>, ledger: seq<LedgerRow>, announced: nat)

  const FRESH: Profile := Profile(Unverified, None, [], [], 0)

  function RecordVerification(ledger: seq<LedgerRow>, status: Status, now: nat): seq<LedgerRow> {
    if status == Unverified then ledger
    else if status == Verified then ledger + [LedgerRow(Verified, Some(now), Some(now + TTL_MS))]
    else ledger + [LedgerRow(Pending, None, None)]
  }

  /** What a transition writes. */
  function Moved(p: Profile, next: Status, now: nat): Profile {
    Profile(next, if next == Verified then Some(now) else None,
            p.audit + [AuditEntry(next, now)], RecordVerification(p.ledger, next, now),
            if next == Verified then p.announced + 1 else p.announced)
  }

  function Recomputed(p: Profile, s: Signals, now: nat): Profile {
    var next := NextStatus(p.status, s);
    if p.status == Rejected || next == p.status then p else Moved(p, next, now)
  }

  /** A startup's row and what the engine writes about it. */
  class StartupRow {
    var status: Status
    var verifiedAt: Option<nat>
    var audit: seq<AuditEntry>
    var ledger: seq<LedgerRow>
    var announced: nat

    function Snapshot(): Profile
      reads this
    {
      Profile(status, verifiedAt, audit, ledger, announced)
    }

    constructor ()
      ensures Snapshot() == FRESH
    {
      status := Unverified;
      verifiedAt := None;
      audit := [];
      ledger := [];
      announced := 0;
    }

    method RecomputeStartup(s: Signals, now: nat)
      modifies this
      ensures Snapshot() == Recomputed(old(Snapshot()), s, now)
    {
      if status == Rejected { return; }
      var percent := Percent(Checks(s, status == Verified));
      var next := DeriveStatus([RegistrationOk(s), s.pitchDeck, percent >= 80]);
      if next == status { return; }
      status := next;
      verifiedAt := if next == Verified then Some(now) else None;
      OnTransition(next, now);
    }

    method OnTransition(next: Status, now: nat)
      requires next != Rejected
      modifies this`audit, this`ledger, this`announced
      ensures audit == old(audit) + [AuditEntry(next, now)]
      ensures ledger == RecordVerification(old(ledger), next, now)
      ensures announced == old(announced) + if next == Verified then 1 else 0
    {
      audit := audit + [AuditEntry(next, now)];
      if next != Unverified {
        var recordStatus := if next == Verified then Verified else Pending;
        ledger := ledger + [LedgerRow(recordStatus,
                                      if recordStatus == Verified then Some(now) else None,
                                      if recordStatus == Verified then Some(now + TTL_MS) else None)];
      }
      if next == Verified {
        announced := announced + 1;
      }
    }
  }

  // ---- when a recompute verifies ----

  /** The five checks besides the deck and being verified. */
  function OtherChecks(s: Signals): nat {
    (if s.website then 1 else 0) + (if s.teamCount > 0 then 1 else 0) + (if s.demoVideo then 1 else 0)
    + (if s.revenueData then 1 else 0) + (if s.recentMilestone then 1 else 0)
  }

  /** Registered with the authority, or holding the certificate. */
  predicate HasRegistration(s: Signals) {
    s.registered || s.incorporationDoc
  }

  /** What it takes to become verified: registration and all six checks that do not depend on it. */
  predicate Complete(s: Signals) {
    HasRegistration(s) && s.pitchDeck && OtherChecks(s) == 5
  }

  /** What it takes to stay verified: one of the five may lapse. */
  predicate Sufficient(s: Signals) {
    HasRegistration(s) && s.pitchDeck && OtherChecks(s) >= 4
  }

  lemma CountSeven(bs: seq<bool>)
    requires |bs| == 7
    ensures CountTrue(bs) == (if bs[0] then 1 else 0) + (if bs[1] then 1 else 0) + (if bs[2] then 1 else 0)
                             + (if bs[3] then 1 else 0) + (if bs[4] then 1 else 0) + (if bs[5] then 1 else 0)
                             + (if bs[6] then 1 else 0)
  {
    assert bs[..6][..5] == bs[..5] && bs[..5][..4] == bs[..4] && bs[..4][..3] == bs[..3];
    assert bs[..3][..2] == bs[..2] && bs[..2][..1] == bs[..1] && bs[..1][..0] == [];
    assert CountTrue(bs[..1]) == if bs[0] then 1 else 0;
    assert CountTrue(bs[..2]) == CountTrue(bs[..1]) + if bs[1] then 1 else 0;
    assert CountTrue(bs[..3]) == CountTrue(bs[..2]) + if bs[2] then 1 else 0;
    assert CountTrue(bs[..4]) == CountTrue(bs[..3]) + if bs[3] then 1 else 0;
    assert CountTrue(bs[..5]) == CountTrue(bs[..4]) + if bs[4] then 1 else 0;
    assert CountTrue(bs[..6]) == CountTrue(bs[..5]) + if bs[5] then 1 else 0;
  }

  /** The percentage of seven checks to the nearest whole number, so 80 percent means six of them. */
  lemma EightyPercentIsSix(s: Signals, isVerified: bool)
    ensures Percent(Checks(s, isVerified))
            == [0, 14, 29, 43, 57, 71, 86, 100]
               [OtherChecks(s) + (if s.pitchDeck then 1 else 0) + (if isVerified then 1 else 0)]
    ensures Percent(Checks(s, isVerified)) >= 80
            <==> OtherChecks(s) + (if s.pitchDeck then 1 else 0) + (if isVerified then 1 else 0) >= 6
  {
    CountSeven(Checks(s, isVerified));
  }

  lemma DeriveThree(a: bool, b: bool, c: bool)
    ensures DeriveStatus([a, b, c]) == if a && b && c then Verified else if !a && !b && !c then Unverified else Pending
  {
    assert [a, b, c][..2] == [a, b] && [a, b][..1] == [a] && [a][..0] == [];
    assert CountTrue([a]) == if a then 1 else 0;
    assert CountTrue([a, b]) == CountTrue([a]) + if b then 1 else 0;
  }

  /** The two thresholds: becoming verified takes more than staying so. */
  lemma VerifiedNextIff(status: Status, s: Signals)
    ensures NextStatus(status, s) == Verified <==> if status == Verified then Sufficient(s) else Complete(s)
    ensures NextStatus(status, s) != Rejected
  {
    var high := Percent(Checks(s, status == Verified)) >= 80;
    EightyPercentIsSix(s, status == Verified);
    DeriveThree(RegistrationOk(s), s.pitchDeck, high);
  }

  /** All three answers: verified with everything, unverified with nothing, pending in between. */
  lemma NextStatusCases(status: Status, s: Signals)
    ensures NextStatus(status, s) ==
            var high := OtherChecks(s) + (if s.pitchDeck then 1 else 0) + (if status == Verified then 1 else 0) >= 6;
            if HasRegistration(s) && s.pitchDeck && high then Verified
            else if !HasRegistration(s) && !s.pitchDeck && !high then Unverified
            else Pending
  {
    EightyPercentIsSix(s, status == Verified);
    DeriveThree(RegistrationOk(s), s.pitchDeck, Percent(Checks(s, status == Verified)) >= 80);
  }

  // ---- runs ----

  /** A signal changes, or the engine recomputes. */
  datatype Event = Change(signals: Signals) | Recompute(now: nat)

  function After(p: Profile, s: Signals, es: seq<Event>): (Profile, Signals) {
    if es == [] then (p, s)
    else
      var (p', s') := After(p, s, es[..|es| - 1]);
      match es[|es| - 1]
      case Change(signals) => (p', signals)
      case Recompute(now) => (Recomputed(p', s', now), s')
  }

  /** The signals each recompute of the run saw. */
  function Seen(s: Signals, es: seq<Event>): seq<Signals> {
    if es == [] then []
    else Seen(s, es[..|es| - 1]) + if es[|es| - 1].Recompute? then [SignalsAfter(s, es[..|es| - 1])] else []
  }

  function SignalsAfter(s: Signals, es: seq<Event>): Signals {
    if es == [] then s
    else if es[|es| - 1].Change? then es[|es| - 1].signals
    else SignalsAfter(s, es[..|es| - 1])
  }

  /** Some recompute saw everything, and every one since saw enough. */
  ghost predicate EarnedAndHeld(seen: seq<Signals>) {
    exists i :: 0 <= i < |seen| && Complete(seen[i]) && forall j | i < j < |seen| :: Sufficient(seen[j])
  }

  ghost predicate AllSufficient(seen: seq<Signals>) {
    forall j | 0 <= j < |seen| :: Sufficient(seen[j])
  }

  lemma EarnedAndHeldGrows(seen: seq<Signals>, s: Signals)
    ensures EarnedAndHeld(seen + [s]) <==> Complete(s) || (EarnedAndHeld(seen) && Sufficient(s))
  {
    var seen' := seen + [s];
    if Complete(s) {
      assert Complete(seen'[|seen|]);
    }
    if EarnedAndHeld(seen) && Sufficient(s) {
      var i :| 0 <= i < |seen| && Complete(seen[i]) && forall j | i < j < |seen| :: Sufficient(seen[j]);
      assert Complete(seen'[i]);
    }
    if EarnedAndHeld(seen') && !Complete(s) {
      var i :| 0 <= i < |seen'| && Complete(seen'[i]) && forall j | i < j < |seen'| :: Sufficient(seen'[j]);
      assert Sufficient(seen'[|seen|]);
      forall j | i < j < |seen| ensures Sufficient(seen[j]) {
        assert seen'[j] == seen[j];
      }
      assert Complete(seen[i]);
    }
  }

  lemma {:induction false} SignalsMatch(p: Profile, s: Signals, es: seq<Event>)
    ensures After(p, s, es).1 == SignalsAfter(s, es)
  {
    if es != [] {
      SignalsMatch(p, s, es[..|es| - 1]);
    }
  }

  /**
   * Over any interleaving of signal changes and recomputes, a startup that starts
   * unrejected is verified exactly when some recompute saw everything and every
   * later one saw enough (or it began verified and every one did).
   */
  lemma {:induction false} VerifiedIffEarnedAndHeld(p: Profile, s: Signals, es: seq<Event>)
    requires p.status != Rejected
    ensures After(p, s, es).0.status != Rejected
    ensures After(p, s, es).0.status == Verified
            <==> EarnedAndHeld(Seen(s, es)) || (p.status == Verified && AllSufficient(Seen(s, es)))
  {
    if es != [] {
      var rest := es[..|es| - 1];
      VerifiedIffEarnedAndHeld(p, s, rest);
      if es[|es| - 1].Recompute? {
        SignalsMatch(p, s, rest);
        var now := SignalsAfter(s, rest);
        VerifiedNextIff(After(p, s, rest).0.status, now);
        EarnedAndHeldGrows(Seen(s, rest), now);
        assert Seen(s, es) == Seen(s, rest) + [now];
        assert AllSufficient(Seen(s, es)) <==> AllSufficient(Seen(s, rest)) && Sufficient(now) by {
          assert forall j | 0 <= j < |Seen(s, rest)| :: Seen(s, es)[j] == Seen(s, rest)[j];
          assert Seen(s, es)[|Seen(s, rest)|] == now;
        }
      } else {
        assert Seen(s, es) == Seen(s, rest);
      }
    }
  }

  /** A rejected profile is never touched. */
  lemma {:induction false} RejectedStays(p: Profile, s: Signals, es: seq<Event>)
    requires p.status == Rejected
    ensures After(p, s, es).0 == p
  {
    if es != [] {
      RejectedStays(p, s, es[..|es| - 1]);
    }
  }

  // ---- idempotence ----

  /** Losing verification with the deck and registration gone but nothing else. */
  predicate LosesTwice(p: Profile, s: Signals) {
    p.status == Verified && !HasRegistration(s) && !s.pitchDeck && OtherChecks(s) == 5
  }

  /**
   * Recomputing again with nothing changed changes nothing, except that a verified
   * profile that has lost exactly the deck and the registration falls twice: the
   * first recompute still counts "verified" among its checks.
   */
  lemma IdempotentIff(p: Profile, s: Signals, now: nat, later: nat)
    ensures Recomputed(Recomputed(p, s, now), s, later) == Recomputed(p, s, now) <==> !LosesTwice(p, s)
    ensures LosesTwice(p, s) ==> Recomputed(p, s, now).status == Pending
                                 && Recomputed(Recomputed(p, s, now), s, later).status == Unverified
  {
    var p1 := Recomputed(p, s, now);
    NextStatusCases(p.status, s);
    NextStatusCases(p1.status, s);
    if p1.status != Rejected && NextStatus(p1.status, s) != p1.status {
      assert Recomputed(p1, s, later).status != p1.status;
    }
  }

  /** Such a run of a new profile: it is verified, loses deck and registration at once, and falls twice. */
  lemma FallsTwice() returns (s: Signals, lost: Signals, es: seq<Event>)
    ensures lost == s.(registered := false, incorporationDoc := false, pitchDeck := false)
    ensures es == [Recompute(1), Change(lost), Recompute(2), Recompute(3)]
    ensures After(FRESH, s, es[..1]).0.status == Verified
    ensures After(FRESH, s, es[..3]).0.status == Pending
    ensures After(FRESH, s, es).0.status == Unverified
  {
    s := Signals(true, true, true, true, 1, true, true, true);
    lost := s.(registered := false, incorporationDoc := false, pitchDeck := false);
    es := [Recompute(1), Change(lost), Recompute(2), Recompute(3)];
    VerifiedNextIff(Unverified, s);
    AfterOne(FRESH, s, es[..1]);
    AfterOne(FRESH, s, es[..2]);
    AfterOne(FRESH, s, es[..3]);
    AfterOne(FRESH, s, es);
    IdempotentIff(Recomputed(FRESH, s, 1), lost, 2, 3);
  }

  /** One event more, the shorter run written as a prefix of the longer. */
  lemma AfterOne(p: Profile, s: Signals, es: seq<Event>)
    requires es != []
    ensures var (p', s') := After(p, s, es[..|es| - 1]);
            After(p, s, es) == match es[|es| - 1]
                               case Change(signals) => (p', signals)
                               case Recompute(now) => (Recomputed(p', s', now), s')
    ensures |es| == 1 ==> After(p, s, es[..0]) == (p, s)
  {
  }

  /** A third recompute never changes anything. */
  lemma SettlesAfterTwo(p: Profile, s: Signals, t1: nat, t2: nat, t3: nat)
    ensures var p2 := Recomputed(Recomputed(p, s, t1), s, t2);
            Recomputed(p2, s, t3) == p2
  {
    IdempotentIff(p, s, t1, t2);
    IdempotentIff(Recomputed(p, s, t1), s, t2, t3);
  }

  // ---- what the trail and the ledger say ----

  function StatusIn(audit: seq<AuditEntry>): Status {
    if audit == [] then Unverified else audit[|audit| - 1].status
  }

  /** A row for each change but those to UNVERIFIED; a verification lasts 180 days, an attempt has no dates. */
  function LedgerOf(audit: seq<AuditEntry>): seq<LedgerRow> {
    if audit == [] then []
    else
      var rest, a := LedgerOf(audit[..|audit| - 1]), audit[|audit| - 1];
      if a.status == Unverified then rest
      else rest + [if a.status == Verified then LedgerRow(Verified, Some(a.at), Some(a.at + 15_552_000_000))
                   else LedgerRow(Pending, None, None)]
  }

  function VerifiedEntries(audit: seq<AuditEntry>): nat {
    if audit == [] then 0
    else VerifiedEntries(audit[..|audit| - 1]) + if audit[|audit| - 1].status == Verified then 1 else 0
  }

  /** The audit trail alone determines the row, its ledger and its announcements. */
  ghost predicate TrailAgrees(p: Profile) {
    && p.status == StatusIn(p.audit)
    && p.verifiedAt == (if p.status == Verified then Some(p.audit[|p.audit| - 1].at) else None)
    && p.ledger == LedgerOf(p.audit)
    && p.announced == VerifiedEntries(p.audit)
    && (forall i | 0 <= i < |p.audit| :: p.audit[i].status != StatusIn(p.audit[..i]))
  }

  lemma TrailAgreesMove(p: Profile, next: Status, now: nat)
    requires TrailAgrees(p) && next != p.status
    ensures TrailAgrees(Moved(p, next, now))
  {
    var p' := Moved(p, next, now);
    assert p'.audit[..|p.audit|] == p.audit;
    forall i | 0 <= i < |p'.audit| ensures p'.audit[i].status != StatusIn(p'.audit[..i]) {
      if i < |p.audit| {
        assert p'.audit[..i] == p.audit[..i];
      }
    }
  }

  lemma TrailAgreesStep(p: Profile, s: Signals, now: nat)
    requires TrailAgrees(p)
    ensures TrailAgrees(Recomputed(p, s, now))
  {
    if NextStatus(p.status, s) != p.status {
      TrailAgreesMove(p, NextStatus(p.status, s), now);
    }
  }

  /** The changes of status a run goes through, each at the time of the recompute that made it. */
  function ChangesIn(p: Profile, s: Signals, es: seq<Event>): seq<AuditEntry> {
    if es == [] then []
    else
      var rest, e := es[..|es| - 1], es[|es| - 1];
      var was, now := After(p, s, rest).0.status, After(p, s, es).0.status;
      ChangesIn(p, s, rest) + if e.Recompute? && now != was then [AuditEntry(now, e.now)] else []
  }

  /** The audit trail of every run is its changes of status. */
  lemma {:induction false} TrailIsTheChanges(p: Profile, s: Signals, es: seq<Event>)
    ensures After(p, s, es).0.audit == p.audit + ChangesIn(p, s, es)
  {
    if es != [] {
      TrailIsTheChanges(p, s, es[..|es| - 1]);
    }
  }

  /** In every run of a new profile: verifiedAt is set iff verified, and every change left exactly its rows. */
  lemma {:induction false} TrailAgreesAlways(s: Signals, es: seq<Event>)
    ensures TrailAgrees(After(FRESH, s, es).0)
    ensures After(FRESH, s, es).0.verifiedAt.Some? <==> After(FRESH, s, es).0.status == Verified
  {
    if es != [] {
      TrailAgreesAlways(s, es[..|es| - 1]);
      if es[|es| - 1].Recompute? {
        var (p, now) := After(FRESH, s, es[..|es| - 1]);
        TrailAgreesStep(p, now, es[|es| - 1].now);
      }
    }
  }
}
