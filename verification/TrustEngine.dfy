/**
 * The service that feeds the model and stores its history
 * (apps/api/src/modules/trust/trust-engine.service.ts): which signals it can
 * read at all, the chain of snapshots it appends, and its next-best actions.
 */
module TrustEngine {
  import opened Options
  import opened TrustModel

  /** What the engine reads from the database; every other signal is a constant in its code. */
  datatype Facts = Facts(
    emailVerified: bool, phoneVerified: bool, workDomainEmail: bool, demoPresent: bool,
    mcaVerified: bool, dpiitVerified: bool, gstinVerified: bool, twoSidedInvestorClaim: bool,
    pitchDeck: bool, capTable: bool, profileFresh30d: bool, metricsFresh45d: bool,
    declaredDiffers: bool, updatedWithin180d: bool)

  function ReadSignals(f: Facts): Signals {
    Signals(f.emailVerified, f.phoneVerified, false, false, f.workDomainEmail, f.demoPresent, false,
            f.mcaVerified, f.dpiitVerified, f.gstinVerified, false, false, false, false, f.twoSidedInvestorClaim,
            f.pitchDeck, false, f.capTable, f.profileFresh30d, f.metricsFresh45d, true)
  }

  function ReadPenalties(f: Facts): Penalties {
    Penalties(0, false, f.declaredDiffers, false, !f.updatedWithin180d, false)
  }

  function ScoreOf(f: Facts, stage: Stage): int {
    ComputeScore(ReadSignals(f), stage, ReadPenalties(f))
  }

  const EVERY_FACT: Facts := Facts(true, true, true, true, true, true, true, true, true, true, true, true, false, true)

  /** The highest score the engine can write at each stage. */
  function Ceiling(stage: Stage): int {
    match stage case S0 => 54 case S1 => 53 case S2 => 52 case S3 => 52 case S4Plus => 52
  }

  lemma EveryFactEarns()
    ensures EarnedPerComponent(ReadSignals(EVERY_FACT)) == [10, 4, 5, 20, 0, 7, 3, 3]
    ensures PenaltyTotal(ReadPenalties(EVERY_FACT)) == 0
  {
  }

  lemma EveryFactWeighted(stage: Stage)
    ensures Weighted([10, 4, 5, 20, 0, 7, 3, 3], Applicability(stage))
            == match stage case S0 => 284 case S1 => 398 case S2 => 506 case S3 => 520 case S4Plus => 520
  {
    Weighted8([10, 4, 5, 20, 0, 7, 3, 3], Applicability(stage));
  }

  lemma CeilingIsReached(stage: Stage)
    ensures ScoreOf(EVERY_FACT, stage) == Ceiling(stage)
  {
    EveryFactEarns();
    Denominators(stage);
    EveryFactWeighted(stage);
  }

  lemma FactsAreFewer(f: Facts)
    ensures Gains(ReadSignals(f), ReadSignals(EVERY_FACT)) && Heavier(ReadPenalties(f), ReadPenalties(EVERY_FACT))
  {
  }

  /**
   * No profile the engine reads scores above its stage's ceiling, and one reaches
   * it: with eight signals fixed at false, nobody gets past 54, so nobody enters Gold.
   */
  lemma EngineCeiling(f: Facts, stage: Stage)
    ensures 0 <= ScoreOf(f, stage) <= Ceiling(stage) <= 54
    ensures ScoreOf(EVERY_FACT, stage) == Ceiling(stage)
    ensures Ordinal(Enter(ScoreOf(f, stage))) <= Ordinal(Silver)
  {
    CeilingIsReached(stage);
    FactsAreFewer(f);
    EvidenceRaisesPenaltiesLower(ReadSignals(f), ReadSignals(EVERY_FACT),
                                 ReadPenalties(f), ReadPenalties(EVERY_FACT), stage);
  }

  function ContactPoints(f: Facts): nat {
    If(f.emailVerified, 5) + If(f.phoneVerified, 5) + If(f.workDomainEmail, 4) + If(f.demoPresent, 5)
  }

  function AuthorityPoints(f: Facts): nat {
    If(f.mcaVerified, 10) + If(f.dpiitVerified, 6) + If(f.gstinVerified, 4) + If(f.twoSidedInvestorClaim, 7)
  }

  /** The last point is for having no expired verification, which the engine takes for granted. */
  function DisclosurePoints(f: Facts): nat {
    If(f.pitchDeck, 2) + If(f.capTable, 1) + If(f.profileFresh30d, 1) + If(f.metricsFresh45d, 1) + 1
  }

  function Deductions(f: Facts): nat {
    If(f.declaredDiffers, 4) + If(!f.updatedWithin180d, 5)
  }

  lemma ContactsEarn(f: Facts)
    ensures var s := ReadSignals(f); Registration(s) + Founder(s) + Product(s) == ContactPoints(f)
  {
  }

  lemma AuthoritiesEarn(f: Facts)
    ensures var s := ReadSignals(f); Legal(s) + Revenue(s) + Funding(s) == AuthorityPoints(f)
  {
  }

  lemma DisclosuresEarn(f: Facts)
    ensures var s := ReadSignals(f); Transparency(s) + Freshness(s) == DisclosurePoints(f)
  {
  }

  lemma Deducted(f: Facts)
    ensures PenaltyTotal(ReadPenalties(f)) == Deductions(f)
  {
  }

  /** From S3 on, what each fact is worth: the facts the engine reads, and no others, move the score. */
  lemma FactsScore(f: Facts, stage: Stage)
    requires stage == S3 || stage == S4Plus
    ensures var points := ContactPoints(f) + AuthorityPoints(f) + DisclosurePoints(f) - Deductions(f);
            ScoreOf(f, stage) == if points < 0 then 0 else points
  {
    var s := ReadSignals(f);
    LadderIsExact(s, stage, ReadPenalties(f));
    Total8(EarnedPerComponent(s));
    ContactsEarn(f);
    AuthoritiesEarn(f);
    DisclosuresEarn(f);
    Deducted(f);
    assert EarnedPerComponent(s) == [Registration(s), Founder(s), Product(s), Legal(s), Revenue(s), Funding(s),
                                     Transparency(s), Freshness(s)];
  }

  lemma Total8(xs: seq<nat>)
    requires |xs| == 8
    ensures Total(xs) == xs[0] + xs[1] + xs[2] + xs[3] + xs[4] + xs[5] + xs[6] + xs[7]
  {
    assert Total(xs[..4]) == xs[0] + xs[1] + xs[2] + xs[3] by {
      assert xs[..4][..3] == xs[..3] && xs[..3][..2] == xs[..2] && xs[..2][..1] == xs[..1] && xs[..1][..0] == [];
      assert Total(xs[..1]) == xs[0];
      assert Total(xs[..2]) == Total(xs[..1]) + xs[1];
      assert Total(xs[..3]) == Total(xs[..2]) + xs[2];
    }
    assert xs[..7][..6] == xs[..6] && xs[..6][..5] == xs[..5] && xs[..5][..4] == xs[..4];
    assert Total(xs[..5]) == Total(xs[..4]) + xs[4];
    assert Total(xs[..6]) == Total(xs[..5]) + xs[5];
    assert Total(xs[..7]) == Total(xs[..6]) + xs[6];
  }

  // ---- the snapshot table ----

  datatype Snapshot = Snapshot(entityId: string, score: int, band: Band, computedAt: nat)

  /** The startup's newest snapshot among the rows, which are in the order they were written. */
  function Latest(rows: seq<Snapshot>, id: string): Option<Snapshot> {
    if rows == [] then None
    else if rows[|rows| - 1].entityId == id then Some(rows[|rows| - 1])
    else Latest(rows[..|rows| - 1], id)
  }

  function LatestBand(rows: seq<Snapshot>, id: string): Option<Band> {
    var latest := Latest(rows, id);
    if latest == None then None else Some(latest.value.band)
  }

  /** Every row was derived from the same startup's row before it, from a score the engine can give. */
  ghost predicate WrittenByEngine(rows: seq<Snapshot>) {
    && (forall i | 0 <= i < |rows| ::
          && rows[i].band == DeriveBand(rows[i].score, LatestBand(rows[..i], rows[i].entityId))
          && 0 <= rows[i].score <= 54)
    && (forall i, j | 0 <= i <= j < |rows| :: rows[i].computedAt <= rows[j].computedAt)
  }

  class Engine {
    var snapshots: seq<Snapshot>

    ghost predicate Valid()
      reads this
    {
      WrittenByEngine(snapshots)
    }

    constructor ()
      ensures Valid() && snapshots == []
    {
      snapshots := [];
    }

    /** `computeAndPersistForStartup`, for a startup that exists. */
    method ComputeAndPersist(id: string, f: Facts, stage: Stage, now: nat) returns (score: int, band: Band)
      requires Valid() && forall s | s in snapshots :: s.computedAt <= now
      modifies this
      ensures Valid()
      ensures score == ScoreOf(f, stage)
      ensures band == DeriveBand(score, LatestBand(old(snapshots), id))
      ensures snapshots == old(snapshots) + [Snapshot(id, score, band, now)]
    {
      var previous := Latest(snapshots, id);
      var previousBand := if previous == None then None else Some(previous.value.band);
      score := ComputeScore(ReadSignals(f), stage, ReadPenalties(f));
      band := DeriveBand(score, previousBand);
      EngineCeiling(f, stage);
      ghost var was := snapshots;
      snapshots := snapshots + [Snapshot(id, score, band, now)];
      AppendKeepsWritten(was, Snapshot(id, score, band, now));
    }
  }

  lemma AppendKeepsWritten(rows: seq<Snapshot>, row: Snapshot)
    requires WrittenByEngine(rows) && forall s | s in rows :: s.computedAt <= row.computedAt
    requires row.band == DeriveBand(row.score, LatestBand(rows, row.entityId)) && 0 <= row.score <= 54
    ensures WrittenByEngine(rows + [row])
  {
    var rows' := rows + [row];
    forall i | 0 <= i < |rows'|
      ensures rows'[i].band == DeriveBand(rows'[i].score, LatestBand(rows'[..i], rows'[i].entityId))
      ensures 0 <= rows'[i].score <= 54
    {
      assert rows'[..i] == rows[..i];
      assert rows[..|rows|] == rows;
    }
  }

  // ---- one startup's rows form a band chain ----

  function ScoresOf(rows: seq<Snapshot>, id: string): seq<int> {
    if rows == [] then []
    else ScoresOf(rows[..|rows| - 1], id) + if rows[|rows| - 1].entityId == id then [rows[|rows| - 1].score] else []
  }

  function BandsOf(rows: seq<Snapshot>, id: string): (bands: seq<Band>)
    ensures |bands| == |ScoresOf(rows, id)|
    ensures LatestBand(rows, id) == Previous(bands, |bands|)
  {
    if rows == [] then []
    else BandsOf(rows[..|rows| - 1], id) + if rows[|rows| - 1].entityId == id then [rows[|rows| - 1].band] else []
  }

  lemma {:induction false} OwnRowsAreAChain(rows: seq<Snapshot>, id: string)
    requires WrittenByEngine(rows)
    ensures IsChain(ScoresOf(rows, id), BandsOf(rows, id))
    ensures forall s | s in ScoresOf(rows, id) :: 0 <= s <= 54
  {
    if rows != [] {
      var n := |rows| - 1;
      assert forall i | 0 <= i < n :: rows[..n][..i] == rows[..i];
      OwnRowsAreAChain(rows[..n], id);
      if rows[n].entityId == id {
        ChainGrows(ScoresOf(rows[..n], id), BandsOf(rows[..n], id), rows[n].score, rows[n].band);
      }
    }
  }

  lemma ChainGrows(scores: seq<int>, bands: seq<Band>, score: int, band: Band)
    requires IsChain(scores, bands) && band == DeriveBand(score, Previous(bands, |bands|))
    ensures IsChain(scores + [score], bands + [band])
  {
    var bands' := bands + [band];
    forall i | 0 <= i < |bands'| ensures bands'[i] == DeriveBand((scores + [score])[i], Previous(bands', i)) {
      assert Previous(bands', i) == Previous(bands, i);
      if i < |bands| {
        assert bands'[i] == bands[i] && (scores + [score])[i] == scores[i];
      }
    }
  }

  lemma FirstBandAtMostSilver(scores: seq<int>, bands: seq<Band>)
    requires IsChain(scores, bands) && forall s | s in scores :: 0 <= s <= 54
    ensures AllNonNegative(scores)
    ensures bands != [] ==> Ordinal(bands[0]) <= Ordinal(Silver)
  {
    assert forall i | 0 <= i < |scores| :: scores[i] in scores;
  }

  /**
   * In any table the engine has written, a startup's bands never rise, change at
   * most twice, and never exceed Silver.
   */
  lemma HistoryOfOneStartup(rows: seq<Snapshot>, id: string)
    requires WrittenByEngine(rows)
    ensures Changes(BandsOf(rows, id)) <= 2
    ensures forall i, j | 0 <= i <= j < |BandsOf(rows, id)| ::
              Ordinal(BandsOf(rows, id)[j]) <= Ordinal(BandsOf(rows, id)[i])
    ensures forall i | 0 <= i < |BandsOf(rows, id)| :: Ordinal(BandsOf(rows, id)[i]) <= Ordinal(Silver)
  {
    var scores, bands := ScoresOf(rows, id), BandsOf(rows, id);
    OwnRowsAreAChain(rows, id);
    FirstBandAtMostSilver(scores, bands);
    BandsOfAChain(scores, bands);
  }

  lemma BandsOfAChain(scores: seq<int>, bands: seq<Band>)
    requires IsChain(scores, bands) && AllNonNegative(scores) && (bands != [] ==> Ordinal(bands[0]) <= Ordinal(Silver))
    ensures Changes(bands) <= 2
    ensures forall i, j | 0 <= i <= j < |bands| :: Ordinal(bands[j]) <= Ordinal(bands[i])
    ensures forall i | 0 <= i < |bands| :: Ordinal(bands[i]) <= Ordinal(Silver)
  {
    BandChangesAtMostFourTimes(scores, bands);
    if bands != [] {
      ChangesCostBands(scores, bands);
    }
  }

  /** Hence no row of the table is above Silver. */
  lemma NobodyAboveSilver(rows: seq<Snapshot>, row: Snapshot)
    requires WrittenByEngine(rows) && row in rows
    ensures Ordinal(row.band) <= Ordinal(Silver)
  {
    HistoryOfOneStartup(rows, row.entityId);
    OwnBand(rows, row);
  }

  lemma {:induction false} OwnBand(rows: seq<Snapshot>, row: Snapshot)
    requires row in rows
    ensures row.band in BandsOf(rows, row.entityId)
  {
    var n := |rows| - 1;
    if row != rows[n] {
      OwnBand(rows[..n], row);
    }
  }

  // ---- next-best actions ----

  /** `c.max * c.applicability - c.earned`, in tenths, as the code has it. */
  function GapTenths(max: nat, earned: nat, app: nat): int {
    max * app - 10 * earned
  }

  /** The points still available on a component at this stage, in tenths. */
  function AvailableTenths(max: nat, earned: nat, app: nat): int
    requires earned <= max
  {
    (max - earned) * app
  }

  /** The component is offered as an action. */
  predicate Suggested(max: nat, earned: nat, app: nat) {
    RoundDiv(GapTenths(max, earned, app), 10) > 0
  }

  /**
   * The gap never overstates what is available, and is exact only where the
   * component applies in full or nothing is earned yet.
   */
  lemma GapIsExactIff(max: nat, earned: nat, app: nat)
    requires earned <= max && app <= 10
    ensures GapTenths(max, earned, app) <= AvailableTenths(max, earned, app)
    ensures GapTenths(max, earned, app) == AvailableTenths(max, earned, app) <==> app == 10 || earned == 0
  {
    assert AvailableTenths(max, earned, app) - GapTenths(max, earned, app) == earned * (10 - app) by {
      assert (max - earned) * app == max * app - earned * app;
      assert earned * (10 - app) == 10 * earned - earned * app;
    }
    if earned > 0 && app < 10 {
      AwayFromZero(earned, 10 - app);
    }
  }

  /** A component is suggested exactly when its gap reaches half a point. */
  lemma SuggestedIff(max: nat, earned: nat, app: nat)
    ensures Suggested(max, earned, app) <==> max * app >= 10 * earned + 5
  {
  }

  /** At S0 a product with only a demo is not suggested, though the other half is still worth a point. */
  lemma DemoHidesTheLiveUrl()
    ensures AvailableTenths(COMPONENT_MAX[2], 5, Applicability(S0)[2]) == 10
    ensures !Suggested(COMPONENT_MAX[2], 5, Applicability(S0)[2])
  {
  }
}
