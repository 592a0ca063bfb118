/**
 * Trust Score v2: stage-weighted arithmetic, penalties and bands
 * (apps/api/src/modules/trust/trust-model.ts). Applicabilities are whole tenths,
 * so every quantity is an exact rational; `Math.round` rounds halves up.
 */
module TrustModel {
  import opened Options

  datatype Stage = S0 | S1 | S2 | S3 | S4Plus

  datatype Signals = Signals(
    emailVerified: bool, phoneVerified: bool,
    founderKyc: bool, linkedinMatched: bool, workDomainEmail: bool,
    demoPresent: bool, liveUrlVerified: bool,
    mcaVerified: bool, dpiitVerified: bool, gstinVerified: bool,
    revenueAttested: bool, seriesContinuity6mo: bool, customerEvidence: bool,
    roundsDocumented: bool, investorTwoSideConfirmed: bool,
    deckUploaded: bool, risksDisclosed: bool, capTableProvided: bool,
    profileFresh30d: bool, metricsFresh45d: bool, noExpiredVerifications: bool)

  datatype Penalties = Penalties(
    failedVerifications: int, unresolvedDisputeOver14d: bool, declaredNeqVerifiedStage: bool,
    undisclosedDownwardRevision: bool, dormantOver180d: bool, fraudFlag: bool)

  const MAX_PENALTY: nat := 20

  const COMPONENT_MAX: seq<nat> := [10, 20, 10, 20, 20, 12, 5, 3]

  /** APPLICABILITY, in tenths. */
  function Applicability(stage: Stage): (app: seq<nat>)
    ensures |app| == |COMPONENT_MAX|
  {
    match stage
    case S0 => [10, 10, 2, 3, 2, 2, 10, 10]
    case S1 => [10, 10, 10, 6, 5, 4, 10, 10]
    case S2 => [10, 10, 10, 10, 10, 8, 10, 10]
    case S3 => [10, 10, 10, 10, 10, 10, 10, 10]
    case S4Plus => [10, 10, 10, 10, 10, 10, 10, 10]
  }

  function If(b: bool, n: nat): nat {
    if b then n else 0
  }

  function Registration(s: Signals): nat { If(s.emailVerified, 5) + If(s.phoneVerified, 5) }

  function Founder(s: Signals): nat { If(s.founderKyc, 11) + If(s.linkedinMatched, 5) + If(s.workDomainEmail, 4) }

  function Product(s: Signals): nat { If(s.demoPresent, 5) + If(s.liveUrlVerified, 5) }

  function Legal(s: Signals): nat { If(s.mcaVerified, 10) + If(s.dpiitVerified, 6) + If(s.gstinVerified, 4) }

  function Revenue(s: Signals): nat {
    If(s.revenueAttested, 10) + If(s.seriesContinuity6mo, 6) + If(s.customerEvidence, 4)
  }

  function Funding(s: Signals): nat { If(s.roundsDocumented, 5) + If(s.investorTwoSideConfirmed, 7) }

  function Transparency(s: Signals): nat { If(s.deckUploaded, 2) + If(s.risksDisclosed, 2) + If(s.capTableProvided, 1) }

  function Freshness(s: Signals): nat {
    If(s.profileFresh30d, 1) + If(s.metricsFresh45d, 1) + If(s.noExpiredVerifications, 1)
  }

  function EarnedPerComponent(s: Signals): (earned: seq<nat>)
    ensures |earned| == |COMPONENT_MAX|
  {
    [Registration(s), Founder(s), Product(s), Legal(s), Revenue(s), Funding(s), Transparency(s), Freshness(s)]
  }

  function RawPenalty(p: Penalties): nat {
    3 * (if p.failedVerifications > 0 then p.failedVerifications else 0)
    + If(p.unresolvedDisputeOver14d, 6) + If(p.declaredNeqVerifiedStage, 4)
    + If(p.undisclosedDownwardRevision, 3) + If(p.dormantOver180d, 5) + If(p.fraudFlag, 15)
  }

  function UpToTheCap(n: nat): nat {
    if n < MAX_PENALTY then n else MAX_PENALTY
  }

  function PenaltyTotal(p: Penalties): (total: nat)
    ensures total <= 20
  {
    UpToTheCap(RawPenalty(p))
  }

  /** Sum of xs[i] * app[i]: the reduce over components, in tenths of a point. */
  function Weighted(xs: seq<nat>, app: seq<nat>): nat
    requires |xs| == |app|
  {
    if xs == [] then 0 else Weighted(xs[..|xs| - 1], app[..|app| - 1]) + xs[|xs| - 1] * app[|app| - 1]
  }

  /** `Math.round(n / d)` */
  function RoundDiv(n: int, d: int): int
    requires d > 0
  {
    (2 * n + d) / (2 * d)
  }

  /** `normalized`, rounded: before the clamp to 0..100. */
  function Rounded(earned: seq<nat>, max: seq<nat>, app: seq<nat>, penalty: nat): int
    requires |earned| == |max| == |app|
  {
    var denominator := Weighted(max, app);
    if denominator == 0 then 0 else RoundDiv((Weighted(earned, app) - 10 * penalty) * 100, denominator)
  }

  function Clamp(n: int): int {
    if n > 100 then 100 else if n < 0 then 0 else n
  }

  function Score(earned: seq<nat>, max: seq<nat>, app: seq<nat>, penalty: nat): int
    requires |earned| == |max| == |app|
  {
    Clamp(Rounded(earned, max, app, penalty))
  }

  function ComputeScore(s: Signals, stage: Stage, p: Penalties): int {
    Score(EarnedPerComponent(s), COMPONENT_MAX, Applicability(stage), PenaltyTotal(p))
  }

  // ---- arithmetic, for any weights and applicabilities ----

  ghost predicate AtMost(xs: seq<nat>, ys: seq<nat>) {
    |xs| == |ys| && forall i | 0 <= i < |xs| :: xs[i] <= ys[i]
  }

  lemma {:induction false} WeightedMonotone(xs: seq<nat>, ys: seq<nat>, app: seq<nat>)
    requires AtMost(xs, ys) && |xs| == |app|
    ensures Weighted(xs, app) <= Weighted(ys, app)
  {
    if xs != [] {
      var n := |xs| - 1;
      WeightedMonotone(xs[..n], ys[..n], app[..n]);
      MulMonotone(xs[n], ys[n], app[n]);
    }
  }

  lemma MulMonotone(x: nat, y: nat, a: nat)
    requires x <= y
    ensures x * a <= y * a
  {
  }

  lemma RoundDivMonotone(m: int, n: int, d: int)
    requires d > 0 && m <= n
    ensures RoundDiv(m, d) <= RoundDiv(n, d)
  {
    DivMonotone(2 * m + d, 2 * n + d, 2 * d);
  }

  lemma AwayFromZero(x: int, d: int)
    requires d > 0
    ensures x >= 1 ==> x * d >= d
    ensures x <= -1 ==> x * d <= -d
  {
  }

  lemma DivMonotone(m: int, n: int, d: int)
    requires d > 0 && m <= n
    ensures m / d <= n / d
  {
    var q, r := m / d, n / d;
    assert m == d * q + m % d && n == d * r + n % d;
    assert (q - r) * d == d * q - d * r;
    AwayFromZero(q - r, d);
  }

  /** More evidence never lowers the score and heavier penalties never raise it. */
  lemma ScoreMonotone(earned: seq<nat>, earned': seq<nat>, max: seq<nat>, app: seq<nat>, penalty: nat, penalty': nat)
    requires AtMost(earned, earned') && |earned| == |max| == |app| && penalty >= penalty'
    ensures Score(earned, max, app, penalty) <= Score(earned', max, app, penalty')
  {
    WeightedMonotone(earned, earned', app);
    var d := Weighted(max, app);
    if d > 0 {
      RoundDivMonotone((Weighted(earned, app) - 10 * penalty) * 100, (Weighted(earned', app) - 10 * penalty') * 100, d);
    }
  }

  lemma RoundDivExact(k: int, d: int)
    requires d > 0
    ensures RoundDiv(k * d, d) == k
  {
    assert 2 * (k * d) + d == k * (2 * d) + d;
    DivOfMultiple(k, d, 2 * d);
  }

  lemma DivOfMultiple(k: int, r: nat, d: int)
    requires r < d
    ensures (k * d + r) / d == k
  {
    var q := (k * d + r) / d;
    assert k * d + r == d * q + (k * d + r) % d;
    assert (q - k) * d == d * q - k * d;
    AwayFromZero(q - k, d);
  }

  /** r is n / d rounded to the nearest whole number, halves up. */
  predicate IsNearest(r: int, n: int, d: int) {
    (2 * r - 1) * d <= 2 * n < (2 * r + 1) * d
  }

  lemma RoundDivIsNearest(n: int, d: int)
    requires d > 0
    ensures IsNearest(RoundDiv(n, d), n, d)
  {
    var r := RoundDiv(n, d);
    assert 2 * n + d == (2 * d) * r + (2 * n + d) % (2 * d);
    assert (2 * d) * r == 2 * r * d;
    assert (2 * r - 1) * d == 2 * r * d - d && (2 * r + 1) * d == 2 * r * d + d;
  }

  /**
   * While nothing earns more than its maximum the upper clamp never binds, and
   * earning every maximum with no penalty is exactly 100 however few components apply.
   */
  lemma UpperClampNeverBinds(earned: seq<nat>, max: seq<nat>, app: seq<nat>, penalty: nat)
    requires AtMost(earned, max) && |max| == |app|
    ensures Rounded(earned, max, app, penalty) <= 100
    ensures Weighted(max, app) > 0 ==> Score(max, max, app, 0) == 100
    ensures Weighted(max, app) == 0 ==> Score(earned, max, app, penalty) == 0
  {
    WeightedMonotone(earned, max, app);
    var d := Weighted(max, app);
    if d > 0 {
      RoundDivExact(100, d);
      RoundDivMonotone((Weighted(earned, app) - 10 * penalty) * 100, 100 * d, d);
    }
  }

  // ---- the model itself ----

  /** s' has every signal s has. */
  predicate Gains(s: Signals, s': Signals) {
    && (s.emailVerified ==> s'.emailVerified) && (s.phoneVerified ==> s'.phoneVerified)
    && (s.founderKyc ==> s'.founderKyc) && (s.linkedinMatched ==> s'.linkedinMatched)
    && (s.workDomainEmail ==> s'.workDomainEmail) && (s.demoPresent ==> s'.demoPresent)
    && (s.liveUrlVerified ==> s'.liveUrlVerified) && (s.mcaVerified ==> s'.mcaVerified)
    && (s.dpiitVerified ==> s'.dpiitVerified) && (s.gstinVerified ==> s'.gstinVerified)
    && (s.revenueAttested ==> s'.revenueAttested) && (s.seriesContinuity6mo ==> s'.seriesContinuity6mo)
    && (s.customerEvidence ==> s'.customerEvidence) && (s.roundsDocumented ==> s'.roundsDocumented)
    && (s.investorTwoSideConfirmed ==> s'.investorTwoSideConfirmed) && (s.deckUploaded ==> s'.deckUploaded)
    && (s.risksDisclosed ==> s'.risksDisclosed) && (s.capTableProvided ==> s'.capTableProvided)
    && (s.profileFresh30d ==> s'.profileFresh30d) && (s.metricsFresh45d ==> s'.metricsFresh45d)
    && (s.noExpiredVerifications ==> s'.noExpiredVerifications)
  }

  predicate Heavier(p: Penalties, p': Penalties) {
    && p.failedVerifications >= p'.failedVerifications
    && (p'.unresolvedDisputeOver14d ==> p.unresolvedDisputeOver14d)
    && (p'.declaredNeqVerifiedStage ==> p.declaredNeqVerifiedStage)
    && (p'.undisclosedDownwardRevision ==> p.undisclosedDownwardRevision)
    && (p'.dormantOver180d ==> p.dormantOver180d) && (p'.fraudFlag ==> p.fraudFlag)
  }

  function AllSignals(): Signals {
    Signals(true, true, true, true, true, true, true, true, true, true, true,
            true, true, true, true, true, true, true, true, true, true)
  }

  const NO_PENALTIES: Penalties := Penalties(0, false, false, false, false, false)

  lemma FirstFourMonotone(s: Signals, s': Signals)
    requires Gains(s, s')
    ensures Registration(s) <= Registration(s') && Founder(s) <= Founder(s')
    ensures Product(s) <= Product(s') && Legal(s) <= Legal(s')
  {
  }

  lemma LastFourMonotone(s: Signals, s': Signals)
    requires Gains(s, s')
    ensures Revenue(s) <= Revenue(s') && Funding(s) <= Funding(s')
    ensures Transparency(s) <= Transparency(s') && Freshness(s) <= Freshness(s')
  {
  }

  lemma EarnedMonotone(s: Signals, s': Signals)
    requires Gains(s, s')
    ensures AtMost(EarnedPerComponent(s), EarnedPerComponent(s'))
  {
    FirstFourMonotone(s, s');
    LastFourMonotone(s, s');
  }

  datatype Incident = OldDispute | StageMismatch | DownwardRevision | Dormancy | Fraud

  predicate Charged(p: Penalties, i: Incident) {
    match i
    case OldDispute => p.unresolvedDisputeOver14d
    case StageMismatch => p.declaredNeqVerifiedStage
    case DownwardRevision => p.undisclosedDownwardRevision
    case Dormancy => p.dormantOver180d
    case Fraud => p.fraudFlag
  }

  function Charge(p: Penalties, i: Incident): Penalties {
    match i
    case OldDispute => p.(unresolvedDisputeOver14d := true)
    case StageMismatch => p.(declaredNeqVerifiedStage := true)
    case DownwardRevision => p.(undisclosedDownwardRevision := true)
    case Dormancy => p.(dormantOver180d := true)
    case Fraud => p.(fraudFlag := true)
  }

  function Cost(i: Incident): nat {
    match i
    case OldDispute => 6
    case StageMismatch => 4
    case DownwardRevision => 3
    case Dormancy => 5
    case Fraud => 15
  }

  lemma FailuresAddUp(p: Penalties)
    ensures p.failedVerifications >= 0 ==>
              PenaltyTotal(p.(failedVerifications := p.failedVerifications + 1)) == UpToTheCap(PenaltyTotal(p) + 3)
    ensures p.failedVerifications < 0 ==> PenaltyTotal(p) == PenaltyTotal(p.(failedVerifications := 0))
  {
  }

  lemma IncidentAddsUp(p: Penalties, i: Incident)
    requires !Charged(p, i)
    ensures RawPenalty(Charge(p, i)) == RawPenalty(p) + Cost(i)
  {
    match i
    case OldDispute =>
    case StageMismatch =>
    case DownwardRevision =>
    case Dormancy =>
    case Fraud =>
  }

  /**
   * Starting from nothing, every failed verification costs 3 and each incident its
   * own points, whatever else is charged, until the cap of 20; a negative count of
   * failures is none.
   */
  lemma EachPenaltyAddsItsCost(p: Penalties)
    ensures PenaltyTotal(NO_PENALTIES) == 0
    ensures p.failedVerifications >= 0 ==>
              PenaltyTotal(p.(failedVerifications := p.failedVerifications + 1)) == UpToTheCap(PenaltyTotal(p) + 3)
    ensures p.failedVerifications < 0 ==> PenaltyTotal(p) == PenaltyTotal(p.(failedVerifications := 0))
    ensures forall i | !Charged(p, i) :: PenaltyTotal(Charge(p, i)) == UpToTheCap(PenaltyTotal(p) + Cost(i))
  {
    FailuresAddUp(p);
    forall i | !Charged(p, i) ensures PenaltyTotal(Charge(p, i)) == UpToTheCap(PenaltyTotal(p) + Cost(i)) {
      IncidentAddsUp(p, i);
    }
  }

  lemma PenaltyMonotone(p: Penalties, p': Penalties)
    requires Heavier(p, p')
    ensures PenaltyTotal(p) >= PenaltyTotal(p')
  {
  }

  /** At every stage, evidence only raises the score, penalties only lower it. */
  lemma EvidenceRaisesPenaltiesLower(s: Signals, s': Signals, p: Penalties, p': Penalties, stage: Stage)
    requires Gains(s, s') && Heavier(p, p')
    ensures ComputeScore(s, stage, p) <= ComputeScore(s', stage, p')
  {
    EarnedMonotone(s, s');
    PenaltyMonotone(p, p');
    ScoreMonotone(EarnedPerComponent(s), EarnedPerComponent(s'), COMPONENT_MAX, Applicability(stage),
                  PenaltyTotal(p), PenaltyTotal(p'));
  }

  lemma AllSignalsEarnEverything()
    ensures EarnedPerComponent(AllSignals()) == COMPONENT_MAX
  {
  }

  lemma Weighted8(xs: seq<nat>, app: seq<nat>)
    requires |xs| == |app| == 8
    ensures Weighted(xs, app) == xs[0] * app[0] + xs[1] * app[1] + xs[2] * app[2] + xs[3] * app[3]
                                 + xs[4] * app[4] + xs[5] * app[5] + xs[6] * app[6] + xs[7] * app[7]
  {
    WeightedFront(xs, app, 8);
  }

  lemma WeightedFront(xs: seq<nat>, app: seq<nat>, n: nat)
    requires n <= |xs| == |app| && n <= 8
    ensures Weighted(xs[..n], app[..n])
            == (if n > 0 then xs[0] * app[0] else 0) + (if n > 1 then xs[1] * app[1] else 0)
               + (if n > 2 then xs[2] * app[2] else 0) + (if n > 3 then xs[3] * app[3] else 0)
               + (if n > 4 then xs[4] * app[4] else 0) + (if n > 5 then xs[5] * app[5] else 0)
               + (if n > 6 then xs[6] * app[6] else 0) + (if n > 7 then xs[7] * app[7] else 0)
    ensures n == |xs| ==> xs[..n] == xs && app[..n] == app
  {
    if n > 0 {
      WeightedFront(xs, app, n - 1);
      assert xs[..n][..n - 1] == xs[..n - 1] && app[..n][..n - 1] == app[..n - 1];
    }
  }

  /** Each stage's denominator, in tenths. */
  lemma Denominators(stage: Stage)
    ensures Weighted(COMPONENT_MAX, Applicability(stage)) == FullEvidence(stage)
  {
    Weighted8(COMPONENT_MAX, Applicability(stage));
  }

  /** A startup that proves everything scores exactly 100 at every stage. */
  lemma EveryStageReaches100(stage: Stage)
    ensures ComputeScore(AllSignals(), stage, NO_PENALTIES) == 100
  {
    AllSignalsEarnEverything();
    Denominators(stage);
    UpperClampNeverBinds(COMPONENT_MAX, COMPONENT_MAX, Applicability(stage), 0);
  }

  /** Evidence that counts in full at every stage, in tenths of a point. */
  function SteadyEvidence(s: Signals): nat {
    If(s.emailVerified, 50) + If(s.phoneVerified, 50)
    + If(s.founderKyc, 110) + If(s.linkedinMatched, 50) + If(s.workDomainEmail, 40)
    + If(s.deckUploaded, 20) + If(s.risksDisclosed, 20) + If(s.capTableProvided, 10)
    + If(s.profileFresh30d, 10) + If(s.metricsFresh45d, 10) + If(s.noExpiredVerifications, 10)
  }

  function ProductEvidence(s: Signals): nat {
    If(s.demoPresent, 5) + If(s.liveUrlVerified, 5)
  }

  function LegalEvidence(s: Signals): nat {
    If(s.mcaVerified, 10) + If(s.dpiitVerified, 6) + If(s.gstinVerified, 4)
  }

  function RevenueEvidence(s: Signals): nat {
    If(s.revenueAttested, 10) + If(s.seriesContinuity6mo, 6) + If(s.customerEvidence, 4)
  }

  function FundingEvidence(s: Signals): nat {
    If(s.roundsDocumented, 5) + If(s.investorTwoSideConfirmed, 7)
  }

  /** What the evidence is worth at a stage, in tenths of a point. */
  function Evidence(s: Signals, stage: Stage): nat {
    SteadyEvidence(s)
    + match stage
      case S0 => 2 * ProductEvidence(s) + 3 * LegalEvidence(s) + 2 * RevenueEvidence(s) + 2 * FundingEvidence(s)
      case S1 => 10 * ProductEvidence(s) + 6 * LegalEvidence(s) + 5 * RevenueEvidence(s) + 4 * FundingEvidence(s)
      case S2 => 10 * ProductEvidence(s) + 10 * LegalEvidence(s) + 10 * RevenueEvidence(s) + 8 * FundingEvidence(s)
      case _ => 10 * ProductEvidence(s) + 10 * LegalEvidence(s) + 10 * RevenueEvidence(s) + 10 * FundingEvidence(s)
  }

  lemma SteadyIsFourComponents(s: Signals)
    ensures SteadyEvidence(s) == 10 * Registration(s) + 10 * Founder(s) + 10 * Transparency(s) + 10 * Freshness(s)
  {
  }

  /** What all of it together is worth. */
  function FullEvidence(stage: Stage): nat {
    match stage case S0 => 524 case S1 => 748 case S2 => 976 case S3 => 1000 case S4Plus => 1000
  }

  lemma EvidenceIsWeighted(s: Signals, stage: Stage)
    ensures Weighted(EarnedPerComponent(s), Applicability(stage)) == Evidence(s, stage)
  {
    Weighted8(EarnedPerComponent(s), Applicability(stage));
    SteadyIsFourComponents(s);
    assert EarnedPerComponent(s) == [Registration(s), Founder(s), Product(s), Legal(s), Revenue(s), Funding(s),
                                     Transparency(s), Freshness(s)];
  }

  /**
   * At every stage the score is the percentage of the stage's evidence that is
   * there, less the penalty, to the nearest whole number, and never below 0.
   */
  lemma ScoreIsNearest(s: Signals, stage: Stage, p: Penalties)
    ensures var score, net := ComputeScore(s, stage, p), Evidence(s, stage) - 10 * PenaltyTotal(p);
            if 200 * net < FullEvidence(stage) then score == 0
            else IsNearest(score, 100 * net, FullEvidence(stage))
  {
    var earned, net, d := EarnedPerComponent(s), Evidence(s, stage) - 10 * PenaltyTotal(p), FullEvidence(stage);
    EvidenceIsWeighted(s, stage);
    Denominators(stage);
    RoundDivIsNearest(net * 100, d);
    EarnedMonotone(s, AllSignals());
    AllSignalsEarnEverything();
    UpperClampNeverBinds(earned, COMPONENT_MAX, Applicability(stage), PenaltyTotal(p));
    NearestSign(Rounded(earned, COMPONENT_MAX, Applicability(stage), PenaltyTotal(p)), net * 100, d);
  }

  lemma NearestSign(r: int, n: int, d: int)
    requires d > 0 && IsNearest(r, n, d)
    ensures 2 * n < d <==> r <= 0
  {
    if r <= 0 {
      assert (2 * r + 1) * d <= d by { AwayFromZero(2 * r, d); }
    } else {
      AwayFromZero(2 * r - 1, d);
    }
  }

  function Total(xs: seq<nat>): nat {
    if xs == [] then 0 else Total(xs[..|xs| - 1]) + xs[|xs| - 1]
  }

  lemma {:induction false} FullyApplicable(xs: seq<nat>, app: seq<nat>)
    requires |xs| == |app| && forall i | 0 <= i < |app| :: app[i] == 10
    ensures Weighted(xs, app) == 10 * Total(xs)
  {
    if xs != [] {
      FullyApplicable(xs[..|xs| - 1], app[..|app| - 1]);
    }
  }

  /** The ladder: from S3 on, the score is the points earned less the penalty, floored at 0. */
  lemma LadderIsExact(s: Signals, stage: Stage, p: Penalties)
    requires stage == S3 || stage == S4Plus
    ensures var points := Total(EarnedPerComponent(s)) - PenaltyTotal(p);
            ComputeScore(s, stage, p) == if points < 0 then 0 else points
  {
    var earned := EarnedPerComponent(s);
    var points := Total(earned) - PenaltyTotal(p);
    FullyApplicable(earned, Applicability(stage));
    Denominators(stage);
    RoundDivExact(points, 1000);
    EarnedMonotone(s, AllSignals());
    AllSignalsEarnEverything();
    UpperClampNeverBinds(earned, COMPONENT_MAX, Applicability(stage), PenaltyTotal(p));
  }

  // ---- bands ----

  datatype Band = Starting | Bronze | Silver | Gold | Platinum

  function Ordinal(b: Band): nat {
    match b case Starting => 0 case Bronze => 1 case Silver => 2 case Gold => 3 case Platinum => 4
  }

  /** The score at which a band is entered. */
  function Floor(b: Band): int {
    match b case Starting => 0 case Bronze => 25 case Silver => 45 case Gold => 65 case Platinum => 85
  }

  function Enter(score: int): Band {
    if score >= 85 then Platinum
    else if score >= 65 then Gold
    else if score >= 45 then Silver
    else if score >= 25 then Bronze
    else Starting
  }

  /** The band entered is the highest one whose floor the score reaches. */
  lemma EnterIsHighestReached(score: int, b: Band)
    requires score >= 0
    ensures Floor(b) == [0, 25, 45, 65, 85][Ordinal(b)]
    ensures Floor(Enter(score)) <= score
    ensures Floor(b) <= score <==> Ordinal(b) <= Ordinal(Enter(score))
  {
  }

  const HYSTERESIS: int := 4

  function DeriveBand(score: int, previous: Option<Band>): Band {
    if previous == None then Enter(score)
    else if score >= Floor(previous.value) - HYSTERESIS then previous.value
    else Enter(score)
  }

  /** What the source's comment promises: rise at once, drop only below floor - 4. */
  function PromisedBand(score: int, previous: Option<Band>): Band {
    if previous == None || Ordinal(Enter(score)) > Ordinal(previous.value) then Enter(score)
    else DeriveBand(score, previous)
  }

  /** The code keeps the promise exactly when the score has not reached a higher band. */
  lemma PromiseKeptIff(score: int, previous: Band)
    ensures DeriveBand(score, Some(previous)) == PromisedBand(score, Some(previous))
            <==> previous == Platinum || score < Floor(previous) + (if previous == Starting then 25 else 20)
  {
  }

  /**
   * A higher previous band can end up lower: for p < q the result is lower from
   * q than from p exactly on p's hysteresis strip.
   */
  lemma HigherStartEndsLowerIff(score: int, p: Band, q: Band)
    requires score >= 0 && Ordinal(p) < Ordinal(q)
    ensures Ordinal(DeriveBand(score, Some(q))) < Ordinal(DeriveBand(score, Some(p)))
            <==> Floor(p) - 4 <= score < Floor(p)
  {
  }

  /** Snapshots of one startup: each band is derived from the one before. */
  ghost predicate IsChain(scores: seq<int>, bands: seq<Band>) {
    && |scores| == |bands|
    && forall i | 0 <= i < |bands| :: bands[i] == DeriveBand(scores[i], Previous(bands, i))
  }

  function Previous(bands: seq<Band>, i: nat): Option<Band>
    requires i <= |bands|
  {
    if i == 0 then None else Some(bands[i - 1])
  }

  /** How often the band changes among the first n snapshots. */
  function ChangesAmong(bands: seq<Band>, n: nat): nat
    requires n <= |bands|
  {
    if n < 2 then 0 else ChangesAmong(bands, n - 1) + if bands[n - 1] != bands[n - 2] then 1 else 0
  }

  function Changes(bands: seq<Band>): nat {
    ChangesAmong(bands, |bands|)
  }

  /** The band moves exactly when the score is over 4 below its floor; then it falls to the one the score enters. */
  lemma BandMovesOnlyDown(scores: seq<int>, bands: seq<Band>, i: nat)
    requires IsChain(scores, bands) && 0 < i < |bands| && scores[i] >= 0
    ensures bands[i] != bands[i - 1] <==> scores[i] < Floor(bands[i - 1]) - 4
    ensures bands[i] != bands[i - 1] ==> bands[i] == Enter(scores[i]) && Ordinal(bands[i]) < Ordinal(bands[i - 1])
  {
    assert Previous(bands, i) == Some(bands[i - 1]);
  }

  lemma {:induction false} ChangesUpTo(scores: seq<int>, bands: seq<Band>, n: nat)
    requires IsChain(scores, bands) && AllNonNegative(scores) && n < |bands|
    ensures ChangesAmong(bands, n + 1) + Ordinal(bands[n]) <= Ordinal(bands[0])
  {
    if n > 0 {
      ChangesUpTo(scores, bands, n - 1);
      BandMovesOnlyDown(scores, bands, n);
    }
  }

  /** Each change uses up at least one band. */
  lemma ChangesCostBands(scores: seq<int>, bands: seq<Band>)
    requires IsChain(scores, bands) && AllNonNegative(scores) && bands != []
    ensures Changes(bands) + Ordinal(bands[|bands| - 1]) <= Ordinal(bands[0])
  {
    ChangesUpTo(scores, bands, |bands| - 1);
  }

  predicate AllNonNegative(scores: seq<int>) {
    forall i | 0 <= i < |scores| :: scores[i] >= 0
  }

  /** Over any chain of snapshots the band never rises and changes at most four times. */
  lemma BandChangesAtMostFourTimes(scores: seq<int>, bands: seq<Band>)
    requires IsChain(scores, bands) && AllNonNegative(scores)
    ensures Changes(bands) <= 4
    ensures forall i, j | 0 <= i <= j < |bands| :: Ordinal(bands[j]) <= Ordinal(bands[i])
  {
    if bands != [] {
      ChangesCostBands(scores, bands);
    }
    forall i, j | 0 <= i <= j < |bands| ensures Ordinal(bands[j]) <= Ordinal(bands[i]) {
      NeverRises(scores, bands, i, j);
    }
  }

  /** Four is reached: five snapshots can fall through every band. */
  lemma FourChangesHappen() returns (scores: seq<int>, bands: seq<Band>)
    ensures IsChain(scores, bands) && AllNonNegative(scores) && Changes(bands) == 4
  {
    scores := [90, 80, 60, 40, 20];
    bands := [Platinum, Gold, Silver, Bronze, Starting];
    assert ChangesAmong(bands, 2) == 1;
    assert ChangesAmong(bands, 3) == 2;
    assert ChangesAmong(bands, 4) == 3;
  }

  lemma {:induction false} NeverRises(scores: seq<int>, bands: seq<Band>, i: nat, j: nat)
    requires IsChain(scores, bands) && i <= j < |bands| && AllNonNegative(scores)
    ensures Ordinal(bands[j]) <= Ordinal(bands[i])
  {
    if i < j {
      NeverRises(scores, bands, i, j - 1);
      BandMovesOnlyDown(scores, bands, j);
    }
  }
}
