/**
 * Two-sided relationship claims and the ledger rows they earn
 * (apps/api/src/modules/relationships/relationship-claims.service.ts), as a
 * sequence of calls.
 */
module RelationshipClaims {
  import opened Options

  const VERIFICATION_TTL_MS: int := 730 * 24 * 60 * 60 * 1000

  datatype Kind = Startup | Investor | IncubatorProfile | UniversityProfile

  datatype Role = FounderRole | InvestorRole | IncubatorRole | UniversityRole | OtherRole

  function ClaimantKind(role: Role): Option<Kind> {
    match role
    case FounderRole => Some(Startup)
    case InvestorRole => Some(Investor)
    case IncubatorRole => Some(IncubatorProfile)
    case UniversityRole => Some(UniversityProfile)
    case OtherRole => None
  }

  datatype Entity = Entity(kind: Kind, id: nat)

  datatype Status = Pending | Confirmed | Denied

  datatype Claim = Claim(
    claimant: Entity, target: Entity, relationship: nat, status: Status,
    respondedBy: Option<nat>, respondedAt: Option<int>)

  /** A TWO_SIDED_CONFIRMATION row: `relationship` with `other`, on `entity`'s record. */
  datatype LedgerRow = LedgerRow(entity: Entity, relationship: nat, other: Entity, verifiedAt: int, expiresAt: int)

  datatype CreateOutcome = Created(claim: nat) | RoleCannotClaim | NoProfile | TargetNotFound | SelfClaim

  datatype RespondOutcome = Responded | ClaimNotFound | AlreadyResponded | NotTheTarget

  function MirroredPair(c: Claim, now: int): seq<LedgerRow> {
    [LedgerRow(c.claimant, c.relationship, c.target, now, now + VERIFICATION_TTL_MS),
     LedgerRow(c.target, c.relationship, c.claimant, now, now + VERIFICATION_TTL_MS)]
  }

  /** `order` lists the confirmed claims in the order they were confirmed, with one mirrored pair of rows each. */
  ghost predicate LedgerInv(claims: seq<Claim>, ledger: seq<LedgerRow>, order: seq<nat>) {
    && (forall i | 0 <= i < |claims| :: claims[i].claimant != claims[i].target)
    && (forall i | 0 <= i < |claims| :: claims[i].status == Confirmed <==> i in order)
    && (forall i | 0 <= i < |claims| :: claims[i].status == Pending <==> claims[i].respondedAt == None)
    && (forall k | 0 <= k < |order| :: order[k] < |claims|)
    && (forall k, l | 0 <= k < l < |order| :: order[k] != order[l])
    && |ledger| == 2 * |order|
    && (forall k | 0 <= k < |order| :: PairAt(claims, ledger, order, k))
  }

  ghost predicate PairAt(claims: seq<Claim>, ledger: seq<LedgerRow>, order: seq<nat>, k: nat)
    requires k < |order| && |ledger| == 2 * |order|
  {
    && order[k] < |claims| && claims[order[k]].respondedAt.Some?
    && [ledger[2 * k], ledger[2 * k + 1]] == MirroredPair(claims[order[k]], claims[order[k]].respondedAt.value)
  }

  class ClaimsService {
    const owners: map<Entity, nat>
    const profiles: map<(nat, Kind), nat>
    var claims: seq<Claim>
    var ledger: seq<LedgerRow>
    ghost var order: seq<nat>

    ghost predicate Valid()
      reads this
    {
      LedgerInv(claims, ledger, order)
    }

    constructor (owners: map<Entity, nat>, profiles: map<(nat, Kind), nat>)
      ensures Valid() && this.owners == owners && this.profiles == profiles && claims == [] && ledger == []
    {
      this.owners := owners;
      this.profiles := profiles;
      claims, ledger, order := [], [], [];
    }

    /** A pending claim by the caller's own profile, of the kind the role goes with. */
    method Create(caller: nat, role: Role, target: Entity, relationship: nat) returns (outcome: CreateOutcome)
      requires Valid()
      modifies this
      ensures Valid() && ledger == old(ledger) && order == old(order)
      ensures var kind := ClaimantKind(role);
              if kind == None then outcome == RoleCannotClaim
              else if (caller, kind.value) !in profiles then outcome == NoProfile
              else if target !in owners then outcome == TargetNotFound
              else if Entity(kind.value, profiles[(caller, kind.value)]) == target then outcome == SelfClaim
              else outcome == Created(|old(claims)|)
                   && var claimant := Entity(kind.value, profiles[(caller, kind.value)]);
                      claims == old(claims) + [Claim(claimant, target, relationship, Pending, None, None)]
      ensures outcome.Created? ==>
                claims[outcome.claim].claimant.kind
                == match role
                   case FounderRole => Startup
                   case InvestorRole => Investor
                   case IncubatorRole => IncubatorProfile
                   case _ => UniversityProfile
      ensures outcome == RoleCannotClaim <==> role == OtherRole
      ensures !outcome.Created? ==> claims == old(claims)
    {
      var kind := ClaimantKind(role);
      if kind == None { return RoleCannotClaim; }
      if (caller, kind.value) !in profiles { return NoProfile; }
      var claimant := Entity(kind.value, profiles[(caller, kind.value)]);
      if target !in owners { return TargetNotFound; }
      if claimant == target { return SelfClaim; }
      ghost var was := claims;
      var claim := Claim(claimant, target, relationship, Pending, None, None);
      claims := claims + [claim];
      NewClaimKeeps(was, ledger, order, claim);
      return Created(|claims| - 1);
    }

    /** The target's owner answers a pending claim once; a confirmation writes a row on both sides. */
    method Respond(claimId: nat, caller: nat, confirm: bool, now: int) returns (outcome: RespondOutcome)
      requires Valid()
      modifies this
      ensures Valid()
      ensures outcome == if claimId >= |old(claims)| then ClaimNotFound
                         else if old(claims)[claimId].status != Pending then AlreadyResponded
                         else if old(claims)[claimId].target !in owners
                                 || owners[old(claims)[claimId].target] != caller then NotTheTarget
                         else Responded
      ensures outcome != Responded ==> claims == old(claims) && ledger == old(ledger)
      ensures outcome == Responded ==>
                && claims == old(claims)[claimId := old(claims)[claimId].(
                     status := if confirm then Confirmed else Denied, respondedBy := Some(caller),
                     respondedAt := Some(now))]
                && ledger == old(ledger) + if confirm then MirroredPair(old(claims)[claimId], now) else []
    {
      if claimId >= |claims| { return ClaimNotFound; }
      if claims[claimId].status != Pending { return AlreadyResponded; }
      if claims[claimId].target !in owners || owners[claims[claimId].target] != caller { return NotTheTarget; }
      AnswerKeeps(claims, ledger, order, claimId, confirm, caller, now);
      var claim := claims[claimId];
      claims := claims[claimId := Answered(claim, confirm, caller, now)];
      if confirm {
        RecordTwoSidedVerification(claim, now);
        order := order + [claimId];
      }
      return Responded;
    }

    method RecordTwoSidedVerification(c: Claim, now: int)
      modifies this`ledger
      ensures ledger == old(ledger) + MirroredPair(c, now)
    {
      var expiresAt := now + VERIFICATION_TTL_MS;
      ledger := ledger + [LedgerRow(c.claimant, c.relationship, c.target, now, expiresAt),
                          LedgerRow(c.target, c.relationship, c.claimant, now, expiresAt)];
    }
  }

  function Answered(c: Claim, confirm: bool, caller: nat, now: int): Claim {
    c.(status := if confirm then Confirmed else Denied, respondedBy := Some(caller), respondedAt := Some(now))
  }

  lemma NewClaimKeeps(claims: seq<Claim>, ledger: seq<LedgerRow>, order: seq<nat>, c: Claim)
    requires LedgerInv(claims, ledger, order) && c.status == Pending && c.respondedAt == None && c.claimant != c.target
    ensures LedgerInv(claims + [c], ledger, order)
  {
    forall k | 0 <= k < |order| ensures PairAt(claims + [c], ledger, order, k) {
      assert PairAt(claims, ledger, order, k);
    }
  }

  lemma AnswerKeeps(claims: seq<Claim>, ledger: seq<LedgerRow>, order: seq<nat>, i: nat, confirm: bool,
                    caller: nat, now: int)
    requires LedgerInv(claims, ledger, order) && i < |claims| && claims[i].status == Pending
    ensures var claims' := claims[i := Answered(claims[i], confirm, caller, now)];
            if confirm then LedgerInv(claims', ledger + MirroredPair(claims[i], now), order + [i])
            else LedgerInv(claims', ledger, order)
  {
    var claims' := claims[i := Answered(claims[i], confirm, caller, now)];
    var ledger' := if confirm then ledger + MirroredPair(claims[i], now) else ledger;
    var order' := if confirm then order + [i] else order;
    assert i !in order;
    forall k | 0 <= k < |order'| ensures PairAt(claims', ledger', order', k) {
      if k < |order| {
        assert order[k] in order;
        assert PairAt(claims, ledger, order, k);
      }
    }
    assert forall j | 0 <= j < |claims| :: j in order' <==> j in order || (confirm && j == i);
  }

  // ---- conservation ----

  predicate Involves(c: Claim, e: Entity) {
    c.claimant == e || c.target == e
  }

  function ConfirmedInvolving(claims: seq<Claim>, e: Entity): set<nat> {
    set i | 0 <= i < |claims| && claims[i].status == Confirmed && Involves(claims[i], e)
  }

  function RowsOf(ledger: seq<LedgerRow>, e: Entity): nat {
    if ledger == [] then 0 else RowsOf(ledger[..|ledger| - 1], e) + if ledger[|ledger| - 1].entity == e then 1 else 0
  }

  function FirstConfirmed(claims: seq<Claim>, order: seq<nat>, n: nat, e: Entity): set<nat>
    requires n <= |order| && forall k | 0 <= k < |order| :: order[k] < |claims|
  {
    set k | 0 <= k < n && Involves(claims[order[k]], e) :: order[k]
  }

  lemma OneMoreConfirmed(claims: seq<Claim>, order: seq<nat>, n: nat, e: Entity)
    requires 0 < n <= |order| && forall k | 0 <= k < |order| :: order[k] < |claims|
    requires forall k, l | 0 <= k < l < |order| :: order[k] != order[l]
    ensures |FirstConfirmed(claims, order, n, e)|
            == |FirstConfirmed(claims, order, n - 1, e)| + if Involves(claims[order[n - 1]], e) then 1 else 0
  {
    var before := FirstConfirmed(claims, order, n - 1, e);
    assert FirstConfirmed(claims, order, n, e)
           == before + if Involves(claims[order[n - 1]], e) then {order[n - 1]} else {};
    assert order[n - 1] !in before;
  }

  lemma {:induction false} RowsOfFirst(claims: seq<Claim>, ledger: seq<LedgerRow>, order: seq<nat>, n: nat, e: Entity)
    requires LedgerInv(claims, ledger, order) && n <= |order|
    ensures RowsOf(ledger[..2 * n], e) == |FirstConfirmed(claims, order, n, e)|
  {
    if n == 0 {
      assert FirstConfirmed(claims, order, n, e) == {};
    } else {
      RowsOfFirst(claims, ledger, order, n - 1, e);
      RowsOfPair(ledger, n, e);
      OneMoreConfirmed(claims, order, n, e);
      PairInvolves(claims, ledger, order, n - 1, e);
    }
  }

  lemma PairInvolves(claims: seq<Claim>, ledger: seq<LedgerRow>, order: seq<nat>, k: nat, e: Entity)
    requires LedgerInv(claims, ledger, order) && k < |order|
    ensures (if ledger[2 * k].entity == e then 1 else 0) + (if ledger[2 * k + 1].entity == e then 1 else 0)
            == if Involves(claims[order[k]], e) then 1 else 0
  {
    assert PairAt(claims, ledger, order, k);
  }

  lemma RowsOfPair(ledger: seq<LedgerRow>, n: nat, e: Entity)
    requires 0 < n && 2 * n <= |ledger|
    ensures RowsOf(ledger[..2 * n], e) == RowsOf(ledger[..2 * n - 2], e)
              + (if ledger[2 * n - 2].entity == e then 1 else 0) + (if ledger[2 * n - 1].entity == e then 1 else 0)
  {
    assert ledger[..2 * n][..2 * n - 1] == ledger[..2 * n - 1];
    assert ledger[..2 * n - 1][..2 * n - 2] == ledger[..2 * n - 2];
  }

  /** After any sequence of calls an entity has exactly as many rows as confirmed claims it takes part in. */
  lemma RowsEqualConfirmedClaims(claims: seq<Claim>, ledger: seq<LedgerRow>, order: seq<nat>, e: Entity)
    requires LedgerInv(claims, ledger, order)
    ensures RowsOf(ledger, e) == |ConfirmedInvolving(claims, e)|
  {
    RowsOfFirst(claims, ledger, order, |order|, e);
    assert ledger[..2 * |order|] == ledger;
    forall i ensures i in ConfirmedInvolving(claims, e) <==> i in FirstConfirmed(claims, order, |order|, e) {
      if i in ConfirmedInvolving(claims, e) {
        var k :| 0 <= k < |order| && order[k] == i;
      }
      if i in FirstConfirmed(claims, order, |order|, e) {
        assert i in order;
      }
    }
    assert ConfirmedInvolving(claims, e) == FirstConfirmed(claims, order, |order|, e);
  }

  /** Every row has its mirror beside it, from the same confirmed claim at the same time, and lasts 730 days. */
  lemma EveryRowIsMirrored(claims: seq<Claim>, ledger: seq<LedgerRow>, order: seq<nat>, r: nat)
    requires LedgerInv(claims, ledger, order) && r < |ledger|
    ensures var m := if r % 2 == 0 then r + 1 else r - 1;
            && m < |ledger|
            && ledger[m] == ledger[r].(entity := ledger[r].other, other := ledger[r].entity)
            && ledger[r].expiresAt == ledger[r].verifiedAt + 63_072_000_000
            && exists i | 0 <= i < |claims| ::
                 claims[i].status == Confirmed && claims[i].respondedAt == Some(ledger[r].verifiedAt)
                 && claims[i].relationship == ledger[r].relationship
                 && {claims[i].claimant, claims[i].target} == {ledger[r].entity, ledger[r].other}
  {
    var k := r / 2;
    assert PairAt(claims, ledger, order, k);
    assert order[k] in order;
    var c := claims[order[k]];
    assert c.status == Confirmed;
  }
}
