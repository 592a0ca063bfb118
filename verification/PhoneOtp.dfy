/**
 * Phone verification by one-time code
 * (apps/api/src/modules/verification/phone-verification.service.ts), as a
 * sequence of calls with a clock. A code's hash is taken to be injective.
 */
module PhoneOtp {
  import opened Options

  const OTP_TTL_MS: int := 600_000
  const MAX_VERIFY_ATTEMPTS: nat := 5
  const RESEND_COOLDOWN_MS: int := 60_000
  const VERIFICATION_TTL_MS: int := 365 * 24 * 60 * 60 * 1000

  datatype Otp = Otp(userId: nat, code: string, createdAt: int, expiresAt: int, consumedAt: Option<int>, attempts: nat)

  /** A guess that was evaluated against a code, its text, and when. */
  datatype Guess = Guess(otp: nat, text: string, at: int)

  /** An OTP_PHONE row of the verification ledger. */
  datatype LedgerRow = LedgerRow(userId: nat, verifiedAt: int, expiresAt: int)

  datatype RequestOutcome = Sent | NoPhoneNumber | TooSoon

  datatype ConfirmOutcome = Confirmed | WrongCode | Expired | TooManyAttempts

  /** The query's newest unconsumed code of the user. */
  function Newest(codes: seq<Otp>, user: nat): (i: Option<nat>)
    ensures i.Some? ==> i.value < |codes| && codes[i.value].userId == user && codes[i.value].consumedAt == None
  {
    if codes == [] then None
    else
      var n := |codes| - 1;
      if codes[n].userId == user && codes[n].consumedAt == None then Some(n) else Newest(codes[..n], user)
  }

  /** No unconsumed code of the user was created after the newest one. */
  lemma {:induction false} NewestIsNewest(codes: seq<Otp>, user: nat, clock: int, j: nat)
    requires CodesInv(codes, clock) && j < |codes| && codes[j].userId == user && codes[j].consumedAt == None
    ensures Newest(codes, user).Some? && codes[Newest(codes, user).value].createdAt >= codes[j].createdAt
  {
    var n := |codes| - 1;
    if Newest(codes, user) != Some(n) {
      NewestIsNewest(codes[..n], user, clock, j);
    }
  }

  /** Every newer code of the user has been consumed. */
  lemma {:induction false} NewerAreConsumed(codes: seq<Otp>, user: nat, j: nat)
    requires Newest(codes, user).Some? && Newest(codes, user).value < j < |codes| && codes[j].userId == user
    ensures codes[j].consumedAt.Some?
  {
    var n := |codes| - 1;
    if j < n {
      NewerAreConsumed(codes[..n], user, j);
    }
  }

  /** Code i is the user's current one: unconsumed, with every later one of theirs consumed. */
  ghost predicate IsCurrent(codes: seq<Otp>, user: nat, i: nat) {
    && i < |codes| && codes[i].userId == user && codes[i].consumedAt == None
    && forall j | i < j < |codes| && codes[j].userId == user :: codes[j].consumedAt.Some?
  }

  lemma {:induction false} NewestIff(codes: seq<Otp>, user: nat, i: nat)
    ensures Newest(codes, user) == Some(i) <==> IsCurrent(codes, user, i)
  {
    if codes != [] {
      var n := |codes| - 1;
      if !(codes[n].userId == user && codes[n].consumedAt == None) {
        NewestIff(codes[..n], user, i);
        if IsCurrent(codes[..n], user, i) {
          assert IsCurrent(codes, user, i);
        }
      }
    }
  }

  predicate HasRecent(codes: seq<Otp>, user: nat, now: int) {
    exists i | 0 <= i < |codes| :: codes[i].userId == user && codes[i].createdAt > now - RESEND_COOLDOWN_MS
  }

  /** A code of the user is less than a minute old. */
  lemma HasRecentIff(codes: seq<Otp>, user: nat, now: int)
    ensures HasRecent(codes, user, now) <==> exists o | o in codes :: o.userId == user && now - o.createdAt < 60_000
  {
    if HasRecent(codes, user, now) {
      var i :| 0 <= i < |codes| && codes[i].userId == user && codes[i].createdAt > now - RESEND_COOLDOWN_MS;
      assert codes[i] in codes;
    }
  }

  function GuessesAt(log: seq<Guess>, i: nat): nat {
    if log == [] then 0 else GuessesAt(log[..|log| - 1], i) + if log[|log| - 1].otp == i then 1 else 0
  }

  // ---- what every sequence of calls keeps ----

  /** Codes in order of creation, those of one user at least a cooldown apart. */
  ghost predicate CodesInv(codes: seq<Otp>, clock: int) {
    && (forall i | 0 <= i < |codes| ::
          codes[i].createdAt <= clock && codes[i].expiresAt == codes[i].createdAt + OTP_TTL_MS)
    && (forall i, j | 0 <= i < j < |codes| && codes[i].userId == codes[j].userId ::
          codes[j].createdAt >= codes[i].createdAt + RESEND_COOLDOWN_MS)
  }

  /** Every wrong guess fell in its code's lifetime, and a code counts at most five. */
  ghost predicate WrongInv(codes: seq<Otp>, wrong: seq<Guess>) {
    && (forall k | 0 <= k < |wrong| ::
          wrong[k].otp < |codes| && codes[wrong[k].otp].createdAt <= wrong[k].at <= codes[wrong[k].otp].expiresAt)
    && (forall i | 0 <= i < |codes| :: codes[i].attempts == GuessesAt(wrong, i) <= MAX_VERIFY_ATTEMPTS)
  }

  /** Code j was not there to be guessed at, at that time: it was created later, or consumed before. */
  predicate OutOfTheWay(codes: seq<Otp>, j: nat, at: int)
    requires j < |codes|
  {
    codes[j].createdAt >= at || (codes[j].consumedAt.Some? && codes[j].consumedAt.value <= at)
  }

  /** Guess g was made at its user's newest unconsumed code. */
  ghost predicate AtNewest(codes: seq<Otp>, g: Guess) {
    && g.otp < |codes|
    && (codes[g.otp].consumedAt.Some? ==> g.at <= codes[g.otp].consumedAt.value)
    && (forall j | g.otp < j < |codes| && codes[j].userId == codes[g.otp].userId :: OutOfTheWay(codes, j, g.at))
  }

  /** Every wrong guess was made at the newest unconsumed code there was. */
  ghost predicate NewestInv(codes: seq<Otp>, wrong: seq<Guess>, clock: int) {
    && (forall i | 0 <= i < |codes| && codes[i].consumedAt.Some? :: codes[i].consumedAt.value <= clock)
    && (forall k | 0 <= k < |wrong| :: wrong[k].at <= clock && AtNewest(codes, wrong[k]))
  }

  predicate WasAccepted(accepted: seq<Guess>, i: nat) {
    exists k | 0 <= k < |accepted| :: accepted[k].otp == i
  }

  ghost predicate ConsumedWereAccepted(codes: seq<Otp>, accepted: seq<Guess>) {
    forall i {:trigger WasAccepted(accepted, i)} | 0 <= i < |codes| && codes[i].consumedAt.Some? ::
      WasAccepted(accepted, i)
  }

  /** Every guess accepted has its code's text, and no wrong one does. */
  ghost predicate TextInv(codes: seq<Otp>, wrong: seq<Guess>, accepted: seq<Guess>) {
    && (forall k | 0 <= k < |wrong| :: wrong[k].otp < |codes| && wrong[k].text != codes[wrong[k].otp].code)
    && (forall k | 0 <= k < |accepted| :: accepted[k].otp < |codes| && accepted[k].text == codes[accepted[k].otp].code)
  }

  /** A code is accepted at most once, when it is consumed, and the ledger has one row for each. */
  ghost predicate AcceptedInv(codes: seq<Otp>, accepted: seq<Guess>, ledger: seq<LedgerRow>) {
    && (forall k | 0 <= k < |accepted| ::
          accepted[k].otp < |codes| && codes[accepted[k].otp].consumedAt == Some(accepted[k].at))
    && (forall k, l | 0 <= k < l < |accepted| :: accepted[k].otp != accepted[l].otp)
    && ConsumedWereAccepted(codes, accepted)
    && |ledger| == |accepted|
    && (forall k | 0 <= k < |ledger| ::
          ledger[k] == LedgerRow(codes[accepted[k].otp].userId, accepted[k].at, accepted[k].at + VERIFICATION_TTL_MS))
  }

  /** All rows the service writes, with the guesses it evaluated. */
  datatype Table = Table(
    codes: seq<Otp>, wrong: seq<Guess>, accepted: seq<Guess>, ledger: seq<LedgerRow>, phoneVerifiedAt: map<nat, int>)

  function ConfirmStep(t: Table, user: nat, code: string, now: int): (Table, ConfirmOutcome) {
    var i := Newest(t.codes, user);
    if i == None || t.codes[i.value].expiresAt < now then (t, Expired)
    else if t.codes[i.value].attempts >= MAX_VERIFY_ATTEMPTS then (t, TooManyAttempts)
    else if t.codes[i.value].code != code then (Counted(t, i.value, code, now), WrongCode)
    else (Consume(t, i.value, code, now), Confirmed)
  }

  /** Code i can still be guessed at: current, unexpired, with fewer than five wrong guesses. */
  ghost predicate Open(codes: seq<Otp>, user: nat, i: nat, now: int) {
    IsCurrent(codes, user, i) && now <= codes[i].expiresAt && codes[i].attempts < 5
  }

  /** What a guess at the current code comes to, and all that it changes. */
  lemma ConfirmIs(t: Table, user: nat, code: string, now: int, i: nat)
    requires IsCurrent(t.codes, user, i)
    ensures var (t', outcome) := ConfirmStep(t, user, code, now);
            if now > t.codes[i].expiresAt then t' == t && outcome == Expired
            else if t.codes[i].attempts >= 5 then t' == t && outcome == TooManyAttempts
            else if t.codes[i].code == code then
              && outcome == Confirmed
              && t' == Table(t.codes[i := t.codes[i].(consumedAt := Some(now))], t.wrong,
                             t.accepted + [Guess(i, code, now)],
                             t.ledger + [LedgerRow(user, now, now + 31_536_000_000)], t.phoneVerifiedAt[user := now])
            else
              && outcome == WrongCode
              && t' == t.(codes := t.codes[i := t.codes[i].(attempts := t.codes[i].attempts + 1)],
                          wrong := t.wrong + [Guess(i, code, now)])
  {
    NewestIff(t.codes, user, i);
  }

  /** Without a current code nothing happens. */
  lemma NothingToConfirm(t: Table, user: nat, code: string, now: int)
    requires forall i: nat :: !IsCurrent(t.codes, user, i)
    ensures ConfirmStep(t, user, code, now) == (t, Expired)
  {
    if Newest(t.codes, user).Some? {
      NewestIff(t.codes, user, Newest(t.codes, user).value);
    }
  }

  /** Exactly the right guess at an open code is confirmed, and exactly a wrong one is counted. */
  lemma ConfirmOutcomes(t: Table, user: nat, code: string, now: int)
    ensures var outcome := ConfirmStep(t, user, code, now).1;
            && (outcome == Confirmed <==> exists i: nat | Open(t.codes, user, i, now) :: t.codes[i].code == code)
            && (outcome == WrongCode <==> exists i: nat | Open(t.codes, user, i, now) :: t.codes[i].code != code)
  {
    if i: nat :| IsCurrent(t.codes, user, i) {
      ConfirmIs(t, user, code, now, i);
      forall j: nat | IsCurrent(t.codes, user, j) ensures j == i {
        NewestIff(t.codes, user, i);
        NewestIff(t.codes, user, j);
      }
      assert Open(t.codes, user, i, now) <==> now <= t.codes[i].expiresAt && t.codes[i].attempts < 5;
    } else {
      NothingToConfirm(t, user, code, now);
    }
  }

  function Counted(t: Table, i: nat, text: string, now: int): Table
    requires i < |t.codes|
  {
    t.(codes := t.codes[i := t.codes[i].(attempts := t.codes[i].attempts + 1)],
       wrong := t.wrong + [Guess(i, text, now)])
  }

  function Consume(t: Table, i: nat, text: string, now: int): Table
    requires i < |t.codes|
  {
    var user := t.codes[i].userId;
    t.(codes := t.codes[i := t.codes[i].(consumedAt := Some(now))],
       accepted := t.accepted + [Guess(i, text, now)],
       ledger := t.ledger + [LedgerRow(user, now, now + VERIFICATION_TTL_MS)],
       phoneVerifiedAt := t.phoneVerifiedAt[user := now])
  }

  ghost predicate TablesInv(t: Table, clock: int) {
    && CodesInv(t.codes, clock)
    && WrongInv(t.codes, t.wrong)
    && NewestInv(t.codes, t.wrong, clock)
    && TextInv(t.codes, t.wrong, t.accepted)
    && AcceptedInv(t.codes, t.accepted, t.ledger)
  }

  lemma LaterClock(t: Table, clock: int, now: int)
    requires TablesInv(t, clock) && clock <= now
    ensures TablesInv(t, now)
  {
  }

  const NO_ROWS: Table := Table([], [], [], [], map[])

  lemma EmptyTables(clock: int)
    ensures TablesInv(NO_ROWS, clock)
  {
  }

  class PhoneVerification {
    var clock: int
    var codes: seq<Otp>
    var phoneVerifiedAt: map<nat, int>
    var ledger: seq<LedgerRow>
    ghost var wrong: seq<Guess>
    ghost var accepted: seq<Guess>

    ghost function Rows(): Table
      reads this
    {
      Table(codes, wrong, accepted, ledger, phoneVerifiedAt)
    }

    ghost predicate Valid()
      reads this
    {
      TablesInv(Rows(), clock)
    }

    constructor (now: int)
      ensures Valid() && clock == now && Rows() == NO_ROWS
    {
      clock := now;
      codes, ledger, phoneVerifiedAt := [], [], map[];
      wrong, accepted := [], [];
      new;
      assert Rows() == NO_ROWS;
      EmptyTables(clock);
    }

    method Request(user: nat, hasPhone: bool, code: string, now: int) returns (outcome: RequestOutcome)
      requires Valid() && clock <= now
      modifies this
      ensures Valid() && clock == now
      ensures outcome == NoPhoneNumber <==> !hasPhone
      ensures outcome == TooSoon
              <==> hasPhone && exists o | o in old(codes) :: o.userId == user && now - o.createdAt < 60_000
      ensures Rows() == if outcome == Sent
                        then old(Rows()).(codes := old(codes) + [Otp(user, code, now, now + 600_000, None, 0)])
                        else old(Rows())
    {
      LaterClock(Rows(), clock, now);
      HasRecentIff(codes, user, now);
      clock := now;
      if !hasPhone { return NoPhoneNumber; }
      if HasRecent(codes, user, now) { return TooSoon; }
      var otp := Otp(user, code, now, now + OTP_TTL_MS, None, 0);
      ghost var was := Rows();
      assert TablesInv(was, now);
      codes := codes + [otp];
      assert Rows() == was.(codes := was.codes + [otp]);
      RequestKeeps(was, otp);
      return Sent;
    }

    /** The newest unconsumed code is the one guessed at, if it has not expired or used up its attempts. */
    method Confirm(user: nat, code: string, now: int) returns (outcome: ConfirmOutcome)
      requires Valid() && clock <= now
      modifies this
      ensures Valid() && clock == now
      ensures (Rows(), outcome) == ConfirmStep(old(Rows()), user, code, now)
      ensures outcome == Confirmed <==> exists i: nat | Open(old(codes), user, i, now) :: old(codes)[i].code == code
      ensures outcome == WrongCode <==> exists i: nat | Open(old(codes), user, i, now) :: old(codes)[i].code != code
    {
      ConfirmOutcomes(Rows(), user, code, now);
      LaterClock(Rows(), clock, now);
      clock := now;
      var i := Newest(codes, user);
      if i == None || codes[i.value].expiresAt < now { return Expired; }
      if codes[i.value].attempts >= MAX_VERIFY_ATTEMPTS { return TooManyAttempts; }
      if codes[i.value].code != code {
        CountWrong(i.value, code);
        return WrongCode;
      }
      Accept(i.value, code);
      return Confirmed;
    }

    /** `attempts: { increment: 1 }` */
    method CountWrong(i: nat, text: string)
      requires Valid() && i < |codes| && codes[i].attempts < MAX_VERIFY_ATTEMPTS && clock <= codes[i].expiresAt
      requires Newest(codes, codes[i].userId) == Some(i) && codes[i].code != text
      modifies this`codes, this`wrong
      ensures Valid()
      ensures Rows() == Counted(old(Rows()), i, text, clock)
    {
      ghost var was := Rows();
      assert TablesInv(was, clock);
      codes := codes[i := codes[i].(attempts := codes[i].attempts + 1)];
      wrong := wrong + [Guess(i, text, clock)];
      assert Rows() == Counted(was, i, text, clock);
      WrongGuessKeeps(was, i, text, clock);
    }

    /** The transaction: the code consumed, the phone verified, the ledger row written. */
    method Accept(i: nat, text: string)
      requires Valid() && i < |codes| && codes[i].consumedAt == None && codes[i].code == text
      modifies this`codes, this`accepted, this`ledger, this`phoneVerifiedAt
      ensures Valid()
      ensures Rows() == Consume(old(Rows()), i, text, clock)
    {
      ghost var was := Rows();
      assert TablesInv(was, clock);
      phoneVerifiedAt := phoneVerifiedAt[codes[i].userId := clock];
      ledger := ledger + [LedgerRow(codes[i].userId, clock, clock + VERIFICATION_TTL_MS)];
      codes := codes[i := codes[i].(consumedAt := Some(clock))];
      accepted := accepted + [Guess(i, text, clock)];
      assert Rows() == Consume(was, i, text, clock);
      AcceptKeeps(was, i, text, clock);
    }
  }

  lemma {:induction false} NoGuessesBeyond(codes: seq<Otp>, wrong: seq<Guess>, i: nat)
    requires i >= |codes| && forall k | 0 <= k < |wrong| :: wrong[k].otp < |codes|
    ensures GuessesAt(wrong, i) == 0
  {
    if wrong != [] { NoGuessesBeyond(codes, wrong[..|wrong| - 1], i); }
  }

  lemma NewCodeKeeps(codes: seq<Otp>, wrong: seq<Guess>, accepted: seq<Guess>, ledger: seq<LedgerRow>, o: Otp)
    requires CodesInv(codes, o.createdAt) && WrongInv(codes, wrong) && AcceptedInv(codes, accepted, ledger)
    requires !HasRecent(codes, o.userId, o.createdAt)
    requires o.expiresAt == o.createdAt + OTP_TTL_MS && o.consumedAt == None && o.attempts == 0
    ensures CodesInv(codes + [o], o.createdAt) && WrongInv(codes + [o], wrong)
    ensures AcceptedInv(codes + [o], accepted, ledger)
  {
    NoGuessesBeyond(codes, wrong, |codes|);
  }

  lemma RequestKeeps(t: Table, o: Otp)
    requires TablesInv(t, o.createdAt) && !HasRecent(t.codes, o.userId, o.createdAt)
    requires o.expiresAt == o.createdAt + OTP_TTL_MS && o.consumedAt == None && o.attempts == 0
    ensures TablesInv(t.(codes := t.codes + [o]), o.createdAt)
  {
    NewCodeKeeps(t.codes, t.wrong, t.accepted, t.ledger, o);
    NewCodeIsLater(t.codes, t.wrong, o);
    NewCodeTexts(t.codes, t.wrong, t.accepted, o);
  }

  lemma NewCodeTexts(codes: seq<Otp>, wrong: seq<Guess>, accepted: seq<Guess>, o: Otp)
    requires TextInv(codes, wrong, accepted)
    ensures TextInv(codes + [o], wrong, accepted)
  {
  }

  lemma NewCodeIsLater(codes: seq<Otp>, wrong: seq<Guess>, o: Otp)
    requires NewestInv(codes, wrong, o.createdAt) && o.consumedAt == None
    ensures NewestInv(codes + [o], wrong, o.createdAt)
  {
    var codes' := codes + [o];
    forall k | 0 <= k < |wrong| ensures AtNewest(codes', wrong[k]) {
      var g := wrong[k];
      assert AtNewest(codes, g);
      forall j | g.otp < j < |codes'| && codes'[j].userId == codes'[g.otp].userId
        ensures OutOfTheWay(codes', j, g.at)
      {
        if j < |codes| {
          assert OutOfTheWay(codes, j, g.at);
        }
      }
    }
  }

  /** Counting an attempt at code i, or consuming it, leaves where an earlier guess was made as it was. */
  lemma AtNewestKept(codes: seq<Otp>, g: Guess, i: nat, o: Otp, now: int)
    requires AtNewest(codes, g) && g.at <= now && i < |codes|
    requires o.userId == codes[i].userId && o.createdAt == codes[i].createdAt
    requires o.consumedAt == codes[i].consumedAt || (codes[i].consumedAt == None && o.consumedAt == Some(now))
    ensures AtNewest(codes[i := o], g)
  {
    var codes' := codes[i := o];
    forall j | g.otp < j < |codes'| && codes'[j].userId == codes'[g.otp].userId ensures OutOfTheWay(codes', j, g.at) {
      assert OutOfTheWay(codes, j, g.at);
    }
  }

  lemma NewestKept(codes: seq<Otp>, wrong: seq<Guess>, i: nat, o: Otp, now: int)
    requires NewestInv(codes, wrong, now) && i < |codes|
    requires o.userId == codes[i].userId && o.createdAt == codes[i].createdAt
    requires o.consumedAt == codes[i].consumedAt || (codes[i].consumedAt == None && o.consumedAt == Some(now))
    ensures NewestInv(codes[i := o], wrong, now)
  {
    forall k | 0 <= k < |wrong| ensures AtNewest(codes[i := o], wrong[k]) {
      AtNewestKept(codes, wrong[k], i, o, now);
    }
  }

  lemma {:induction false} GuessAtNewest(codes: seq<Otp>, wrong: seq<Guess>, i: nat, text: string, now: int)
    requires NewestInv(codes, wrong, now) && i < |codes| && Newest(codes, codes[i].userId) == Some(i)
    ensures NewestInv(codes[i := codes[i].(attempts := codes[i].attempts + 1)], wrong + [Guess(i, text, now)], now)
  {
    forall j | i < j < |codes| && codes[j].userId == codes[i].userId ensures OutOfTheWay(codes, j, now) {
      NewerAreConsumed(codes, codes[i].userId, j);
    }
    assert AtNewest(codes, Guess(i, text, now));
    NewestKept(codes, wrong + [Guess(i, text, now)], i, codes[i].(attempts := codes[i].attempts + 1), now);
  }

  /** Counting a guess or consuming a code leaves every code's owner and times alone. */
  lemma CodesKept(codes: seq<Otp>, i: nat, o: Otp, now: int)
    requires CodesInv(codes, now) && i < |codes|
    requires o.userId == codes[i].userId && o.createdAt == codes[i].createdAt && o.expiresAt == codes[i].expiresAt
    ensures CodesInv(codes[i := o], now)
  {
  }

  lemma GuessesKept(codes: seq<Otp>, wrong: seq<Guess>, i: nat, text: string, now: int)
    requires CodesInv(codes, now) && WrongInv(codes, wrong)
    requires i < |codes| && codes[i].attempts < MAX_VERIFY_ATTEMPTS && now <= codes[i].expiresAt
    ensures WrongInv(codes[i := codes[i].(attempts := codes[i].attempts + 1)], wrong + [Guess(i, text, now)])
  {
    assert (wrong + [Guess(i, text, now)])[..|wrong|] == wrong;
  }

  lemma AcceptancesKept(codes: seq<Otp>, accepted: seq<Guess>, ledger: seq<LedgerRow>, i: nat, o: Otp)
    requires AcceptedInv(codes, accepted, ledger) && i < |codes|
    requires o.userId == codes[i].userId && o.consumedAt == codes[i].consumedAt
    ensures AcceptedInv(codes[i := o], accepted, ledger)
  {
    var codes' := codes[i := o];
    forall j | 0 <= j < |codes'| && codes'[j].consumedAt.Some? ensures WasAccepted(accepted, j) {
      assert codes[j].consumedAt.Some?;
    }
  }

  lemma CountedCodesKept(t: Table, i: nat, text: string, now: int)
    requires CodesInv(t.codes, now) && i < |t.codes|
    ensures CodesInv(Counted(t, i, text, now).codes, now)
  {
    CodesKept(t.codes, i, t.codes[i].(attempts := t.codes[i].attempts + 1), now);
  }

  lemma CountedGuessesKept(t: Table, i: nat, text: string, now: int)
    requires CodesInv(t.codes, now) && WrongInv(t.codes, t.wrong)
    requires i < |t.codes| && t.codes[i].attempts < MAX_VERIFY_ATTEMPTS && now <= t.codes[i].expiresAt
    ensures WrongInv(Counted(t, i, text, now).codes, Counted(t, i, text, now).wrong)
  {
    GuessesKept(t.codes, t.wrong, i, text, now);
  }

  lemma {:induction false} CountedAtNewest(t: Table, i: nat, text: string, now: int)
    requires NewestInv(t.codes, t.wrong, now)
    requires i < |t.codes| && Newest(t.codes, t.codes[i].userId) == Some(i)
    ensures NewestInv(Counted(t, i, text, now).codes, Counted(t, i, text, now).wrong, now)
  {
    GuessAtNewest(t.codes, t.wrong, i, text, now);
  }

  lemma CountedTextsKept(t: Table, i: nat, text: string, now: int)
    requires TextInv(t.codes, t.wrong, t.accepted) && i < |t.codes| && t.codes[i].code != text
    ensures var t' := Counted(t, i, text, now);
            TextInv(t'.codes, t'.wrong, t'.accepted)
  {
  }

  lemma ConsumedTextsKept(t: Table, i: nat, text: string, now: int)
    requires TextInv(t.codes, t.wrong, t.accepted) && i < |t.codes| && t.codes[i].code == text
    ensures var t' := Consume(t, i, text, now);
            TextInv(t'.codes, t'.wrong, t'.accepted)
  {
  }

  lemma CountedAcceptancesKept(t: Table, i: nat, text: string, now: int)
    requires AcceptedInv(t.codes, t.accepted, t.ledger) && i < |t.codes|
    ensures AcceptedInv(Counted(t, i, text, now).codes, t.accepted, t.ledger)
  {
    AcceptancesKept(t.codes, t.accepted, t.ledger, i, t.codes[i].(attempts := t.codes[i].attempts + 1));
  }

  lemma {:induction false} WrongGuessKeeps(t: Table, i: nat, text: string, now: int)
    requires TablesInv(t, now)
    requires i < |t.codes| && t.codes[i].attempts < MAX_VERIFY_ATTEMPTS && now <= t.codes[i].expiresAt
    requires Newest(t.codes, t.codes[i].userId) == Some(i) && t.codes[i].code != text
    ensures TablesInv(Counted(t, i, text, now), now)
  {
    CountedCodesKept(t, i, text, now);
    CountedAcceptancesKept(t, i, text, now);
    CountedGuessesKept(t, i, text, now);
    CountedTextsKept(t, i, text, now);
    CountedAtNewest(t, i, text, now);
  }

  lemma AcceptingAddsOne(codes: seq<Otp>, accepted: seq<Guess>, i: nat, text: string, now: int)
    requires ConsumedWereAccepted(codes, accepted) && i < |codes|
    ensures ConsumedWereAccepted(codes[i := codes[i].(consumedAt := Some(now))], accepted + [Guess(i, text, now)])
  {
    var codes', accepted' := codes[i := codes[i].(consumedAt := Some(now))], accepted + [Guess(i, text, now)];
    forall j | 0 <= j < |codes'| && codes'[j].consumedAt.Some? ensures WasAccepted(accepted', j) {
      if j == i {
        assert accepted'[|accepted|].otp == i;
      } else {
        assert WasAccepted(accepted, j);
        var k :| 0 <= k < |accepted| && accepted[k].otp == j;
        assert accepted'[k].otp == j;
      }
    }
  }

  lemma WrongKept(codes: seq<Otp>, wrong: seq<Guess>, i: nat, now: int)
    requires WrongInv(codes, wrong) && i < |codes|
    ensures WrongInv(codes[i := codes[i].(consumedAt := Some(now))], wrong)
  {
  }

  lemma AcceptancesGrow(codes: seq<Otp>, accepted: seq<Guess>, ledger: seq<LedgerRow>, i: nat, text: string, now: int)
    requires AcceptedInv(codes, accepted, ledger) && i < |codes| && codes[i].consumedAt == None
    ensures AcceptedInv(codes[i := codes[i].(consumedAt := Some(now))], accepted + [Guess(i, text, now)],
                        ledger + [LedgerRow(codes[i].userId, now, now + VERIFICATION_TTL_MS)])
  {
    AcceptingAddsOne(codes, accepted, i, text, now);
  }

  lemma AcceptKeeps(t: Table, i: nat, text: string, now: int)
    requires TablesInv(t, now) && i < |t.codes| && t.codes[i].consumedAt == None && t.codes[i].code == text
    ensures TablesInv(Consume(t, i, text, now), now)
  {
    CodesKept(t.codes, i, t.codes[i].(consumedAt := Some(now)), now);
    WrongKept(t.codes, t.wrong, i, now);
    ConsumedTextsKept(t, i, text, now);
    NewestKept(t.codes, t.wrong, i, t.codes[i].(consumedAt := Some(now)), now);
    AcceptancesGrow(t.codes, t.accepted, t.ledger, i, text, now);
  }

  // ---- how many wrong guesses fit in a window ----

  /** The user's codes created in [lo, hi]. */
  function CodesIn(codes: seq<Otp>, user: nat, lo: int, hi: int): nat {
    if codes == [] then 0
    else
      var o := codes[|codes| - 1];
      CodesIn(codes[..|codes| - 1], user, lo, hi) + if o.userId == user && lo <= o.createdAt <= hi then 1 else 0
  }

  /** The user's wrong guesses made in [from, to]. */
  function WrongIn(wrong: seq<Guess>, codes: seq<Otp>, user: nat, from: int, to: int): nat {
    if wrong == [] then 0
    else
      var g := wrong[|wrong| - 1];
      WrongIn(wrong[..|wrong| - 1], codes, user, from, to)
      + if g.otp < |codes| && codes[g.otp].userId == user && from <= g.at <= to then 1 else 0
  }

  lemma {:induction false} SameCodesIn(codes: seq<Otp>, user: nat, lo: int, hi: int, hi': int)
    requires hi' <= hi
    requires forall i | 0 <= i < |codes| && codes[i].userId == user :: codes[i].createdAt <= hi'
    ensures CodesIn(codes, user, lo, hi) == CodesIn(codes, user, lo, hi')
  {
    if codes != [] { SameCodesIn(codes[..|codes| - 1], user, lo, hi, hi'); }
  }

  /** Codes a cooldown apart: few fit in an interval. */
  lemma {:induction false} SpacedCodes(codes: seq<Otp>, user: nat, lo: int, hi: int, clock: int)
    requires CodesInv(codes, clock)
    ensures CodesIn(codes, user, lo, hi) <= if hi < lo then 0 else (hi - lo) / RESEND_COOLDOWN_MS + 1
  {
    if codes != [] {
      var n := |codes| - 1;
      var c := codes[n].createdAt;
      if codes[n].userId == user && lo <= c <= hi {
        SameCodesIn(codes[..n], user, lo, hi, c - RESEND_COOLDOWN_MS);
        SpacedCodes(codes[..n], user, lo, c - RESEND_COOLDOWN_MS, clock);
      } else {
        SpacedCodes(codes[..n], user, lo, hi, clock);
      }
    }
  }

  /** A wrong guess was made at code i in [from, to]. */
  ghost predicate GuessedIn(wrong: seq<Guess>, i: nat, from: int, to: int) {
    exists k | 0 <= k < |wrong| :: wrong[k].otp == i && from <= wrong[k].at <= to
  }

  /** The user's codes guessed at in [from, to]. */
  ghost function CodesGuessedIn(codes: seq<Otp>, wrong: seq<Guess>, user: nat, from: int, to: int): nat {
    if codes == [] then 0
    else
      var n := |codes| - 1;
      CodesGuessedIn(codes[..n], wrong, user, from, to)
      + if codes[n].userId == user && GuessedIn(wrong, n, from, to) then 1 else 0
  }

  /** The user's codes from before the window that were accepted in it. */
  function OldAcceptedIn(codes: seq<Otp>, user: nat, from: int, to: int): nat {
    if codes == [] then 0
    else
      var o := codes[|codes| - 1];
      OldAcceptedIn(codes[..|codes| - 1], user, from, to)
      + if o.userId == user && o.createdAt < from && o.consumedAt.Some? && from <= o.consumedAt.value <= to
        then 1 else 0
  }

  /** Leaving out the last code leaves out at most the guesses at it, if there were any in the window. */
  lemma {:induction false} WithoutLastCode(wrong: seq<Guess>, codes: seq<Otp>, user: nat, from: int, to: int)
    requires codes != []
    ensures var n := |codes| - 1;
            WrongIn(wrong, codes, user, from, to) <= WrongIn(wrong, codes[..n], user, from, to)
              + if codes[n].userId == user && GuessedIn(wrong, n, from, to) then GuessesAt(wrong, n) else 0
  {
    if wrong != [] {
      var n, rest := |codes| - 1, wrong[..|wrong| - 1];
      WithoutLastCode(rest, codes, user, from, to);
      if GuessedIn(rest, n, from, to) {
        var k :| 0 <= k < |rest| && rest[k].otp == n && from <= rest[k].at <= to;
        assert wrong[k].otp == n;
      }
    }
  }

  lemma {:induction false} WrongPerCode(wrong: seq<Guess>, codes: seq<Otp>, user: nat, from: int, to: int)
    requires forall i | 0 <= i < |codes| :: GuessesAt(wrong, i) <= MAX_VERIFY_ATTEMPTS
    ensures WrongIn(wrong, codes, user, from, to)
            <= MAX_VERIFY_ATTEMPTS * CodesGuessedIn(codes, wrong, user, from, to)
  {
    if codes == [] {
      NoCodesNoWrong(wrong, user, from, to);
    } else {
      WithoutLastCode(wrong, codes, user, from, to);
      WrongPerCode(wrong, codes[..|codes| - 1], user, from, to);
    }
  }

  lemma {:induction false} NoCodesNoWrong(wrong: seq<Guess>, user: nat, from: int, to: int)
    ensures WrongIn(wrong, [], user, from, to) == 0
  {
    if wrong != [] { NoCodesNoWrong(wrong[..|wrong| - 1], user, from, to); }
  }

  /** A code guessed at in the window was alive in it. */
  lemma {:induction false} GuessedWereAlive(codes: seq<Otp>, wrong: seq<Guess>, user: nat, from: int, to: int)
    requires forall k | 0 <= k < |wrong| && wrong[k].otp < |codes| ::
               codes[wrong[k].otp].createdAt <= wrong[k].at <= codes[wrong[k].otp].createdAt + OTP_TTL_MS
    ensures CodesGuessedIn(codes, wrong, user, from, to) <= CodesIn(codes, user, from - OTP_TTL_MS, to)
  {
    if codes != [] {
      GuessedWereAlive(codes[..|codes| - 1], wrong, user, from, to);
    }
  }

  /** Some code of the user from before the window was guessed at in it. */
  ghost predicate OldGuessed(codes: seq<Otp>, wrong: seq<Guess>, user: nat, from: int, to: int) {
    exists i | 0 <= i < |codes| :: codes[i].userId == user && codes[i].createdAt < from && GuessedIn(wrong, i, from, to)
  }

  /** Two codes from before the window were guessed at in it only if the newer one was accepted in it. */
  lemma NewerWasAccepted(codes: seq<Otp>, wrong: seq<Guess>, i: nat, j: nat, from: int, to: int)
    requires i < j < |codes| && codes[i].userId == codes[j].userId && codes[j].createdAt < from
    requires forall k | 0 <= k < |wrong| && wrong[k].otp < |codes| :: AtNewest(codes, wrong[k])
    requires GuessedIn(wrong, i, from, to) && GuessedIn(wrong, j, from, to)
    ensures codes[j].consumedAt.Some? && from <= codes[j].consumedAt.value <= to
  {
    var k :| 0 <= k < |wrong| && wrong[k].otp == i && from <= wrong[k].at <= to;
    assert AtNewest(codes, wrong[k]) && OutOfTheWay(codes, j, wrong[k].at);
    var l :| 0 <= l < |wrong| && wrong[l].otp == j && from <= wrong[l].at <= to;
    assert AtNewest(codes, wrong[l]);
  }

  /**
   * The codes guessed at in a window: those created in it, those from before it
   * that were accepted in it, and one more.
   */
  lemma {:induction false} GuessedWereCurrent(codes: seq<Otp>, wrong: seq<Guess>, user: nat, from: int, to: int)
    requires forall k | 0 <= k < |wrong| && wrong[k].otp < |codes| ::
               codes[wrong[k].otp].createdAt <= wrong[k].at && AtNewest(codes, wrong[k])
    ensures CodesGuessedIn(codes, wrong, user, from, to)
            <= CodesIn(codes, user, from, to) + OldAcceptedIn(codes, user, from, to)
               + if OldGuessed(codes, wrong, user, from, to) then 1 else 0
  {
    if codes != [] {
      var n := |codes| - 1;
      forall k | 0 <= k < |wrong| && wrong[k].otp < n ensures AtNewest(codes[..n], wrong[k]) {
        AtNewestBefore(codes, wrong[k]);
      }
      GuessedWereCurrent(codes[..n], wrong, user, from, to);
      if OldGuessed(codes[..n], wrong, user, from, to) {
        var i :| 0 <= i < n && codes[i].userId == user && codes[i].createdAt < from && GuessedIn(wrong, i, from, to);
        assert OldGuessed(codes, wrong, user, from, to);
        if codes[n].userId == user && codes[n].createdAt < from && GuessedIn(wrong, n, from, to) {
          NewerWasAccepted(codes, wrong, i, n, from, to);
        }
      }
    }
  }

  lemma AtNewestBefore(codes: seq<Otp>, g: Guess)
    requires AtNewest(codes, g) && g.otp < |codes| - 1
    ensures AtNewest(codes[..|codes| - 1], g)
  {
    var init := codes[..|codes| - 1];
    forall j | g.otp < j < |init| && init[j].userId == init[g.otp].userId ensures OutOfTheWay(init, j, g.at) {
      assert OutOfTheWay(codes, j, g.at);
    }
  }

  lemma GuessedBoundByLife(codes: seq<Otp>, wrong: seq<Guess>, clock: int, user: nat, from: int, width: nat)
    requires CodesInv(codes, clock) && WrongInv(codes, wrong)
    ensures CodesGuessedIn(codes, wrong, user, from, from + width) <= (width + OTP_TTL_MS) / RESEND_COOLDOWN_MS + 1
  {
    GuessedWereAlive(codes, wrong, user, from, from + width);
    SpacedCodes(codes, user, from - OTP_TTL_MS, from + width, clock);
  }

  lemma GuessedBoundByNewest(codes: seq<Otp>, wrong: seq<Guess>, clock: int, user: nat, from: int, width: nat)
    requires CodesInv(codes, clock) && WrongInv(codes, wrong) && NewestInv(codes, wrong, clock)
    ensures CodesGuessedIn(codes, wrong, user, from, from + width)
            <= width / RESEND_COOLDOWN_MS + 2 + OldAcceptedIn(codes, user, from, from + width)
  {
    GuessedWereCurrent(codes, wrong, user, from, from + width);
    SpacedCodes(codes, user, from, from + width, clock);
  }

  /**
   * However calls are ordered, the wrong guesses of one user evaluated in any window
   * of W milliseconds are at most 5 * ((W + 600000) / 60000 + 1), and at most
   * 5 * (W / 60000 + 2) with five more for each older code accepted in the window:
   * the code current at its start and those created in it are all there is to guess at.
   */
  lemma {:induction false} WrongGuessesPerWindow(t: Table, clock: int, user: nat, from: int, width: nat)
    requires TablesInv(t, clock)
    ensures WrongIn(t.wrong, t.codes, user, from, from + width)
            <= 5 * ((width + 600_000) / 60_000 + 1)
    ensures WrongIn(t.wrong, t.codes, user, from, from + width)
            <= 5 * (width / 60_000 + 2 + OldAcceptedIn(t.codes, user, from, from + width))
  {
    WrongPerCode(t.wrong, t.codes, user, from, from + width);
    GuessedBoundByLife(t.codes, t.wrong, clock, user, from, width);
    GuessedBoundByNewest(t.codes, t.wrong, clock, user, from, width);
  }

  function Consumed(codes: seq<Otp>): set<nat> {
    set i | 0 <= i < |codes| && codes[i].consumedAt.Some?
  }

  /** The ledger has exactly one OTP_PHONE row for each consumed code. */
  lemma LedgerCountsConsumedCodes(codes: seq<Otp>, accepted: seq<Guess>, ledger: seq<LedgerRow>)
    requires AcceptedInv(codes, accepted, ledger)
    ensures |ledger| == |Consumed(codes)|
  {
    AcceptedAreDistinct(accepted);
    forall i ensures i in Consumed(codes) <==> i in AcceptedCodes(accepted) {
      if i in Consumed(codes) {
        assert WasAccepted(accepted, i);
      }
    }
    assert Consumed(codes) == AcceptedCodes(accepted);
  }

  function AcceptedCodes(accepted: seq<Guess>): set<nat> {
    set k | 0 <= k < |accepted| :: accepted[k].otp
  }

  lemma AcceptedAreDistinct(accepted: seq<Guess>)
    requires forall k, l | 0 <= k < l < |accepted| :: accepted[k].otp != accepted[l].otp
    ensures |AcceptedCodes(accepted)| == |accepted|
  {
    if accepted != [] {
      var n := |accepted| - 1;
      AcceptedAreDistinct(accepted[..n]);
      assert AcceptedCodes(accepted) == AcceptedCodes(accepted[..n]) + {accepted[n].otp};
    }
  }
}
