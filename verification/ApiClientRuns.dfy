/**
 * What every interleaving of `apiRequest` runs keeps: the slow-request count,
 * the status at rest, the single refresh POST, its cooldown and the retry bounds.
 */
module ApiClientRuns {
  import opened Options
  import opened WakeRetry
  import opened ApiClient

  // ---- the slow-request count ----

  predicate InFlight(r: Request) {
    r.phase != Finished
  }

  predicate CountedInFlight(r: Request) {
    InFlight(r) && r.countedSlow
  }

  function SlowOnes(requests: map<nat, Request>): set<nat> {
    set id | id in requests && CountedInFlight(requests[id])
  }

  ghost predicate AnyInFlight(s: State) {
    exists id :: id in s.requests && InFlight(s.requests[id])
  }

  ghost predicate CountInv(s: State) {
    && s.slowRequests == |SlowOnes(s.requests)|
    && (forall id | id in s.requests :: s.requests[id].timerArmed ==>
          InFlight(s.requests[id]) && !s.requests[id].countedSlow)
    && (s.apiStatus == Slow ==> AnyInFlight(s))
  }

  lemma SlowOnesUpdate(requests: map<nat, Request>, id: nat, r: Request)
    ensures var before := SlowOnes(requests);
            SlowOnes(requests[id := r]) == if CountedInFlight(r) then before + {id} else before - {id}
  {
  }

  /** Replacing one run by r, which is still in flight unless the status has left "slow". */
  lemma CountAfterUpdate(s: State, id: nat, r: Request, s': State)
    requires CountInv(s)
    requires s'.requests == s.requests[id := r]
    requires r.timerArmed ==> InFlight(r) && !r.countedSlow
    requires s'.slowRequests == s.slowRequests
                                + (if CountedInFlight(r) then 1 else 0)
                                - (if id in s.requests && CountedInFlight(s.requests[id]) then 1 else 0)
    requires s'.apiStatus == Slow ==> InFlight(r) || (s.apiStatus == Slow && s'.slowRequests != 0)
    ensures CountInv(s')
  {
    SlowOnesUpdate(s.requests, id, r);
    if s'.apiStatus == Slow {
      if InFlight(r) {
        assert id in s'.requests && InFlight(s'.requests[id]);
      } else {
        assert SlowOnes(s'.requests) != {};
        var k :| k in SlowOnes(s'.requests);
        assert k in s'.requests && InFlight(s'.requests[k]);
      }
    }
  }

  lemma CountReply(s: State, id: nat, r: Request, reply: Reply)
    requires CountInv(s) && id in s.requests && r == s.requests[id] && r.phase.Fetching?
    ensures CountInv(OnFetchReply(s, id, r, reply))
  {
    var s' := OnFetchReply(s, id, r, reply);
    CountAfterUpdate(s, id, s'.requests[id], s');
  }

  lemma CountOwn(s: State, e: Event, id: nat)
    requires CountInv(s) && Enabled(s, e)
    requires Touched(e) == Some(id) && !e.FetchReply? && !e.BodyRead? && !e.ErrorRead?
    ensures CountInv(Apply(s, e))
  {
    var s' := Apply(s, e);
    CountAfterUpdate(s, id, s'.requests[id], s');
  }

  lemma CountFinish(s: State, id: nat, status: ApiStatus)
    requires CountInv(s) && id in s.requests && InFlight(s.requests[id])
    requires status == Slow ==> s.apiStatus == Slow
    ensures CountInv(Finish(s.(apiStatus := status), id, s.requests[id]))
  {
    var s' := Finish(s.(apiStatus := status), id, s.requests[id]);
    CountAfterUpdate(s, id, s'.requests[id], s');
  }

  lemma CountStep(s: State, e: Event)
    requires CountInv(s) && Enabled(s, e)
    ensures CountInv(Apply(s, e))
  {
    var s' := Apply(s, e);
    match e
    case Tick(_) => SameRequests(s, s');
    case HealthOk => SameRequests(s, s');
    case PostReply(_, _) => SameRequests(s, s');
    case PostClear(_) => SameRequests(s, s');
    case FetchReply(id, reply) => CountReply(s, id, s.requests[id], reply);
    case BodyRead(id) => CountFinish(s, id, s.apiStatus);
    case ErrorRead(id, hasApiError) => CountFinish(s, id, StatusAfterError(s, s.requests[id], hasApiError));
    case _ => CountOwn(s, e, Touched(e).value);
  }

  lemma SameRequests(s: State, s': State)
    requires CountInv(s) && s'.requests == s.requests && s'.slowRequests == s.slowRequests
    requires s'.apiStatus == Slow ==> s.apiStatus == Slow
    ensures CountInv(s')
  {
  }

  lemma {:induction false} CountHolds(ss: seq<State>, es: seq<Event>, n: nat)
    requires IsRun(ss, es) && n < |ss|
    ensures CountInv(ss[n])
  {
    if n > 0 {
      CountHolds(ss, es, n - 1);
      CountStep(ss[n - 1], es[n - 1]);
    }
  }

  /**
   * In every state of every run `slowRequests` is the number of runs in flight
   * that were counted slow; once none is in flight it is 0 and the status is not "slow".
   */
  lemma SlowCountIsExact(ss: seq<State>, es: seq<Event>, n: nat)
    requires IsRun(ss, es) && n < |ss|
    ensures ss[n].slowRequests == |SlowOnes(ss[n].requests)|
    ensures !AnyInFlight(ss[n]) ==> ss[n].slowRequests == 0 && ss[n].apiStatus != Slow
  {
    CountHolds(ss, es, n);
    if !AnyInFlight(ss[n]) {
      assert SlowOnes(ss[n].requests) == {};
    }
  }

  // ---- the status at rest is the last verdict ----

  /** What this event says about the API: reachable, unreachable, or nothing. */
  function Verdict(s: State, e: Event): Option<bool> {
    if !Enabled(s, e) then None else
    match e
    case FetchReply(id, reply) =>
      var r := s.requests[id];
      if DelayAfter(r.canRetry, r.phase.attempt, reply).Some? then None
      else if reply == NoResponse then Some(false)
      else if IsOk(reply.status) then Some(true)
      else None
    case ErrorRead(id, hasApiError) => Some(hasApiError || !Unavailable(s.requests[id].phase.status))
    case HealthOk => Some(true)
    case _ => None
  }

  function LastVerdict(ss: seq<State>, es: seq<Event>, n: nat): Option<bool>
    requires n <= |es| <= |ss|
  {
    if n == 0 then None
    else if Verdict(ss[n - 1], es[n - 1]).Some? then Verdict(ss[n - 1], es[n - 1])
    else LastVerdict(ss, es, n - 1)
  }

  /** This slow timer counts a run that already has its answer and is reading the body. */
  predicate LateCount(s: State, e: Event) {
    && e.SlowTimer? && Enabled(s, e)
    && s.requests[e.id].phase == ReadingBody && s.clock - s.lastAnsweredAt >= 30_000
  }

  /** A late count has come since the last verdict. */
  predicate LateSince(ss: seq<State>, es: seq<Event>, n: nat)
    requires n <= |es| <= |ss|
  {
    && n > 0
    && Verdict(ss[n - 1], es[n - 1]) == None
    && (LateCount(ss[n - 1], es[n - 1]) || LateSince(ss, es, n - 1))
  }

  predicate Undecided(r: Request) {
    r.phase != ReadingBody && r.phase != Finished
  }

  ghost predicate AnyUndecided(s: State) {
    exists id :: id in s.requests && Undecided(s.requests[id])
  }

  /** The status against the last verdict v and whether a late count has come since. */
  ghost predicate VerdictInv(s: State, v: Option<bool>, late: bool) {
    && (s.apiStatus == Unreachable ==> v == Some(false) && !late)
    && (v == Some(false) && !late ==> s.apiStatus == Unreachable || AnyUndecided(s))
  }

  function NextVerdict(s: State, e: Event, v: Option<bool>): Option<bool> {
    if Verdict(s, e).Some? then Verdict(s, e) else v
  }

  predicate NextLate(s: State, e: Event, late: bool) {
    Verdict(s, e) == None && (LateCount(s, e) || late)
  }

  /** Who may set "unreachable", and what ends it. */
  lemma UnreachableIsAVerdict(s: State, e: Event)
    requires Enabled(s, e)
    ensures Apply(s, e).apiStatus == Unreachable ==>
              Verdict(s, e) == Some(false) || (s.apiStatus == Unreachable && Verdict(s, e) == None)
    ensures Verdict(s, e) == Some(false) ==> Apply(s, e).apiStatus == Unreachable
    ensures LateCount(s, e) ==> Apply(s, e).apiStatus == Slow
  {
  }

  lemma UndecidedStays(s: State, s': State, id: nat)
    requires AnyUndecided(s)
    requires s'.requests.Keys >= s.requests.Keys
    requires forall k | k in s.requests && k != id :: s'.requests[k] == s.requests[k]
    requires id in s.requests && Undecided(s.requests[id]) ==> Undecided(s'.requests[id])
    ensures AnyUndecided(s')
  {
    var k :| k in s.requests && Undecided(s.requests[k]);
    assert k in s'.requests && Undecided(s'.requests[k]);
  }

  /** A step without a verdict or a late count leaves "unreachable" alone or is taken with a run still undecided. */
  lemma VerdictPending(s: State, e: Event)
    requires Enabled(s, e) && Verdict(s, e) == None && !LateCount(s, e)
    requires CountInv(s)
    requires s.apiStatus == Unreachable || AnyUndecided(s)
    ensures Apply(s, e).apiStatus == Unreachable || AnyUndecided(Apply(s, e))
  {
    var s' := Apply(s, e);
    if s'.apiStatus != Unreachable {
      match e
      case Tick(_) => UndecidedStays(s, s', 0);
      case PostReply(_, _) => UndecidedStays(s, s', 0);
      case PostClear(_) => UndecidedStays(s, s', 0);
      case Begin(id, _, _) => assert Undecided(s'.requests[id]);
      case Wake(id) => assert Undecided(s'.requests[id]);
      case Resume(id) => assert Undecided(s'.requests[id]);
      case FetchReply(id, _) => assert Undecided(s'.requests[id]);
      case BodyRead(id) => UndecidedStays(s, s', id);
      case SlowTimer(id) =>
        if Undecided(s.requests[id]) {
          assert Undecided(s'.requests[id]);
        } else {
          assert s'.apiStatus == s.apiStatus;
          UndecidedStays(s, s', id);
        }
      case _ =>
    }
  }

  lemma VerdictStep(s: State, e: Event, v: Option<bool>, late: bool)
    requires CountInv(s) && VerdictInv(s, v, late) && Enabled(s, e)
    ensures VerdictInv(Apply(s, e), NextVerdict(s, e, v), NextLate(s, e, late))
  {
    UnreachableIsAVerdict(s, e);
    if Verdict(s, e) == None && v == Some(false) && !NextLate(s, e, late) {
      VerdictPending(s, e);
    }
  }

  lemma {:induction false} VerdictHolds(ss: seq<State>, es: seq<Event>, n: nat)
    requires IsRun(ss, es) && n < |ss|
    ensures VerdictInv(ss[n], LastVerdict(ss, es, n), LateSince(ss, es, n))
  {
    if n > 0 {
      VerdictHolds(ss, es, n - 1);
      CountHolds(ss, es, n - 1);
      VerdictStep(ss[n - 1], es[n - 1], LastVerdict(ss, es, n - 1), LateSince(ss, es, n - 1));
    }
  }

  /** What the status promises to be once nothing is in flight. */
  function PromisedStatus(lastVerdict: Option<bool>): ApiStatus {
    if lastVerdict == Some(false) then Unreachable else Fine
  }

  /**
   * Whenever no run is in flight the status is the last verdict any run or health
   * probe reached, however the runs were interleaved, in exactly the runs where no
   * late count has come since an unreachable verdict: the outage screen neither
   * outlives a later answer nor is lost to a "slow" in between, except to a slow
   * timer so late that it counts a run that has already been answered.
   */
  lemma StatusAtRestIsLastVerdictIff(ss: seq<State>, es: seq<Event>, n: nat)
    requires IsRun(ss, es) && n < |ss| && !AnyInFlight(ss[n])
    ensures ss[n].apiStatus == PromisedStatus(LastVerdict(ss, es, n))
            <==> !(LastVerdict(ss, es, n) == Some(false) && LateSince(ss, es, n))
    ensures ss[n].apiStatus
            == if LastVerdict(ss, es, n) == Some(false) && !LateSince(ss, es, n) then Unreachable else Fine
  {
    VerdictHolds(ss, es, n);
    SlowCountIsExact(ss, es, n);
  }

  // ---- timers on time ----

  /** Slow timers fire on time: within 30 s of the run's start. */
  ghost predicate TimersOnTime(ss: seq<State>, es: seq<Event>)
    requires IsRun(ss, es)
  {
    forall i | 0 <= i < |es| && es[i].SlowTimer? :: TimerOnTime(ss[i], es[i])
  }

  predicate TimerOnTime(s: State, e: Event)
    requires e.SlowTimer? && Enabled(s, e)
  {
    s.clock < s.requests[e.id].startedAt + 30_000
  }

  ghost predicate TimesInOrder(s: State) {
    && s.lastAnsweredAt <= s.clock
    && (forall id | id in s.requests :: s.requests[id].startedAt <= s.clock)
    && (forall id | id in s.requests && s.requests[id].phase.ReadingBody? ::
          s.requests[id].startedAt <= s.lastAnsweredAt)
  }

  /** What an event may do to its own run's times and to the shared clock. */
  predicate TimesOk(s: State, r: Request, s': State, r': Request) {
    && r'.startedAt == r.startedAt
    && (r'.phase.ReadingBody? ==>
          s'.lastAnsweredAt == s.clock || (r.phase.ReadingBody? && s'.lastAnsweredAt == s.lastAnsweredAt))
  }

  lemma OwnTimes(s: State, e: Event)
    requires Enabled(s, e) && Touched(e).Some? && !e.Begin?
    ensures var id, s' := Touched(e).value, Apply(s, e);
            id in s'.requests && TimesOk(s, s.requests[id], s', s'.requests[id])
  {
  }

  lemma ClockMoves(s: State, e: Event)
    requires Enabled(s, e)
    ensures var s' := Apply(s, e);
            s'.clock >= s.clock && (s'.lastAnsweredAt == s.lastAnsweredAt || s'.lastAnsweredAt == s.clock)
  {
  }

  lemma TimesStayInOrder(s: State, e: Event)
    requires Enabled(s, e) && TimesInOrder(s)
    ensures TimesInOrder(Apply(s, e))
  {
    OthersUntouched(s, e);
    ClockMoves(s, e);
    if Touched(e).Some? && !e.Begin? {
      OwnTimes(s, e);
    }
  }

  lemma {:induction false} TimesHold(ss: seq<State>, es: seq<Event>, n: nat)
    requires IsRun(ss, es) && n < |ss|
    ensures TimesInOrder(ss[n])
  {
    if n > 0 {
      TimesHold(ss, es, n - 1);
      TimesStayInOrder(ss[n - 1], es[n - 1]);
    }
  }

  /** Timers that fire on time make no late counts, so with them the status at rest is always the last verdict. */
  lemma {:induction false} OnTimeMeansNoLateCounts(ss: seq<State>, es: seq<Event>, n: nat)
    requires IsRun(ss, es) && TimersOnTime(ss, es) && n <= |es|
    ensures forall i | 0 <= i < n :: !LateCount(ss[i], es[i])
    ensures !LateSince(ss, es, n)
    ensures !AnyInFlight(ss[n]) ==> ss[n].apiStatus == PromisedStatus(LastVerdict(ss, es, n))
  {
    if n > 0 {
      OnTimeMeansNoLateCounts(ss, es, n - 1);
      TimesHold(ss, es, n - 1);
      if es[n - 1].SlowTimer? {
        assert TimerOnTime(ss[n - 1], es[n - 1]);
      }
    }
    if !AnyInFlight(ss[n]) {
      StatusAtRestIsLastVerdictIff(ss, es, n);
    }
  }

  // ---- a run that loses the outage ----

  /**
   * The exception happens: a slow timer that fires 40 s after its run began, while
   * the run is still reading its body, loses the outage screen another run has
   * just raised.
   */
  lemma LateTimerLosesTheOutage() returns (ss: seq<State>, es: seq<Event>)
    ensures IsRun(ss, es) && |es| == 7 && LateSince(ss, es, 7)
    ensures !AnyInFlight(ss[7])
    ensures LastVerdict(ss, es, 7) == Some(false) && ss[7].apiStatus == Fine
  {
    ss, es := OutageWhileReading();
    CountedThenFinished(ss[5]);
    ss, es := RunsOn(ss, es, SlowTimer(1));
    ss, es := RunsOn(ss, es, BodyRead(1));
    LastVerdictIsAt(ss, es, 4, 7);
    StatusAtRestIsLastVerdictIff(ss, es, 7);
  }

  lemma RunsOn(ss: seq<State>, es: seq<Event>, e: Event) returns (ss': seq<State>, es': seq<Event>)
    requires IsRun(ss, es) && Enabled(ss[|es|], e)
    ensures IsRun(ss', es') && es' == es + [e] && ss' == ss + [Apply(ss[|es|], e)]
  {
    es' := es + [e];
    ss' := ss + [Apply(ss[|es|], e)];
  }

  /** Run 1 has had its answer 40 s ago and still reads its body, its slow timer not fired yet. */
  predicate StillReading(s: State) {
    && s.clock == 1_040_000 && s.lastAnsweredAt == 1_000_000 && s.slowRequests == 0
    && 1 in s.requests && s.requests[1] == NewRequest(1_000_000, Other, true).(phase := ReadingBody)
  }

  lemma AnsweredAndReading() returns (ss: seq<State>, es: seq<Event>)
    ensures IsRun(ss, es) && |es| == 3
    ensures StillReading(ss[3]) && ss[3].requests.Keys == {1}
  {
    ss, es := [Initial(1_000_000)], [];
    ss, es := RunsOn(ss, es, Begin(1, Other, true));
    ss, es := RunsOn(ss, es, FetchReply(1, Response(200)));
    ss, es := RunsOn(ss, es, Tick(40_000));
  }

  /** Another run fails: its two steps from there. */
  lemma SecondRunFails(s: State)
    requires StillReading(s) && s.requests.Keys == {1}
    ensures Enabled(s, Begin(2, Other, false))
    ensures var s' := Apply(s, Begin(2, Other, false));
            && Enabled(s', FetchReply(2, NoResponse)) && Verdict(s', FetchReply(2, NoResponse)) == Some(false)
            && OutageStands(Apply(s', FetchReply(2, NoResponse)))
  {
    var s' := Apply(s, Begin(2, Other, false));
    assert s'.requests[2] == NewRequest(1_040_000, Other, false);
  }

  /** The outage screen is up, and only run 1 is in flight. */
  predicate OutageStands(s: State) {
    && s.apiStatus == Unreachable && StillReading(s)
    && s.requests.Keys == {1, 2} && s.requests[2].phase == Finished
  }

  lemma OutageWhileReading() returns (ss: seq<State>, es: seq<Event>)
    ensures IsRun(ss, es) && |es| == 5
    ensures Verdict(ss[4], es[4]) == Some(false) && OutageStands(ss[5])
  {
    ss, es := AnsweredAndReading();
    SecondRunFails(ss[3]);
    ss, es := RunsOn(ss, es, Begin(2, Other, false));
    ss, es := RunsOn(ss, es, FetchReply(2, NoResponse));
  }

  /** The late timer counts run 1, its body arrives, and "slow" is cleared. */
  lemma CountedThenFinished(s: State)
    requires OutageStands(s)
    ensures Enabled(s, SlowTimer(1)) && Verdict(s, SlowTimer(1)) == None
    ensures var s' := Apply(s, SlowTimer(1));
            && Enabled(s', BodyRead(1)) && Verdict(s', BodyRead(1)) == None
            && Apply(s', BodyRead(1)).apiStatus == Fine && !AnyInFlight(Apply(s', BodyRead(1)))
  {
  }

  /** The verdict of event i is the last one if no later event gives any. */
  lemma {:induction false} LastVerdictIsAt(ss: seq<State>, es: seq<Event>, i: nat, n: nat)
    requires i < n <= |es| <= |ss|
    requires Verdict(ss[i], es[i]).Some?
    requires forall k | i < k < n :: Verdict(ss[k], es[k]) == None
    ensures LastVerdict(ss, es, n) == Verdict(ss[i], es[i])
  {
    if i + 1 < n {
      LastVerdictIsAt(ss, es, i, n - 1);
    }
  }

  // ---- one refresh POST at a time ----

  predicate OkRenewal(posts: seq<Post>, renewedBy: Option<nat>) {
    renewedBy.Some? && renewedBy.value < |posts| && posts[renewedBy.value] == Closed(true)
  }

  /** A run inside round `round`, at attempt a, having slept through k retries of it. */
  predicate InRound(r: Request, posts: seq<Post>, round: nat, a: nat, k: nat) {
    && a <= |WAKE_RETRY_DELAYS_MS|
    && (!r.canRetry ==> a == 0)
    && !r.signedOut
    && (round == 1 ==> r.renewals == 0 && r.renewedBy == None && r.sends == a + 1 && r.sleptMs == SleptAfter(k))
    && (round == 2 ==> r.renewals == 1 && OkRenewal(posts, r.renewedBy)
                       && r.sleptMs <= 60_000 + SleptAfter(k)
                       && r.sends <= (if r.canRetry then 6 else 1) + a + 1)
    && 1 <= round <= 2
  }

  /** What a run may have done in all, whatever it is waiting for. */
  predicate WithinBounds(r: Request, posts: seq<Post>) {
    var rounds := if r.renewedBy == None then 1 else 2;
    && r.renewals <= 1
    && (r.renewedBy.Some? ==> r.renewals == 1 && OkRenewal(posts, r.renewedBy))
    && r.sends <= rounds * (if r.canRetry then 6 else 1)
    && r.sleptMs <= rounds * 60_000
    && (r.signedOut ==> r.renewals == 1 && r.renewedBy == None)
  }

  /** The run still holds the promise of a renewal. */
  predicate AwaitsRenewal(r: Request) {
    r.phase.AwaitingRefresh? || r.phase.RefreshDenied?
  }

  /** The run was renewed by the POST it joined, or reported the session expired because that one failed. */
  predicate OutcomeOf(r: Request, post: Post) {
    && post != Outstanding
    && (if post.ok then r.joined.Some? && r.renewedBy == r.joined && !r.signedOut
        else r.signedOut && r.renewedBy == None)
  }

  /** What became of a run's request for a renewal: none made, refused at once, or its POST's outcome. */
  predicate Settled(r: Request, posts: seq<Post>) {
    if r.renewals == 0 then r.joined == None && r.renewedBy == None && !r.signedOut
    else if r.joined == None then r.signedOut && r.renewedBy == None
    else r.joined.value < |posts| && posts[r.joined.value].Closed? && OutcomeOf(r, posts[r.joined.value])
  }

  predicate JustAsked(r: Request) {
    r.renewals == 1 && r.renewedBy == None && !r.signedOut
  }

  predicate RequestInv(r: Request, posts: seq<Post>) {
    && WithinBounds(r, posts)
    && (!AwaitsRenewal(r) ==> Settled(r, posts))
    && match r.phase
       case Fetching(round, a) => InRound(r, posts, round, a, a)
       case Sleeping(round, a, _) => a < |WAKE_RETRY_DELAYS_MS| && InRound(r, posts, round, a, a + 1) && r.canRetry
       case AwaitingRefresh(p) => p < |posts| && JustAsked(r) && r.joined == Some(p)
       case RefreshDenied => JustAsked(r) && r.joined == None
       case _ => true
  }

  ghost predicate RefreshInv(s: State) {
    && (forall p | 0 <= p < |s.posts| && !s.posts[p].Closed? :: s.refreshInFlight == Some(p))
    && (s.refreshInFlight.Some? ==> s.refreshInFlight.value < |s.posts| && !s.posts[s.refreshInFlight.value].Closed?)
    && (s.refreshInFlight.Some? && s.clock < s.refreshBlockedUntil ==>
          s.posts[s.refreshInFlight.value] == Answered(false))
  }

  ghost predicate RequestsInv(s: State) {
    forall id | id in s.requests :: RequestInv(s.requests[id], s.posts)
  }

  lemma RefreshStep(s: State, e: Event)
    requires RefreshInv(s) && Enabled(s, e)
    ensures RefreshInv(Apply(s, e))
  {
  }

  /** Refresh POSTs are only added, and one that was answered keeps its outcome. */
  ghost predicate PostsGrow(posts: seq<Post>, posts': seq<Post>) {
    && |posts| <= |posts'|
    && forall p | 0 <= p < |posts| && posts[p] != Outstanding ::
         posts'[p] == posts[p] || posts'[p] == Closed(posts[p].ok)
  }

  lemma PostsStep(s: State, e: Event)
    requires Enabled(s, e)
    ensures PostsGrow(s.posts, Apply(s, e).posts)
  {
  }

  lemma RequestInvGrows(r: Request, posts: seq<Post>, posts': seq<Post>)
    requires RequestInv(r, posts) && PostsGrow(posts, posts')
    ensures RequestInv(r, posts')
  {
  }

  /** The runs an event leaves alone. */
  function Touched(e: Event): Option<nat> {
    match e
    case Begin(id, _, _) => Some(id)
    case SlowTimer(id) => Some(id)
    case FetchReply(id, _) => Some(id)
    case Wake(id) => Some(id)
    case Resume(id) => Some(id)
    case BodyRead(id) => Some(id)
    case ErrorRead(id, _) => Some(id)
    case _ => None
  }

  lemma OthersUntouched(s: State, e: Event)
    requires Enabled(s, e)
    ensures var s' := Apply(s, e);
            && (forall id | id in s'.requests && Some(id) != Touched(e) ::
                  id in s.requests && s'.requests[id] == s.requests[id])
            && s'.requests.Keys >= s.requests.Keys
  {
  }

  lemma RetryKeeps(s: State, id: nat, r: Request, reply: Reply)
    requires RequestInv(r, s.posts) && r.phase.Fetching?
    requires DelayAfter(r.canRetry, r.phase.attempt, reply).Some?
    ensures RequestInv(OnFetchReply(s, id, r, reply).requests[id], OnFetchReply(s, id, r, reply).posts)
  {
    var a := r.phase.attempt;
    SleptAfterIsBounded(a + 1);
    assert SleptAfter(a + 1) == SleptAfter(a) + DelayAfter(r.canRetry, a, reply).value;
  }

  /** Moving past the renewal keeps what the run has done. */
  lemma PhaseKeeps(r: Request, posts: seq<Post>, phase: Phase)
    requires WithinBounds(r, posts) && Settled(r, posts)
    requires phase.ReadingBody? || phase.ReadingError? || phase.Finished?
    ensures RequestInv(r.(phase := phase), posts)
  {
  }

  lemma RespondKeeps(s: State, id: nat, r: Request, status: nat)
    requires WithinBounds(r, s.posts) && Settled(r, s.posts)
    ensures RequestInv(Respond(s, id, r, status).requests[id], Respond(s, id, r, status).posts)
  {
    PhaseKeeps(r, s.posts, if IsOk(status) then ReadingBody else ReadingError(status));
  }

  lemma FinishKeeps(s: State, id: nat, r: Request)
    requires WithinBounds(r, s.posts) && Settled(r, s.posts)
    ensures RequestInv(Finish(s, id, r).requests[id], Finish(s, id, r).posts)
  {
    PhaseKeeps(r, s.posts, Finished);
  }

  lemma AskKeeps(s: State, r: Request)
    requires RefreshInv(s) && RequestInv(r, s.posts) && r.phase.Fetching? && r.phase.round == 1
    ensures var (s', phase) := RefreshSession(s);
            RequestInv(Waiting(r, phase), s'.posts)
  {
  }

  lemma LastReplyKeeps(s: State, id: nat, r: Request, reply: Reply)
    requires RefreshInv(s) && RequestInv(r, s.posts) && r.phase.Fetching?
    requires DelayAfter(r.canRetry, r.phase.attempt, reply) == None
    ensures RequestInv(OnFetchReply(s, id, r, reply).requests[id], OnFetchReply(s, id, r, reply).posts)
  {
    if reply == NoResponse {
      FinishKeeps(s.(apiStatus := Unreachable), id, r);
    } else if r.phase.round == 1 && reply.status == 401 && !NeverRefreshes(r.path) {
      AskKeeps(s, r);
    } else {
      RespondKeeps(s, id, r, reply.status);
    }
  }

  lemma ReplyKeeps(s: State, id: nat, r: Request, reply: Reply)
    requires RefreshInv(s) && RequestInv(r, s.posts) && r.phase.Fetching?
    ensures RequestInv(OnFetchReply(s, id, r, reply).requests[id], OnFetchReply(s, id, r, reply).posts)
  {
    if DelayAfter(r.canRetry, r.phase.attempt, reply).Some? {
      RetryKeeps(s, id, r, reply);
    } else {
      LastReplyKeeps(s, id, r, reply);
    }
  }

  lemma WakeKeeps(s: State, id: nat, r: Request)
    requires RequestInv(r, s.posts) && r.phase.Sleeping?
    ensures RequestInv(OnWake(s, id, r).requests[id], s.posts)
  {
    SleptAfterIsBounded(r.phase.attempt + 1);
  }

  lemma ResumeKeeps(s: State, id: nat, r: Request)
    requires RequestInv(r, s.posts) && (r.phase.RefreshDenied? || r.phase.AwaitingRefresh?)
    requires r.phase.AwaitingRefresh? ==> r.phase.post < |s.posts| && s.posts[r.phase.post].Closed?
    ensures RequestInv(OnResume(s, id, r).requests[id], OnResume(s, id, r).posts)
  {
    if r.phase.RefreshDenied? || !s.posts[r.phase.post].ok {
      RespondKeeps(s, id, r.(signedOut := true), 401);
    }
  }

  lemma TimerKeeps(s: State, id: nat, r: Request)
    requires RequestInv(r, s.posts)
    ensures RequestInv(OnSlowTimer(s, id, r).requests[id], s.posts)
  {
  }

  /** What an event leaves of its own run is within bounds. */
  ghost predicate OwnKept(s: State, e: Event, id: nat)
    requires Enabled(s, e)
  {
    var s' := Apply(s, e);
    id in s'.requests && RequestInv(s'.requests[id], s'.posts)
  }

  lemma ErrorReadKeeps(s: State, id: nat, r: Request, hasApiError: bool)
    requires RequestInv(r, s.posts) && r.phase.ReadingError?
    ensures RequestInv(OnErrorRead(s, id, r, hasApiError).requests[id], OnErrorRead(s, id, r, hasApiError).posts)
  {
    FinishKeeps(s.(apiStatus := StatusAfterError(s, r, hasApiError)), id, r);
  }

  lemma EndingKeeps(s: State, e: Event, id: nat)
    requires Enabled(s, e) && Touched(e) == Some(id) && (e.Resume? || e.BodyRead? || e.ErrorRead?)
    requires RequestInv(s.requests[id], s.posts)
    ensures OwnKept(s, e, id)
  {
    match e
    case Resume(_) => ResumeKeeps(s, id, s.requests[id]);
    case BodyRead(_) => FinishKeeps(s, id, s.requests[id]);
    case ErrorRead(_, hasApiError) => ErrorReadKeeps(s, id, s.requests[id], hasApiError);
    case _ =>
  }

  lemma GoingOnKeeps(s: State, e: Event, id: nat)
    requires RefreshInv(s) && Enabled(s, e) && Touched(e) == Some(id) && (e.SlowTimer? || e.FetchReply? || e.Wake?)
    requires RequestInv(s.requests[id], s.posts)
    ensures OwnKept(s, e, id)
  {
    match e
    case SlowTimer(_) => TimerKeeps(s, id, s.requests[id]);
    case FetchReply(_, reply) => ReplyKeeps(s, id, s.requests[id], reply);
    case Wake(_) => WakeKeeps(s, id, s.requests[id]);
    case _ =>
  }

  lemma TouchedKeeps(s: State, e: Event, id: nat)
    requires RefreshInv(s) && RequestsInv(s) && Enabled(s, e) && Touched(e) == Some(id)
    ensures OwnKept(s, e, id)
  {
    if e.Begin? {
    } else if e.Resume? || e.BodyRead? || e.ErrorRead? {
      EndingKeeps(s, e, id);
    } else {
      GoingOnKeeps(s, e, id);
    }
  }

  lemma RequestsStep(s: State, e: Event)
    requires RefreshInv(s) && RequestsInv(s) && Enabled(s, e)
    ensures RequestsInv(Apply(s, e))
  {
    var s' := Apply(s, e);
    PostsStep(s, e);
    OthersUntouched(s, e);
    forall id | id in s'.requests ensures RequestInv(s'.requests[id], s'.posts) {
      if Some(id) == Touched(e) {
        TouchedKeeps(s, e, id);
      } else {
        RequestInvGrows(s.requests[id], s.posts, s'.posts);
      }
    }
  }

  lemma {:induction false} RefreshHolds(ss: seq<State>, es: seq<Event>, n: nat)
    requires IsRun(ss, es) && n < |ss|
    ensures RefreshInv(ss[n]) && RequestsInv(ss[n])
  {
    if n > 0 {
      RefreshHolds(ss, es, n - 1);
      RefreshStep(ss[n - 1], es[n - 1]);
      RequestsStep(ss[n - 1], es[n - 1]);
    }
  }

  /** At most one refresh POST is unfinished, and it is the one later 401s join. */
  lemma SingleFlight(ss: seq<State>, es: seq<Event>, n: nat, p: nat, q: nat)
    requires IsRun(ss, es) && n < |ss|
    requires p < |ss[n].posts| && q < |ss[n].posts|
    requires !ss[n].posts[p].Closed? && !ss[n].posts[q].Closed?
    ensures p == q && ss[n].refreshInFlight == Some(p)
  {
    RefreshHolds(ss, es, n);
  }

  /** This reply makes its run ask for a renewal. */
  predicate Asks(s: State, e: Event) {
    && e.FetchReply? && Enabled(s, e)
    && e.reply == Response(401) && s.requests[e.id].phase.round == 1 && s.requests[e.id].path == Other
  }

  /** The run holds p's promise, or a refusal given because p had just failed. */
  predicate SharesFate(r: Request, posts: seq<Post>, p: nat) {
    && p < |posts| && r.renewals == 1
    && (r.joined == Some(p) || (r.joined == None && posts[p] != Outstanding && !posts[p].ok))
  }

  lemma AskingJoins(s: State, e: Event, p: nat)
    requires RefreshInv(s) && RequestsInv(s) && Asks(s, e)
    requires p < |s.posts| && !s.posts[p].Closed?
    ensures var s' := Apply(s, e);
            s'.posts == s.posts && e.id in s'.requests && SharesFate(s'.requests[e.id], s'.posts, p)
  {
    assert RequestInv(s.requests[e.id], s.posts);
  }

  /** A run asks once: afterwards no event changes which promise it took. */
  lemma JoinedIsKept(s: State, e: Event, id: nat)
    requires Enabled(s, e) && id in s.requests
    requires RequestInv(s.requests[id], s.posts) && s.requests[id].renewals == 1
    ensures var s' := Apply(s, e);
            && id in s'.requests
            && s'.requests[id].renewals == 1 && s'.requests[id].joined == s.requests[id].joined
  {
    if Touched(e) != Some(id) {
      OthersUntouched(s, e);
    }
  }

  lemma FateIsKept(s: State, e: Event, id: nat, p: nat)
    requires RequestsInv(s) && Enabled(s, e)
    requires id in s.requests && SharesFate(s.requests[id], s.posts, p)
    ensures var s' := Apply(s, e);
            id in s'.requests && SharesFate(s'.requests[id], s'.posts, p)
  {
    JoinedIsKept(s, e, id);
    PostsStep(s, e);
  }

  lemma {:induction false} FateHolds(ss: seq<State>, es: seq<Event>, j: nat, n: nat, p: nat)
    requires IsRun(ss, es) && j < n <= |es| && Asks(ss[j], es[j])
    requires p < |ss[j].posts| && !ss[j].posts[p].Closed?
    ensures ss[j + 1].posts == ss[j].posts
    ensures es[j].id in ss[n].requests && SharesFate(ss[n].requests[es[j].id], ss[n].posts, p)
  {
    RefreshHolds(ss, es, n - 1);
    if j + 1 == n {
      AskingJoins(ss[j], es[j], p);
    } else {
      FateHolds(ss, es, j, n - 1, p);
      FateIsKept(ss[n - 1], es[n - 1], es[j].id, p);
    }
  }

  /**
   * A run whose 401 comes while POST p is unfinished sends no other POST and, at
   * every later moment, either still waits or has got p's outcome: renewed by p
   * if p was ok, reported as expired if it was not.
   */
  lemma JoinsTheOutcome(ss: seq<State>, es: seq<Event>, j: nat, n: nat, p: nat)
    requires IsRun(ss, es) && j < n <= |es| && Asks(ss[j], es[j])
    requires p < |ss[j].posts| && !ss[j].posts[p].Closed?
    ensures ss[j + 1].posts == ss[j].posts
    ensures p < |ss[n].posts| && es[j].id in ss[n].requests
    ensures var r := ss[n].requests[es[j].id];
            || r.phase == AwaitingRefresh(p) || r.phase == RefreshDenied
            || (OutcomeOf(r, ss[n].posts[p]) && (r.renewedBy.Some? ==> r.renewedBy == Some(p)))
  {
    FateHolds(ss, es, j, n, p);
    RefreshHolds(ss, es, n);
    assert RequestInv(ss[n].requests[es[j].id], ss[n].posts);
  }

  /** A renewal comes from the POST joined, and an expiry from a refusal at once or from that POST's failure. */
  lemma OutcomeIsThePosts(ss: seq<State>, es: seq<Event>, n: nat, id: nat)
    requires IsRun(ss, es) && n < |ss| && id in ss[n].requests
    ensures var r, posts := ss[n].requests[id], ss[n].posts;
            && (r.joined.Some? ==> r.joined.value < |posts|)
            && (r.renewedBy.Some? ==> r.renewedBy == r.joined && posts[r.joined.value] == Closed(true))
            && (r.signedOut ==> r.joined == None || posts[r.joined.value] == Closed(false))
            && (r.renewals > 0 && !AwaitsRenewal(r) ==> r.signedOut || r.renewedBy.Some?)
  {
    RefreshHolds(ss, es, n);
    assert RequestInv(ss[n].requests[id], ss[n].posts);
  }

  /**
   * What each run does in all: one renewal at most; a second round only after
   * an ok renewal; at most 6 fetches and 60 s of sleep a round; a request that
   * may not be retried (every mutation) is sent once a round; and a run that
   * reports the session expired asked for a renewal, got none and sent no more.
   */
  lemma RequestBounds(ss: seq<State>, es: seq<Event>, n: nat, id: nat)
    requires IsRun(ss, es) && n < |ss| && id in ss[n].requests
    ensures var r := ss[n].requests[id];
            && r.renewals <= 1
            && (r.renewedBy.Some? ==> OkRenewal(ss[n].posts, r.renewedBy))
            && r.sends <= (if r.renewedBy == None then 1 else 2) * (if r.canRetry then 6 else 1)
            && r.sleptMs <= (if r.renewedBy == None then 1 else 2) * 60_000
            && (!r.canRetry && r.sends == 2 ==> OkRenewal(ss[n].posts, r.renewedBy))
            && (r.signedOut ==> r.renewals == 1 && r.renewedBy == None)
            && (r.phase.Fetching? ==> r.phase.attempt < 6)
  {
    RefreshHolds(ss, es, n);
  }

  // ---- the cooldown ----

  /** Event e is the API's refusal of a refresh POST. */
  predicate Rejects(e: Event) {
    e.PostReply? && e.reply.Response? && !(200 <= e.reply.status < 300)
  }

  /** Event e is an ok answer to a login, register or MFA challenge. */
  predicate OpensSessionNow(s: State, e: Event) {
    && e.FetchReply? && e.id in s.requests && e.reply.Response? && 200 <= e.reply.status < 300
    && (s.requests[e.id].path == Login || s.requests[e.id].path == Register || s.requests[e.id].path == MfaChallenge)
  }

  lemma CooldownStep(s: State, e: Event, until: nat)
    requires Enabled(s, e) && !OpensSessionNow(s, e)
    requires s.refreshBlockedUntil >= until && until <= s.clock + 60_000
    ensures Apply(s, e).refreshBlockedUntil >= until && Apply(s, e).clock >= s.clock
    ensures |Apply(s, e).posts| > |s.posts| ==> s.clock >= until
  {
  }

  lemma {:induction false} CooldownHolds(ss: seq<State>, es: seq<Event>, i: nat, j: nat)
    requires IsRun(ss, es) && i < j <= |es| && Rejects(es[i])
    requires forall k | i < k < j :: !OpensSessionNow(ss[k], es[k])
    ensures ss[j].refreshBlockedUntil >= ss[i].clock + 60_000 && ss[j].clock >= ss[i].clock
  {
    if i + 1 < j {
      CooldownHolds(ss, es, i, j - 1);
      CooldownStep(ss[j - 1], es[j - 1], ss[i].clock + 60_000);
    }
  }

  /**
   * After the API refuses a renewal at time t, no refresh POST is sent before
   * t + 60 s unless a login, register or MFA challenge succeeds in between.
   */
  lemma RefreshCooldown(ss: seq<State>, es: seq<Event>, i: nat, j: nat)
    requires IsRun(ss, es) && i < j < |es| && Rejects(es[i])
    requires forall k | i < k < j :: !OpensSessionNow(ss[k], es[k])
    requires |ss[j + 1].posts| > |ss[j].posts|
    ensures ss[j].clock >= ss[i].clock + 60_000
  {
    CooldownHolds(ss, es, i, j);
  }

  // ---- every run comes to an end ----

  /** How many more of its own events a run can take. */
  function StepsLeft(phase: Phase): int {
    match phase
    case Fetching(round, a) => 2 * (|WAKE_RETRY_DELAYS_MS| - a) + if round == 1 then 14 else 2
    case Sleeping(round, a, _) => 2 * (|WAKE_RETRY_DELAYS_MS| - a) + if round == 1 then 13 else 1
    case AwaitingRefresh(_) => 13
    case RefreshDenied => 13
    case ReadingBody => 1
    case ReadingError(_) => 1
    case Finished => 0
  }

  /** Event e moves run id on: anything of its own but its start and its slow timer. */
  predicate Advances(e: Event, id: nat) {
    Touched(e) == Some(id) && !e.Begin? && !e.SlowTimer?
  }

  function AdvancesOf(es: seq<Event>, id: nat): nat {
    if es == [] then 0 else AdvancesOf(es[..|es| - 1], id) + if Advances(es[|es| - 1], id) then 1 else 0
  }

  lemma ReplyAdvances(s: State, id: nat, r: Request, reply: Reply)
    requires r.phase.Fetching? && RequestInv(r, s.posts)
    ensures id in OnFetchReply(s, id, r, reply).requests
    ensures StepsLeft(OnFetchReply(s, id, r, reply).requests[id].phase) < StepsLeft(r.phase)
  {
  }

  lemma AdvanceCosts(s: State, e: Event, id: nat)
    requires RequestsInv(s) && Enabled(s, e) && id in s.requests
    ensures var s' := Apply(s, e);
            && id in s'.requests
            && StepsLeft(s'.requests[id].phase) + (if Advances(e, id) then 1 else 0) <= StepsLeft(s.requests[id].phase)
  {
    if Touched(e) != Some(id) {
      OthersUntouched(s, e);
    } else {
      assert RequestInv(s.requests[id], s.posts);
      if e.FetchReply? {
        ReplyAdvances(s, id, s.requests[id], e.reply);
      }
    }
  }

  lemma StepsLeftIsNat(r: Request, posts: seq<Post>)
    requires RequestInv(r, posts)
    ensures StepsLeft(r.phase) >= 0
  {
  }

  /** Run id has spent its events out of 24; before it begins it has had none. */
  ghost predicate WithinSteps(s: State, spent: nat, id: nat) {
    if id in s.requests then spent + StepsLeft(s.requests[id].phase) <= 24 else spent == 0
  }

  lemma StepsStep(s: State, e: Event, spent: nat, id: nat)
    requires RequestsInv(s) && Enabled(s, e) && WithinSteps(s, spent, id)
    ensures WithinSteps(Apply(s, e), spent + (if Advances(e, id) then 1 else 0), id)
  {
    OthersUntouched(s, e);
    if id in s.requests {
      AdvanceCosts(s, e, id);
    }
  }

  /** A run takes at most 24 events of its own, whatever is answered and however others interleave. */
  lemma {:induction false} RunsEnd(ss: seq<State>, es: seq<Event>, n: nat, id: nat)
    requires IsRun(ss, es) && n <= |es|
    ensures WithinSteps(ss[n], AdvancesOf(es[..n], id), id)
    ensures AdvancesOf(es[..n], id) <= 24
  {
    if n > 0 {
      RunsEnd(ss, es, n - 1, id);
      RefreshHolds(ss, es, n - 1);
      StepsStep(ss[n - 1], es[n - 1], AdvancesOf(es[..n - 1], id), id);
      assert es[..n][..n - 1] == es[..n - 1];
    }
    RefreshHolds(ss, es, n);
    if id in ss[n].requests {
      StepsLeftIsNat(ss[n].requests[id], ss[n].posts);
    }
  }

  /** A run never waits on nothing: its next event, or its refresh POST's, is due now or at a known time. */
  lemma NobodyIsStuck(ss: seq<State>, es: seq<Event>, n: nat, id: nat)
    requires IsRun(ss, es) && n < |ss| && id in ss[n].requests && InFlight(ss[n].requests[id])
    ensures var s, phase := ss[n], ss[n].requests[id].phase;
            match phase
            case Fetching(_, _) => Enabled(s, FetchReply(id, NoResponse))
            case Sleeping(_, _, until) =>
              forall ms: nat | s.clock + ms >= until :: Enabled(Apply(s, Tick(ms)), Wake(id))
            case AwaitingRefresh(p) =>
              Enabled(s, PostReply(p, NoResponse)) || Enabled(s, PostClear(p)) || Enabled(s, Resume(id))
            case RefreshDenied => Enabled(s, Resume(id))
            case ReadingBody => Enabled(s, BodyRead(id))
            case _ => Enabled(s, ErrorRead(id, true))
  {
    RefreshHolds(ss, es, n);
    assert RequestInv(ss[n].requests[id], ss[n].posts);
  }
}
