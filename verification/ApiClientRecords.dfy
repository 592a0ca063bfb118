/**
 * What an interleaving of `apiRequest` runs did, read off its events alone, and
 * that the client's variables and each run's locals say exactly that: when the
 * cooldown ends, when the API last answered, which renewals were sent, what each
 * run sent, slept and asked for, and when a slow timer counts.
 */
module ApiClientRecords {
  import opened Options
  import opened WakeRetry
  import opened ApiClient
  import opened ApiClientRuns

  // ---- the cooldown and the last answer ----

  /** Until when renewals are refused: 60 s from the last refusal, unless a session was opened since. */
  function BlockedUntil(ss: seq<State>, es: seq<Event>, n: nat): nat
    requires n <= |es| <= |ss|
  {
    if n == 0 || OpensSessionNow(ss[n - 1], es[n - 1]) then 0
    else if Rejects(es[n - 1]) then ss[n - 1].clock + 60_000
    else BlockedUntil(ss, es, n - 1)
  }

  lemma BlockedUntilStep(s: State, e: Event)
    requires Enabled(s, e)
    ensures Apply(s, e).refreshBlockedUntil
            == if OpensSessionNow(s, e) then 0 else if Rejects(e) then s.clock + 60_000 else s.refreshBlockedUntil
  {
    if e.FetchReply? {
      DelayAfterIff(s.requests[e.id].canRetry, s.requests[e.id].phase.attempt, e.reply);
    }
  }

  lemma {:induction false} BlockedUntilHolds(ss: seq<State>, es: seq<Event>, n: nat)
    requires IsRun(ss, es) && n <= |es|
    ensures ss[n].refreshBlockedUntil == BlockedUntil(ss, es, n)
  {
    if n > 0 {
      BlockedUntilHolds(ss, es, n - 1);
      BlockedUntilStep(ss[n - 1], es[n - 1]);
    }
  }

  /** The run was told that its renewal came to nothing. */
  predicate LeftWithout(s: State, e: Event) {
    e.Resume? && Enabled(s, e) && !Renewed(s, e)
  }

  /** The run's renewal came through. */
  predicate Renewed(s: State, e: Event) {
    && e.Resume? && Enabled(s, e)
    && s.requests[e.id].phase.AwaitingRefresh? && s.posts[s.requests[e.id].phase.post] == Closed(true)
  }

  /** A reply that neither the retry loop nor the renewal takes: the run's answer. */
  predicate IsAnswer(s: State, e: Event) {
    && e.FetchReply? && Enabled(s, e) && e.reply.Response? && !Asks(s, e)
    && !TriedAgain(s.requests[e.id].canRetry, s.requests[e.id].phase.attempt, e.reply)
  }

  /** When the API itself last answered: an edge's 502, 503 or 504 is no answer of its own. */
  function AnsweredAt(ss: seq<State>, es: seq<Event>, n: nat): nat
    requires n <= |es| <= |ss|
  {
    if n == 0 then 0
    else if ApiAnswers(ss[n - 1], es[n - 1]) then ss[n - 1].clock
    else AnsweredAt(ss, es, n - 1)
  }

  predicate ApiAnswers(s: State, e: Event) {
    LeftWithout(s, e)
    || (IsAnswer(s, e) && e.reply.status != 502 && e.reply.status != 503 && e.reply.status != 504)
  }

  lemma AnsweredAtStep(s: State, e: Event)
    requires Enabled(s, e)
    ensures Apply(s, e).lastAnsweredAt == if ApiAnswers(s, e) then s.clock else s.lastAnsweredAt
  {
    if e.FetchReply? {
      DelayAfterIff(s.requests[e.id].canRetry, s.requests[e.id].phase.attempt, e.reply);
    }
  }

  lemma {:induction false} AnsweredAtHolds(ss: seq<State>, es: seq<Event>, n: nat)
    requires IsRun(ss, es) && n <= |es|
    ensures ss[n].lastAnsweredAt == AnsweredAt(ss, es, n)
  {
    if n > 0 {
      AnsweredAtHolds(ss, es, n - 1);
      AnsweredAtStep(ss[n - 1], es[n - 1]);
    }
  }

  // ---- renewals ----

  ghost predicate NonePending(s: State) {
    forall p | 0 <= p < |s.posts| :: s.posts[p].Closed?
  }

  /**
   * A 401 that finds no refresh POST pending sends one and waits for it, unless
   * the cooldown has not ended: then it sends none and is refused.
   */
  lemma RenewalIsSent(ss: seq<State>, es: seq<Event>, j: nat)
    requires IsRun(ss, es) && j < |es| && Asks(ss[j], es[j]) && NonePending(ss[j])
    ensures es[j].id in ss[j + 1].requests
    ensures var r := ss[j + 1].requests[es[j].id];
            if ss[j].clock < BlockedUntil(ss, es, j)
            then ss[j + 1].posts == ss[j].posts && r.phase == RefreshDenied
            else ss[j + 1].posts == ss[j].posts + [Outstanding] && r.phase == AwaitingRefresh(|ss[j].posts|)
  {
    BlockedUntilHolds(ss, es, j);
    RefreshHolds(ss, es, j);
  }

  /** No other event sends one. */
  lemma OnlyA401Renews(ss: seq<State>, es: seq<Event>, j: nat)
    requires IsRun(ss, es) && j < |es| && |ss[j + 1].posts| != |ss[j].posts|
    ensures Asks(ss[j], es[j]) && NonePending(ss[j])
  {
    RefreshHolds(ss, es, j);
  }

  /** A refresh POST counts as ok exactly if its reply was a 2xx. */
  lemma {:induction false} PostOutcomeIsItsReply(ss: seq<State>, es: seq<Event>, n: nat, p: nat) returns (i: nat)
    requires IsRun(ss, es) && n <= |es| && p < |ss[n].posts| && ss[n].posts[p] != Outstanding
    ensures i < n && es[i].PostReply? && es[i].post == p
    ensures ss[n].posts[p].ok <==> es[i].reply.Response? && 200 <= es[i].reply.status < 300
  {
    PostAnswered(ss[n - 1], es[n - 1], p);
    if es[n - 1].PostReply? && es[n - 1].post == p {
      i := n - 1;
    } else {
      i := PostOutcomeIsItsReply(ss, es, n - 1, p);
    }
  }

  /** A post's outcome is its reply's at the reply, and the same as before at every other event. */
  lemma PostAnswered(s: State, e: Event, p: nat)
    requires Enabled(s, e) && p < |Apply(s, e).posts| && Apply(s, e).posts[p] != Outstanding
    ensures var after := Apply(s, e).posts[p];
            if e.PostReply? && e.post == p then after.ok <==> e.reply.Response? && 200 <= e.reply.status < 300
            else p < |s.posts| && s.posts[p] != Outstanding && s.posts[p].ok == after.ok
  {
  }

  /** A run left without a renewal is answered with its 401. */
  lemma LeftWithThe401(ss: seq<State>, es: seq<Event>, j: nat)
    requires IsRun(ss, es) && j < |es| && es[j].Resume?
    ensures es[j].id in ss[j + 1].requests
    ensures var r := ss[j + 1].requests[es[j].id];
            if Renewed(ss[j], es[j]) then r.phase == Fetching(2, 0) else r.phase == ReadingError(401) && r.signedOut
  {
  }

  // ---- what each run did ----

  predicate Sends(s: State, e: Event, id: nat) {
    Touched(e) == Some(id) && (e.Begin? || e.Wake? || Renewed(s, e))
  }

  /** The delay a reply costs its run. */
  function Costs(s: State, e: Event, id: nat): nat {
    if e.FetchReply? && e.id == id && Enabled(s, e)
       && TriedAgain(s.requests[id].canRetry, s.requests[id].phase.attempt, e.reply)
    then BackoffMs(s.requests[id].phase.attempt) else 0
  }

  datatype Record = Record(sends: nat, sleptMs: nat, renewals: nat)

  /** What run id has done by the n-th event. */
  function RecordOf(ss: seq<State>, es: seq<Event>, n: nat, id: nat): Record
    requires n <= |es| <= |ss|
  {
    if n == 0 then Record(0, 0, 0)
    else
      var s, e, before := ss[n - 1], es[n - 1], RecordOf(ss, es, n - 1, id);
      Record(before.sends + (if Sends(s, e, id) then 1 else 0),
             before.sleptMs + Costs(s, e, id),
             before.renewals + if Asks(s, e) && e.id == id then 1 else 0)
  }

  /** The record the run itself keeps. */
  function OwnRecord(s: State, id: nat): Record {
    if id in s.requests then Record(s.requests[id].sends, s.requests[id].sleptMs, s.requests[id].renewals)
    else Record(0, 0, 0)
  }

  lemma ReplyRecord(s: State, e: Event, id: nat)
    requires Enabled(s, e) && e.FetchReply? && e.id == id
    ensures OwnRecord(Apply(s, e), id)
            == var r := s.requests[id];
               Record(r.sends, r.sleptMs + Costs(s, e, id), r.renewals + if Asks(s, e) then 1 else 0)
  {
    DelayAfterIff(s.requests[id].canRetry, s.requests[id].phase.attempt, e.reply);
  }

  lemma RecordStep(s: State, e: Event, id: nat)
    requires Enabled(s, e)
    ensures var before := OwnRecord(s, id);
            OwnRecord(Apply(s, e), id)
            == Record(before.sends + (if Sends(s, e, id) then 1 else 0), before.sleptMs + Costs(s, e, id),
                      before.renewals + if Asks(s, e) && e.id == id then 1 else 0)
  {
    if Touched(e) != Some(id) {
      OthersUntouched(s, e);
    } else if e.FetchReply? {
      ReplyRecord(s, e, id);
    }
  }

  /** A run's sends, sleep and renewals are those its events made. */
  lemma {:induction false} RecordsAreExact(ss: seq<State>, es: seq<Event>, n: nat, id: nat)
    requires IsRun(ss, es) && n <= |es|
    ensures OwnRecord(ss[n], id) == RecordOf(ss, es, n, id)
  {
    if n > 0 {
      RecordsAreExact(ss, es, n - 1, id);
      RecordStep(ss[n - 1], es[n - 1], id);
    }
  }

  // ---- waiting between attempts ----

  /** A reply worth another try puts its run to sleep and shows "slow"; no other reply does. */
  lemma RetrySleeps(ss: seq<State>, es: seq<Event>, j: nat)
    requires IsRun(ss, es) && j < |es| && es[j].FetchReply?
    ensures es[j].id in ss[j + 1].requests
    ensures var r, r' := ss[j].requests[es[j].id], ss[j + 1].requests[es[j].id];
            if TriedAgain(r.canRetry, r.phase.attempt, es[j].reply)
            then && r'.phase == Sleeping(r.phase.round, r.phase.attempt, ss[j].clock + BackoffMs(r.phase.attempt))
                 && ss[j + 1].apiStatus == Slow
            else !r'.phase.Sleeping?
  {
    var r := ss[j].requests[es[j].id];
    DelayAfterIff(r.canRetry, r.phase.attempt, es[j].reply);
  }

  lemma SleepsOn(s: State, e: Event, id: nat)
    requires Enabled(s, e) && id in s.requests && s.requests[id].phase.Sleeping? && e != Wake(id)
    ensures id in Apply(s, e).requests && Apply(s, e).requests[id].phase == s.requests[id].phase
  {
    if Touched(e) != Some(id) {
      OthersUntouched(s, e);
    }
  }

  lemma {:induction false} StillSleeping(ss: seq<State>, es: seq<Event>, j: nat, k: nat, id: nat)
    requires IsRun(ss, es) && j <= k <= |es|
    requires id in ss[j].requests && ss[j].requests[id].phase.Sleeping?
    requires forall i | j <= i < k :: es[i] != Wake(id)
    ensures id in ss[k].requests && ss[k].requests[id].phase == ss[j].requests[id].phase
  {
    if j < k {
      StillSleeping(ss, es, j, k - 1, id);
      SleepsOn(ss[k - 1], es[k - 1], id);
    }
  }

  /** The next attempt is sent no sooner than the delay after the reply, and is the next one of the same round. */
  lemma RetryWaits(ss: seq<State>, es: seq<Event>, j: nat, k: nat)
    requires IsRun(ss, es) && j < k < |es| && es[j].FetchReply? && es[k] == Wake(es[j].id)
    requires forall i | j < i < k :: es[i] != Wake(es[j].id)
    requires var r := ss[j].requests[es[j].id]; TriedAgain(r.canRetry, r.phase.attempt, es[j].reply)
    ensures var id := es[j].id;
            var phase := ss[j].requests[id].phase;
            && ss[k].clock >= ss[j].clock + BackoffMs(phase.attempt)
            && id in ss[k + 1].requests
            && ss[k + 1].requests[id].phase == Fetching(phase.round, phase.attempt + 1)
  {
    RetrySleeps(ss, es, j);
    StillSleeping(ss, es, j + 1, k, es[j].id);
  }

  // ---- slow timers ----

  predicate Fired(es: seq<Event>, n: nat, id: nat)
    requires n <= |es|
  {
    exists i | 0 <= i < n :: es[i] == SlowTimer(id)
  }

  /** A run's timer is armed until it fires or the run ends. */
  ghost predicate ArmedRight(s: State, es: seq<Event>, n: nat, id: nat)
    requires n <= |es|
  {
    if id in s.requests then s.requests[id].timerArmed <==> InFlight(s.requests[id]) && !Fired(es, n, id)
    else !Fired(es, n, id)
  }

  lemma FiredStep(es: seq<Event>, n: nat, id: nat)
    requires n < |es|
    ensures Fired(es, n + 1, id) <==> Fired(es, n, id) || es[n] == SlowTimer(id)
  {
  }

  /** What an event does to its own run's timer. */
  lemma OwnTimer(s: State, e: Event, id: nat)
    requires Enabled(s, e) && Touched(e) == Some(id) && RequestsInv(s)
    ensures id in Apply(s, e).requests
    ensures var r' := Apply(s, e).requests[id];
            if e.Begin? then id !in s.requests && r'.timerArmed && InFlight(r')
            else && id in s.requests
                 && (r'.timerArmed <==> s.requests[id].timerArmed && !e.SlowTimer? && InFlight(r'))
                 && (e.SlowTimer? ==> s.requests[id].timerArmed)
                 && (!e.SlowTimer? ==> InFlight(s.requests[id]))
  {
    if e.FetchReply? {
      ReplyTimer(s, id, s.requests[id], e.reply);
    }
  }

  lemma ReplyTimer(s: State, id: nat, r: Request, reply: Reply)
    requires r.phase.Fetching?
    ensures id in OnFetchReply(s, id, r, reply).requests
    ensures var r' := OnFetchReply(s, id, r, reply).requests[id];
            r'.timerArmed <==> r.timerArmed && InFlight(r')
  {
  }

  lemma ArmedStep(s: State, es: seq<Event>, n: nat, id: nat)
    requires n < |es| && Enabled(s, es[n]) && RequestsInv(s) && ArmedRight(s, es, n, id)
    ensures ArmedRight(Apply(s, es[n]), es, n + 1, id)
  {
    FiredStep(es, n, id);
    if Touched(es[n]) != Some(id) {
      OthersUntouched(s, es[n]);
    } else {
      OwnTimer(s, es[n], id);
    }
  }

  lemma {:induction false} ArmedHolds(ss: seq<State>, es: seq<Event>, n: nat, id: nat)
    requires IsRun(ss, es) && n <= |es|
    ensures ArmedRight(ss[n], es, n, id)
  {
    if n > 0 {
      ArmedHolds(ss, es, n - 1, id);
      RefreshHolds(ss, es, n - 1);
      ArmedStep(ss[n - 1], es, n - 1, id);
    }
  }

  /** A run's slow timer can fire from 3 s after its start, once, while the run is in flight. */
  lemma SlowTimerIsDueIff(ss: seq<State>, es: seq<Event>, n: nat, id: nat)
    requires IsRun(ss, es) && n <= |es| && id in ss[n].requests
    ensures Enabled(ss[n], SlowTimer(id))
            <==> InFlight(ss[n].requests[id]) && !Fired(es, n, id)
                 && ss[n].clock >= ss[n].requests[id].startedAt + 3_000
  {
    ArmedHolds(ss, es, n, id);
  }

  /** A slow timer counts its run and shows "slow" exactly if the API has not answered in the last 30 s. */
  lemma SlowTimerCountsIff(ss: seq<State>, es: seq<Event>, j: nat)
    requires IsRun(ss, es) && j < |es| && es[j].SlowTimer?
    ensures es[j].id in ss[j + 1].requests
    ensures var s, s' := ss[j], ss[j + 1];
            if s.clock - AnsweredAt(ss, es, j) >= 30_000
            then s'.slowRequests == s.slowRequests + 1 && s'.apiStatus == Slow && s'.requests[es[j].id].countedSlow
            else && s'.slowRequests == s.slowRequests && s'.apiStatus == s.apiStatus
                 && !s'.requests[es[j].id].countedSlow
  {
    AnsweredAtHolds(ss, es, j);
    CountHolds(ss, es, j);
  }

  // ---- what moves the status ----

  /** The event ends its run and leaves no counted run in flight. */
  predicate EndsLastSlow(e: Event, s': State) {
    && Touched(e).Some? && Touched(e).value in s'.requests && s'.requests[Touched(e).value].phase == Finished
    && SlowOnes(s'.requests) == {}
  }

  /**
   * Every change of the status has its cause: "slow" comes of a retry or of a slow
   * timer that counts, "unreachable" of that verdict; and "ok" of a healthy probe,
   * of a reachable verdict while unreachable, or of the end of the last counted run
   * while slow. An answer alone never takes down "slow".
   */
  lemma StatusMoves(ss: seq<State>, es: seq<Event>, j: nat)
    requires IsRun(ss, es) && j < |es| && ss[j + 1].apiStatus != ss[j].apiStatus
    ensures var s, e, s' := ss[j], es[j], ss[j + 1];
            match s'.apiStatus
            case Slow =>
              || (e.FetchReply? && TriedAgain(s.requests[e.id].canRetry, s.requests[e.id].phase.attempt, e.reply))
              || (e.SlowTimer? && s.clock - AnsweredAt(ss, es, j) >= 30_000)
            case Unreachable => Verdict(s, e) == Some(false)
            case Fine =>
              || e == HealthOk
              || (s.apiStatus == Unreachable && Verdict(s, e) == Some(true))
              || (s.apiStatus == Slow && EndsLastSlow(e, s'))
  {
    AnsweredAtHolds(ss, es, j);
    SlowCountIsExact(ss, es, j + 1);
    UnreachableIsAVerdict(ss[j], es[j]);
    if es[j].FetchReply? {
      RetrySleeps(ss, es, j);
    }
    if ss[j + 1].slowRequests == 0 {
      NoSlowOnes(ss[j + 1].requests);
    }
  }

  lemma NoSlowOnes(requests: map<nat, Request>)
    requires |SlowOnes(requests)| == 0
    ensures SlowOnes(requests) == {}
  {
  }
}
