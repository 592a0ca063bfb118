/**
 * The circuit breaker around a queue worker
 * (apps/api/src/common/queue/redis-circuit-breaker.ts). Timers live in the event
 * loop; the breaker only holds the handle of the last one it armed.
 */
module CircuitBreaker {
  import opened Options
  import opened Powers

  const ERROR_THRESHOLD: nat := 3
  const INITIAL_BACKOFF_MS: nat := 5_000
  const MAX_BACKOFF_MS: nat := 300_000
  const BACKOFF_MULTIPLIER: nat := 2

  datatype Log = PauseWarning | RecoveryNotice

  /**
   * The breaker's fields, then its surroundings: the timers armed in the event
   * loop with the delay each was given, the next handle, whether the worker is
   * paused, and what was logged.
   */
  datatype State = State(
    consecutiveErrors: nat, tripped: bool, backoffMs: nat, resumeTimer: Option<nat>,
    armed: map<nat, nat>, nextTimer: nat, paused: bool, logs: seq<Log>)

  const INITIAL: State := State(0, false, INITIAL_BACKOFF_MS, None, map[], 0, false, [])

  /** An error event; a pause may fail when Redis is unreachable. */
  datatype Event = Error(pauseWorks: bool) | Healthy | Fire(timer: nat)

  predicate Enabled(s: State, e: Event) {
    e.Fire? ==> e.timer in s.armed
  }

  function Cleared(s: State): map<nat, nat> {
    if s.resumeTimer.Some? then s.armed - {s.resumeTimer.value} else s.armed
  }

  function ScheduleResume(s: State): State {
    s.(resumeTimer := Some(s.nextTimer), armed := Cleared(s)[s.nextTimer := s.backoffMs], nextTimer := s.nextTimer + 1)
  }

  function OnError(s: State, pauseWorks: bool): State {
    var s := s.(consecutiveErrors := s.consecutiveErrors + 1);
    if s.tripped then
      var doubled := s.backoffMs * BACKOFF_MULTIPLIER;
      ScheduleResume(s.(backoffMs := if doubled < MAX_BACKOFF_MS then doubled else MAX_BACKOFF_MS))
    else if s.consecutiveErrors < ERROR_THRESHOLD then s
    else ScheduleResume(s.(tripped := true, paused := s.paused || pauseWorks, logs := s.logs + [PauseWarning]))
  }

  function OnHealthy(s: State): State {
    s.(armed := Cleared(s), resumeTimer := None,
       logs := if s.tripped then s.logs + [RecoveryNotice] else s.logs,
       consecutiveErrors := 0, tripped := false, backoffMs := INITIAL_BACKOFF_MS)
  }

  function OnFire(s: State, timer: nat): State {
    s.(armed := s.armed - {timer}, consecutiveErrors := 0, paused := false)
  }

  function Apply(s: State, e: Event): State {
    match e
    case Error(pauseWorks) => OnError(s, pauseWorks)
    case Healthy => OnHealthy(s)
    case Fire(timer) => OnFire(s, timer)
  }

  class RedisCircuitBreaker {
    var consecutiveErrors: nat
    var tripped: bool
    var backoffMs: nat
    var resumeTimer: Option<nat>
    var armed: map<nat, nat>
    var nextTimer: nat
    var paused: bool
    var logs: seq<Log>

    function Snapshot(): State
      reads this
    {
      State(consecutiveErrors, tripped, backoffMs, resumeTimer, armed, nextTimer, paused, logs)
    }

    constructor ()
      ensures Snapshot() == INITIAL
    {
      consecutiveErrors := 0;
      tripped := false;
      backoffMs := INITIAL_BACKOFF_MS;
      resumeTimer := None;
      armed := map[];
      nextTimer := 0;
      paused := false;
      logs := [];
    }

    method HandleError(pauseWorks: bool)
      modifies this
      ensures Snapshot() == Apply(old(Snapshot()), Error(pauseWorks))
    {
      consecutiveErrors := consecutiveErrors + 1;
      if tripped {
        var doubled := backoffMs * BACKOFF_MULTIPLIER;
        backoffMs := if doubled < MAX_BACKOFF_MS then doubled else MAX_BACKOFF_MS;
        Schedule();
        return;
      }
      if consecutiveErrors < ERROR_THRESHOLD { return; }
      tripped := true;
      if pauseWorks {
        paused := true;
      }
      logs := logs + [PauseWarning];
      Schedule();
    }

    method HandleHealthy()
      modifies this
      ensures Snapshot() == Apply(old(Snapshot()), Healthy)
    {
      if resumeTimer.Some? {
        armed := armed - {resumeTimer.value};
        resumeTimer := None;
      }
      if tripped {
        logs := logs + [RecoveryNotice];
      }
      consecutiveErrors := 0;
      tripped := false;
      backoffMs := INITIAL_BACKOFF_MS;
    }

    /** `scheduleResume`: clears the last timer it armed and arms another. */
    method Schedule()
      modifies this`resumeTimer, this`armed, this`nextTimer
      ensures Snapshot() == ScheduleResume(old(Snapshot()))
    {
      if resumeTimer.Some? {
        armed := armed - {resumeTimer.value};
      }
      resumeTimer := Some(nextTimer);
      armed := armed[nextTimer := backoffMs];
      nextTimer := nextTimer + 1;
    }

    /** The armed timer's callback. */
    method HandleFire(timer: nat)
      requires Enabled(Snapshot(), Fire(timer))
      modifies this
      ensures Snapshot() == Apply(old(Snapshot()), Fire(timer))
    {
      armed := armed - {timer};
      consecutiveErrors := 0;
      paused := false;
    }
  }

  // ---- runs and their closed form ----

  ghost predicate IsRun(ss: seq<State>, es: seq<Event>) {
    && |ss| == |es| + 1 && ss[0] == INITIAL
    && forall i | 0 <= i < |es| :: Enabled(ss[i], es[i]) && ss[i + 1] == Apply(ss[i], es[i])
  }

  /** Errors since the last healthy event. */
  function Errors(es: seq<Event>): nat {
    if es == [] || es[|es| - 1].Healthy? then 0
    else Errors(es[..|es| - 1]) + if es[|es| - 1].Error? then 1 else 0
  }

  /** Errors since the last healthy event or timer. */
  function ErrorsInARow(es: seq<Event>): nat {
    if es == [] || !es[|es| - 1].Error? then 0 else ErrorsInARow(es[..|es| - 1]) + 1
  }

  /** min(5000 * 2^k, 300000), with k the errors since the trip. */
  function BackoffAfter(k: nat): nat {
    if 5_000 * Pow2(k) < 300_000 then 5_000 * Pow2(k) else 300_000
  }

  /** The timer is armed: the breaker is tripped and the last event was an error. */
  predicate TimerDue(es: seq<Event>) {
    Errors(es) >= 3 && es != [] && es[|es| - 1].Error?
  }

  /**
   * The worker is paused: the error that tripped the breaker managed to pause it,
   * and no timer has fired since. Neither a healthy event nor an error after the
   * trip makes any difference.
   */
  predicate PausedBy(es: seq<Event>) {
    && es != []
    && !es[|es| - 1].Fire?
    && ((es[|es| - 1] == Error(true) && Errors(es) == 3) || PausedBy(es[..|es| - 1]))
  }

  /**
   * The breaker's fields, its timer and the worker's pause as functions of the
   * events alone: tripped from the third error since the last healthy event, and
   * backing off, in its field and in its timer's delay, as long as the errors since
   * the trip call for.
   */
  ghost predicate ClosedForm(s: State, es: seq<Event>) {
    && s.tripped == (Errors(es) >= 3)
    && s.backoffMs == (if s.tripped then BackoffAfter(Errors(es) - 3) else 5_000)
    && s.paused == PausedBy(es)
    && s.consecutiveErrors == ErrorsInARow(es)
    && (!s.tripped ==> ErrorsInARow(es) == Errors(es))
    && s.armed == (if TimerDue(es) then map[s.nextTimer - 1 := s.backoffMs] else map[])
    && (s.resumeTimer == if s.tripped then Some(s.nextTimer - 1) else None)
    && (s.tripped ==> s.nextTimer > 0)
  }

  lemma ClosedFormStep(s: State, es: seq<Event>, e: Event)
    requires ClosedForm(s, es) && Enabled(s, e)
    ensures ClosedForm(Apply(s, e), es + [e])
  {
    assert (es + [e])[..|es|] == es;
    if e.Error? && Errors(es) >= 3 {
      assert Pow2(Errors(es) - 2) == 2 * Pow2(Errors(es) - 3);
    }
  }

  lemma {:induction false} ClosedFormHolds(ss: seq<State>, es: seq<Event>, n: nat)
    requires IsRun(ss, es) && n <= |es|
    ensures ClosedForm(ss[n], es[..n])
  {
    if n > 0 {
      ClosedFormHolds(ss, es, n - 1);
      ClosedFormStep(ss[n - 1], es[..n - 1], es[n - 1]);
      assert es[..n] == es[..n - 1] + [es[n - 1]];
    }
  }

  /** At most one timer is ever armed, only while tripped; a healthy event restores every field. */
  lemma OneTimerOnlyWhileTripped(ss: seq<State>, es: seq<Event>, n: nat)
    requires IsRun(ss, es) && n <= |es|
    ensures |ss[n].armed| <= 1
    ensures ss[n].armed.Keys != {} ==> ss[n].tripped
    ensures !ss[n].tripped ==> ss[n].consecutiveErrors < 3 && ss[n].consecutiveErrors == Errors(es[..n])
    ensures n > 0 && es[n - 1].Healthy? ==>
              ss[n].(nextTimer := 0, paused := false, logs := []) == INITIAL
  {
    ClosedFormHolds(ss, es, n);
  }

  // ---- the logs ----

  /** Warnings and recoveries take turns, a warning first. */
  predicate Alternates(logs: seq<Log>) {
    forall i | 0 <= i < |logs| :: logs[i] == if i % 2 == 0 then PauseWarning else RecoveryNotice
  }

  lemma {:induction false} LogsAlternate(ss: seq<State>, es: seq<Event>, n: nat)
    requires IsRun(ss, es) && n <= |es|
    ensures Alternates(ss[n].logs)
    ensures ss[n].tripped <==> |ss[n].logs| % 2 == 1
  {
    if n > 0 {
      LogsAlternate(ss, es, n - 1);
    }
  }

  // ---- progress ----

  /** A paused worker will be resumed. */
  predicate WillResume(s: State) {
    s.paused ==> s.armed.Keys != {}
  }

  /** Healthy events arrive only while the worker is running. */
  ghost predicate HealthyOnlyWhileRunning(ss: seq<State>, es: seq<Event>)
    requires IsRun(ss, es)
  {
    forall i | 0 <= i < |es| && es[i].Healthy? :: !ss[i].paused
  }

  lemma {:induction false} PausedIsArmed(ss: seq<State>, es: seq<Event>, n: nat)
    requires IsRun(ss, es) && n <= |es|
    requires forall i | 0 <= i < n && es[i].Healthy? :: !ss[i].paused
    ensures WillResume(ss[n])
    ensures ss[n].paused ==> ss[n].tripped
  {
    if n > 0 {
      PausedIsArmed(ss, es, n - 1);
      ClosedFormHolds(ss, es, n);
      ClosedFormHolds(ss, es, n - 1);
      assert es[n - 1].Error? && ss[n].tripped ==> ss[n].nextTimer - 1 in ss[n].armed;
    }
  }

  /**
   * A paused worker always has its resume timer armed in exactly the runs whose
   * healthy events all arrive while the worker is running: one that arrives while
   * it is paused clears the timer and resumes nobody.
   */
  lemma AlwaysResumesIff(ss: seq<State>, es: seq<Event>)
    requires IsRun(ss, es)
    ensures (forall n: nat | n <= |es| :: WillResume(ss[n])) <==> HealthyOnlyWhileRunning(ss, es)
  {
    if HealthyOnlyWhileRunning(ss, es) {
      forall n: nat | n <= |es| ensures WillResume(ss[n]) {
        PausedIsArmed(ss, es, n);
      }
    } else {
      var i :| 0 <= i < |es| && es[i].Healthy? && ss[i].paused;
      ClosedFormHolds(ss, es, i + 1);
      assert !WillResume(ss[i + 1]);
    }
  }

  /** Such a run: three errors trip the breaker, and the healthy event comes while the worker is paused. */
  lemma HealthyStrandsTheWorker() returns (ss: seq<State>, es: seq<Event>)
    ensures IsRun(ss, es) && es == [Error(true), Error(true), Error(true), Healthy]
    ensures ss[4].paused && ss[4].armed == map[] && !ss[4].tripped
  {
    es := [Error(true), Error(true), Error(true), Healthy];
    var s1 := Apply(INITIAL, es[0]);
    var s2 := Apply(s1, es[1]);
    var s3 := Apply(s2, es[2]);
    ss := [INITIAL, s1, s2, s3, Apply(s3, es[3])];
  }

  /**
   * A failed probe does not pause the worker again: once the timer has resumed it,
   * it stays running through every further error until the next healthy event.
   */
  lemma {:induction false} ErrorsAfterProbeDoNotPause(ss: seq<State>, es: seq<Event>, i: nat, n: nat)
    requires IsRun(ss, es) && i < n <= |es| && es[i].Fire?
    requires forall k | i <= k < n :: !es[k].Healthy?
    ensures ss[n].tripped && !ss[n].paused
  {
    if n == i + 1 {
      ClosedFormHolds(ss, es, i);
    } else {
      ErrorsAfterProbeDoNotPause(ss, es, i, n - 1);
    }
  }
}
