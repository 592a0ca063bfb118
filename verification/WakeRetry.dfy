/**
 * The two retry loops of the API client, each run on its own against an
 * arbitrary stream of replies: `sendWithWakeRetry` and `waitForApi`
 * (packages/api-client/src/http.ts).
 */
module WakeRetry {
  import opened Options
  import opened Powers

  const WAKE_RETRY_DELAYS_MS: seq<nat> := [2_000, 4_000, 8_000, 16_000, 30_000]
  const NETWORK_RETRY_DELAYS_MS: seq<nat> := [2_000, 4_000]

  /** How one fetch ended: a response, or a rejected promise. */
  datatype Reply = Response(status: nat) | NoResponse

  predicate Unavailable(status: nat) {
    status == 502 || status == 503 || status == 504
  }

  /** `response.ok` */
  predicate IsOk(status: nat) {
    200 <= status < 300
  }

  /** How long to sleep before the next attempt, or None when the loop stops with this reply. */
  function DelayAfter(canRetry: bool, attempt: nat, reply: Reply): Option<nat> {
    match reply
    case Response(status) =>
      if Unavailable(status) && canRetry && attempt < |WAKE_RETRY_DELAYS_MS|
      then Some(WAKE_RETRY_DELAYS_MS[attempt]) else None
    case NoResponse =>
      if canRetry && attempt < |NETWORK_RETRY_DELAYS_MS|
      then Some(NETWORK_RETRY_DELAYS_MS[attempt]) else None
  }

  /** A fetch is tried again: a GET, after a 502, 503 or 504 up to five times, after no response at all up to twice. */
  predicate TriedAgain(canRetry: bool, attempt: nat, reply: Reply) {
    && canRetry
    && ((attempt < 5 && (reply == Response(502) || reply == Response(503) || reply == Response(504)))
        || (attempt < 2 && reply == NoResponse))
  }

  function BackoffMs(attempt: nat): nat
    requires attempt < 5
  {
    match attempt case 0 => 2_000 case 1 => 4_000 case 2 => 8_000 case 3 => 16_000 case _ => 30_000
  }

  /** The two delay tables and the set of statuses come to that rule. */
  lemma DelayAfterIff(canRetry: bool, attempt: nat, reply: Reply)
    ensures DelayAfter(canRetry, attempt, reply)
            == if TriedAgain(canRetry, attempt, reply) then Some(BackoffMs(attempt)) else None
  {
  }

  /** Time slept by a round that has gone through n retries. */
  function SleptAfter(n: nat): nat {
    if n == 0 then 0
    else SleptAfter(n - 1) + if n <= |WAKE_RETRY_DELAYS_MS| then WAKE_RETRY_DELAYS_MS[n - 1] else 0
  }

  lemma {:induction false} SleptAfterIsBounded(n: nat)
    ensures SleptAfter(n) <= 60_000
    ensures n <= 5 ==> SleptAfter(n) == [0, 2_000, 6_000, 14_000, 30_000, 60_000][n]
  {
    if n == 0 {
    } else {
      SleptAfterIsBounded(n - 1);
      if n > 5 {
        SleptBeyondTable(n);
      }
    }
  }

  lemma {:induction false} SleptBeyondTable(n: nat)
    requires n >= 5
    ensures SleptAfter(n) == 60_000
  {
    if n == 5 {
      assert SleptAfter(2) == 6_000;
      assert SleptAfter(4) == 30_000;
    } else {
      SleptBeyondTable(n - 1);
    }
  }

  /**
   * One round of fetches against any stream of replies. The round ends at the
   * first reply that asks for no retry; what it sleeps depends only on how many
   * retries it made, because the network delays are a prefix of the wake delays.
   */
  method SendWithWakeRetry(canRetry: bool, replies: nat -> Reply)
    returns (reply: Reply, fetches: nat, sleptMs: nat)
    ensures 1 <= fetches <= 6
    ensures !canRetry ==> fetches == 1
    ensures reply == replies(fetches - 1)
    ensures DelayAfter(canRetry, fetches - 1, reply) == None
    ensures forall k: nat | k < fetches - 1 :: DelayAfter(canRetry, k, replies(k)).Some?
    ensures sleptMs == SleptAfter(fetches - 1) <= 60_000
    ensures forall k: nat | k < fetches - 1 :: TriedAgain(canRetry, k, replies(k))
    ensures !TriedAgain(canRetry, fetches - 1, reply)
    ensures sleptMs == [0, 2_000, 6_000, 14_000, 30_000, 60_000][fetches - 1]
  {
    var attempt := 0;
    sleptMs := 0;
    while true
      invariant attempt <= |WAKE_RETRY_DELAYS_MS|
      invariant !canRetry ==> attempt == 0
      invariant forall k: nat | k < attempt :: DelayAfter(canRetry, k, replies(k)).Some?
      invariant forall k: nat | k < attempt :: TriedAgain(canRetry, k, replies(k))
      invariant sleptMs == SleptAfter(attempt)
      decreases |WAKE_RETRY_DELAYS_MS| - attempt
    {
      reply := replies(attempt);
      fetches := attempt + 1;
      var delay := DelayAfter(canRetry, attempt, reply);
      DelayAfterIff(canRetry, attempt, reply);
      if delay == None {
        SleptAfterIsBounded(attempt);
        return;
      }
      sleptMs := sleptMs + delay.value;
      attempt := attempt + 1;
    }
  }

  // ---- waitForApi ----

  /** What one health probe said; an abort during the probe is a failure. */
  datatype Probe = Healthy | Unhealthy | Failed

  const MAX_NETWORK_FAILURES: nat := |NETWORK_RETRY_DELAYS_MS| + 1

  /** `Math.min(2_000 * 2 ** attempt, 10_000)` */
  function ProbeSleep(attempt: nat): (ms: nat)
    ensures ms > 0
  {
    if 2_000 * Pow2(attempt) < 10_000 then 2_000 * Pow2(attempt) else 10_000
  }

  /** Least time that can have passed when attempt n is about to be made. */
  function SleptBefore(n: nat): nat {
    if n == 0 then 0 else SleptBefore(n - 1) + ProbeSleep(n - 1)
  }

  /** The clock when attempt n is about to be made, if probe k itself takes took(k). */
  function ProbeAt(start: nat, took: nat -> nat, n: nat): nat {
    if n == 0 then start else ProbeAt(start, took, n - 1) + took(n - 1) + ProbeSleep(n - 1)
  }

  lemma {:induction false} Pow2AtLeast8(n: nat)
    requires n >= 3
    ensures Pow2(n) >= 8
  {
    if n > 3 { Pow2AtLeast8(n - 1); }
  }

  lemma {:induction false} SleptBeforeClosedForm(n: nat)
    ensures SleptBefore(n) == if n < 3 then [0, 2_000, 6_000][n] else 14_000 + 10_000 * (n - 3)
  {
    if n == 0 {
    } else {
      SleptBeforeClosedForm(n - 1);
      if n - 1 < 3 {
        assert Pow2(0) == 1 && Pow2(1) == 2 && Pow2(2) == 4;
      } else {
        Pow2AtLeast8(n - 1);
      }
    }
  }

  /** What the probes before n took themselves. */
  function TookBefore(took: nat -> nat, n: nat): nat {
    if n == 0 then 0 else TookBefore(took, n - 1) + took(n - 1)
  }

  lemma {:induction false} ProbeAtIsSum(start: nat, took: nat -> nat, n: nat)
    ensures ProbeAt(start, took, n) == start + TookBefore(took, n) + SleptBefore(n)
  {
    if n > 0 { ProbeAtIsSum(start, took, n - 1); }
  }

  /** Probes for which there is time are few. */
  lemma FewProbes(timeoutMs: nat, took: nat -> nat, n: nat)
    ensures TookBefore(took, n) + SleptBefore(n) < timeoutMs ==>
              SleptBefore(n) < timeoutMs && (timeoutMs == 90_000 ==> n <= 10)
  {
    SleptBeforeClosedForm(n);
  }

  /** Failures in a row among the probes before n. */
  function FailuresBefore(probes: nat -> Probe, n: nat): nat {
    if n == 0 || probes(n - 1) != Failed then 0 else FailuresBefore(probes, n - 1) + 1
  }

  /** The last three probes before n got no answer at all. */
  predicate GaveUp(probes: nat -> Probe, n: nat) {
    n >= 3 && probes(n - 1) == Failed && probes(n - 2) == Failed && probes(n - 3) == Failed
  }

  lemma {:induction false} FailuresAtMost(probes: nat -> Probe, n: nat)
    ensures FailuresBefore(probes, n) <= n
  {
    if n > 0 { FailuresAtMost(probes, n - 1); }
  }

  lemma GaveUpIff(probes: nat -> Probe, n: nat)
    ensures GaveUp(probes, n) <==> FailuresBefore(probes, n) >= 3
  {
    FailuresAtMost(probes, n);
    if n >= 3 {
      assert FailuresBefore(probes, n) >= 3 <==> probes(n - 1) == Failed && FailuresBefore(probes, n - 1) >= 2;
      assert FailuresBefore(probes, n - 1) >= 2 <==> probes(n - 2) == Failed && FailuresBefore(probes, n - 2) >= 1;
      assert FailuresBefore(probes, n - 2) >= 1 <==> probes(n - 3) == Failed;
    }
  }

  lemma OneMoreProbe(probes: nat -> Probe, n: nat)
    ensures FailuresBefore(probes, n + 1) == if probes(n) == Failed then FailuresBefore(probes, n) + 1 else 0
    ensures GaveUp(probes, n + 1) <==> probes(n) == Failed && FailuresBefore(probes, n) + 1 >= 3
  {
    GaveUpIff(probes, n + 1);
  }

  /** No probe before n was healthy, and there were never three failures in a row. */
  predicate NoneStopped(probes: nat -> Probe, n: nat) {
    n == 0 || (NoneStopped(probes, n - 1) && probes(n - 1) != Healthy && !GaveUp(probes, n))
  }

  lemma {:induction false} NoneStoppedMeans(probes: nat -> Probe, n: nat)
    requires NoneStopped(probes, n)
    ensures forall k: nat | k < n :: probes(k) != Healthy
    ensures forall k: nat | k <= n :: !GaveUp(probes, k)
  {
    if n > 0 { NoneStoppedMeans(probes, n - 1); }
  }

  /** There is time for attempt n, and nobody has aborted. */
  predicate MayProbe(timeoutMs: nat, took: nat -> nat, aborted: nat -> bool, n: nat) {
    TookBefore(took, n) + SleptBefore(n) < timeoutMs && !aborted(n)
  }

  /**
   * Probes until the API answers. `up` holds exactly when the last probe sent
   * was healthy, and no earlier one was; otherwise the loop stopped at the third
   * failure in a row, at the deadline, or on an abort.
   */
  method WaitForApi(timeoutMs: nat, start: nat, probes: nat -> Probe, took: nat -> nat, aborted: nat -> bool)
    returns (up: bool, sent: nat)
    ensures up <==> sent > 0 && probes(sent - 1) == Healthy
    ensures forall k: nat | k + 1 < sent :: probes(k) != Healthy
    ensures forall k: nat | k < sent :: !GaveUp(probes, k)
    ensures forall k: nat | k < sent :: MayProbe(timeoutMs, took, aborted, k)
    ensures !up ==> GaveUp(probes, sent) || !MayProbe(timeoutMs, took, aborted, sent)
    ensures sent > 0 ==> SleptBefore(sent - 1) < timeoutMs
    ensures timeoutMs == 90_000 ==> sent <= 11
  {
    var deadline := start + timeoutMs;
    var now := start;
    var networkFailures := 0;
    var attempt := 0;
    while now < deadline && !aborted(attempt)
      invariant now == ProbeAt(start, took, attempt)
      invariant networkFailures == FailuresBefore(probes, attempt)
      invariant NoneStopped(probes, attempt)
      invariant forall k: nat | k < attempt :: MayProbe(timeoutMs, took, aborted, k)
      decreases deadline - now
    {
      FewProbes(timeoutMs, took, attempt);
      ProbeAtIsSum(start, took, attempt);
      OneMoreProbe(probes, attempt);
      NoneStoppedMeans(probes, attempt);
      if probes(attempt) == Healthy {
        return true, attempt + 1;
      }
      if probes(attempt) == Unhealthy {
        networkFailures := 0;
      } else {
        networkFailures := networkFailures + 1;
        if networkFailures >= MAX_NETWORK_FAILURES {
          return false, attempt + 1;
        }
      }
      assert NoneStopped(probes, attempt + 1);
      assert networkFailures == FailuresBefore(probes, attempt + 1);
      now := now + took(attempt) + ProbeSleep(attempt);
      attempt := attempt + 1;
    }
    ProbeAtIsSum(start, took, attempt);
    NoneStoppedMeans(probes, attempt);
    if attempt > 0 {
      assert MayProbe(timeoutMs, took, aborted, attempt - 1);
      FewProbes(timeoutMs, took, attempt - 1);
    }
    return false, attempt;
  }
}
