/**
 * The API client's module-level variables and the stretches of code that update
 * them in place (packages/api-client/src/http.ts). Each method is one stretch
 * and is proved to take the step that the interleaving model gives for it.
 */
module HttpClient {
  import opened Options
  import opened WakeRetry
  import opened ApiClient

  /** Listeners are called once if the status has changed, and not otherwise. */
  function NotifiedAfter(notified: seq<ApiStatus>, was: ApiStatus, now: ApiStatus): seq<ApiStatus> {
    if now == was then notified else notified + [now]
  }

  /** The status before notice i. */
  function Before(told: seq<ApiStatus>, i: nat): ApiStatus
    requires i <= |told|
  {
    if i == 0 then Fine else told[i - 1]
  }

  predicate Changes(told: seq<ApiStatus>) {
    forall i | 0 <= i < |told| :: told[i] != Before(told, i)
  }

  /** Listeners that knew the status still do, and heard of a change only. */
  lemma ChangesOnly(told: seq<ApiStatus>, was: ApiStatus, now: ApiStatus)
    requires Changes(told) && was == Before(told, |told|)
    ensures var told' := NotifiedAfter(told, was, now);
            Changes(told') && now == Before(told', |told'|)
  {
    var told' := NotifiedAfter(told, was, now);
    forall i | 0 <= i < |told'| ensures told'[i] != Before(told', i) {
      if i < |told| {
        assert told[i] != Before(told, i);
      }
    }
  }

  class Client {
    var clock: nat
    var apiStatus: ApiStatus
    var slowRequests: int
    var lastAnsweredAt: nat
    var refreshInFlight: Option<nat>
    var refreshBlockedUntil: nat
    var requests: map<nat, Request>
    var posts: seq<Post>
    /** What every `subscribeApiStatus` listener has been told, in order. */
    var notified: seq<ApiStatus>

    function Snapshot(): State
      reads this
    {
      State(clock, apiStatus, slowRequests, lastAnsweredAt, refreshInFlight, refreshBlockedUntil, requests, posts)
    }

    /** The last thing listeners were told is the status, and every notice was a change. */
    ghost predicate ListenersKnow()
      reads this`apiStatus, this`notified
    {
      apiStatus == Before(notified, |notified|) && Changes(notified)
    }

    constructor (now: nat)
      ensures Snapshot() == Initial(now) && notified == [] && ListenersKnow()
    {
      clock := now;
      apiStatus := Fine;
      slowRequests := 0;
      lastAnsweredAt := 0;
      refreshInFlight := None;
      refreshBlockedUntil := 0;
      requests := map[];
      posts := [];
      notified := [];
    }

    method SetApiStatus(next: ApiStatus)
      requires ListenersKnow()
      modifies this`apiStatus, this`notified
      ensures apiStatus == next
      ensures notified == NotifiedAfter(old(notified), old(apiStatus), next)
      ensures ListenersKnow()
    {
      ChangesOnly(notified, apiStatus, next);
      if next == apiStatus { return; }
      apiStatus := next;
      notified := notified + [next];
    }

    method Advance(ms: nat)
      requires ListenersKnow()
      modifies this
      ensures Snapshot() == Apply(old(Snapshot()), Tick(ms))
      ensures notified == NotifiedAfter(old(notified), old(apiStatus), apiStatus)
      ensures ListenersKnow()
    {
      clock := clock + ms;
    }

    method ApiRequest(id: nat, path: Path, canRetry: bool)
      requires Enabled(Snapshot(), Begin(id, path, canRetry))
      requires ListenersKnow()
      modifies this
      ensures Snapshot() == Apply(old(Snapshot()), Begin(id, path, canRetry))
      ensures notified == NotifiedAfter(old(notified), old(apiStatus), apiStatus)
      ensures ListenersKnow()
    {
      requests := requests[id := NewRequest(clock, path, canRetry)];
    }

    method FireSlowTimer(id: nat)
      requires Enabled(Snapshot(), SlowTimer(id))
      requires ListenersKnow()
      modifies this
      ensures Snapshot() == Apply(old(Snapshot()), SlowTimer(id))
      ensures notified == NotifiedAfter(old(notified), old(apiStatus), apiStatus)
      ensures ListenersKnow()
    {
      var r := requests[id];
      requests := requests[id := r.(timerArmed := false)];
      if clock - lastAnsweredAt < RECENTLY_AWAKE_MS { return; }
      requests := requests[id := r.(timerArmed := false, countedSlow := true)];
      slowRequests := slowRequests + 1;
      SetApiStatus(Slow);
    }

    /** The `finally` block of `apiRequest`. */
    method Settle(id: nat)
      requires id in requests
      requires ListenersKnow()
      modifies this
      ensures Snapshot() == Finish(old(Snapshot()), id, old(requests[id]))
      ensures notified == NotifiedAfter(old(notified), old(apiStatus), apiStatus)
      ensures ListenersKnow()
    {
      var r := requests[id];
      requests := requests[id := r.(phase := Finished, timerArmed := false)];
      if r.countedSlow {
        slowRequests := slowRequests - 1;
      }
      if slowRequests == 0 && apiStatus == Slow {
        SetApiStatus(Fine);
      }
    }

    /** `refreshSession`: refused at once, joining the POST in flight, or sending one. */
    method AskForRefresh() returns (phase: Phase)
      modifies this`refreshInFlight, this`posts
      ensures (Snapshot(), phase) == RefreshSession(old(Snapshot()))
    {
      if clock < refreshBlockedUntil {
        return RefreshDenied;
      }
      if refreshInFlight == None {
        refreshInFlight := Some(|posts|);
        posts := posts + [Outstanding];
      }
      return AwaitingRefresh(refreshInFlight.value);
    }

    /** From a final response to the next `await`. */
    method Answer(id: nat, status: nat)
      requires id in requests
      requires ListenersKnow()
      modifies this
      ensures Snapshot() == Respond(old(Snapshot()), id, old(requests[id]), status)
      ensures notified == NotifiedAfter(old(notified), old(apiStatus), apiStatus)
      ensures ListenersKnow()
    {
      var r := requests[id];
      if !Unavailable(status) {
        lastAnsweredAt := clock;
      }
      if OpensSession(r.path) {
        if IsOk(status) {
          refreshBlockedUntil := 0;
        }
      }
      if !IsOk(status) {
        requests := requests[id := r.(phase := ReadingError(status))];
        return;
      }
      if apiStatus == Unreachable {
        SetApiStatus(Fine);
      }
      requests := requests[id := r.(phase := ReadingBody)];
    }

    /** The end of a `sendWithWakeRetry` iteration that goes on. */
    method SleepBeforeRetry(id: nat, delay: nat)
      requires id in requests && requests[id].phase.Fetching?
      requires ListenersKnow()
      modifies this`apiStatus, this`notified, this`requests
      ensures Snapshot() == Retry(old(Snapshot()), id, old(requests[id]), delay)
      ensures notified == NotifiedAfter(old(notified), old(apiStatus), apiStatus)
      ensures ListenersKnow()
    {
      var r := requests[id];
      SetApiStatus(Slow);
      requests := requests[id := r.(phase := Sleeping(r.phase.round, r.phase.attempt, clock + delay),
                                    sleptMs := r.sleptMs + delay)];
    }

    /** The outer `catch`: no response at all. */
    method FailUnreachable(id: nat)
      requires id in requests
      requires ListenersKnow()
      modifies this
      ensures Snapshot() == Finish(old(Snapshot()).(apiStatus := Unreachable), id, old(requests[id]))
      ensures notified == NotifiedAfter(old(notified), old(apiStatus), apiStatus)
      ensures ListenersKnow()
    {
      SetApiStatus(Unreachable);
      Settle(id);
    }

    method ReceiveReply(id: nat, reply: Reply)
      requires Enabled(Snapshot(), FetchReply(id, reply))
      requires ListenersKnow()
      modifies this
      ensures Snapshot() == Apply(old(Snapshot()), FetchReply(id, reply))
      ensures notified == NotifiedAfter(old(notified), old(apiStatus), apiStatus)
      ensures ListenersKnow()
    {
      var r := requests[id];
      var delay := DelayAfter(r.canRetry, r.phase.attempt, reply);
      if delay.Some? {
        SleepBeforeRetry(id, delay.value);
      } else if reply == NoResponse {
        FailUnreachable(id);
      } else if r.phase.round == 1 && reply.status == 401 && !NeverRefreshes(r.path) {
        var phase := AskForRefresh();
        requests := requests[id := Waiting(r, phase)];
      } else {
        Answer(id, reply.status);
      }
    }

    method WakeUp(id: nat)
      requires Enabled(Snapshot(), Wake(id))
      requires ListenersKnow()
      modifies this
      ensures Snapshot() == Apply(old(Snapshot()), Wake(id))
      ensures notified == NotifiedAfter(old(notified), old(apiStatus), apiStatus)
      ensures ListenersKnow()
    {
      var r := requests[id];
      requests := requests[id := r.(phase := Fetching(r.phase.round, r.phase.attempt + 1), sends := r.sends + 1)];
    }

    method ResumeAfterRefresh(id: nat)
      requires Enabled(Snapshot(), Resume(id))
      requires ListenersKnow()
      modifies this
      ensures Snapshot() == Apply(old(Snapshot()), Resume(id))
      ensures notified == NotifiedAfter(old(notified), old(apiStatus), apiStatus)
      ensures ListenersKnow()
    {
      var r := requests[id];
      var renewed := r.phase.AwaitingRefresh? && posts[r.phase.post].ok;
      if renewed {
        requests := requests[id := r.(phase := Fetching(2, 0), sends := r.sends + 1, renewedBy := Some(r.phase.post))];
      } else {
        requests := requests[id := r.(signedOut := true)];
        Answer(id, 401);
      }
    }

    method FinishBody(id: nat)
      requires Enabled(Snapshot(), BodyRead(id))
      requires ListenersKnow()
      modifies this
      ensures Snapshot() == Apply(old(Snapshot()), BodyRead(id))
      ensures notified == NotifiedAfter(old(notified), old(apiStatus), apiStatus)
      ensures ListenersKnow()
    {
      Settle(id);
    }

    method FinishError(id: nat, hasApiError: bool)
      requires Enabled(Snapshot(), ErrorRead(id, hasApiError))
      requires ListenersKnow()
      modifies this
      ensures Snapshot() == Apply(old(Snapshot()), ErrorRead(id, hasApiError))
      ensures notified == NotifiedAfter(old(notified), old(apiStatus), apiStatus)
      ensures ListenersKnow()
    {
      if !hasApiError && Unavailable(requests[id].phase.status) {
        SetApiStatus(Unreachable);
      } else if apiStatus == Unreachable {
        SetApiStatus(Fine);
      }
      Settle(id);
    }

    /** The `.then` or `.catch` of a refresh POST. */
    method RefreshReplied(p: nat, reply: Reply)
      requires Enabled(Snapshot(), PostReply(p, reply))
      requires ListenersKnow()
      modifies this
      ensures Snapshot() == Apply(old(Snapshot()), PostReply(p, reply))
      ensures notified == NotifiedAfter(old(notified), old(apiStatus), apiStatus)
      ensures ListenersKnow()
    {
      var ok := false;
      if reply.Response? {
        ok := IsOk(reply.status);
        if !ok {
          refreshBlockedUntil := clock + REFRESH_COOLDOWN_MS;
        }
      }
      posts := posts[p := Answered(ok)];
    }

    /** The `.finally` of a refresh POST. */
    method RefreshSettled(p: nat)
      requires Enabled(Snapshot(), PostClear(p))
      requires ListenersKnow()
      modifies this
      ensures Snapshot() == Apply(old(Snapshot()), PostClear(p))
      ensures notified == NotifiedAfter(old(notified), old(apiStatus), apiStatus)
      ensures ListenersKnow()
    {
      refreshInFlight := None;
      posts := posts[p := Closed(posts[p].ok)];
    }

    method HealthAnswered()
      requires ListenersKnow()
      modifies this
      ensures Snapshot() == Apply(old(Snapshot()), HealthOk)
      ensures notified == NotifiedAfter(old(notified), old(apiStatus), apiStatus)
      ensures ListenersKnow()
    {
      SetApiStatus(Fine);
    }
  }
}
