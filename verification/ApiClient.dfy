/**
 * The API client's shared state and any number of concurrent `apiRequest` calls
 * (packages/api-client/src/http.ts). JavaScript runs each stretch between two
 * `await`s atomically, so a stretch is one event; the clock, the replies and the
 * order of events are the environment's.
 */
module ApiClient {
  import opened Options
  import opened WakeRetry

  const SLOW_AFTER_MS: nat := 3_000
  const RECENTLY_AWAKE_MS: nat := 30_000
  const REFRESH_COOLDOWN_MS: nat := 60_000

  datatype ApiStatus = Fine | Slow | Unreachable

  datatype Path = Refresh | Login | Register | Logout | MfaChallenge | Other

  /** NO_REFRESH_PATHS */
  predicate NeverRefreshes(path: Path) {
    path != Other
  }

  /** The paths whose success lifts the refresh cooldown. */
  predicate OpensSession(path: Path) {
    path == Login || path == Register || path == MfaChallenge
  }

  /** Where one `apiRequest` run is waiting. */
  datatype Phase =
    | Fetching(round: nat, attempt: nat)
    | Sleeping(round: nat, attempt: nat, until: nat)
    | AwaitingRefresh(post: nat)   // holds the promise of that refresh POST
    | RefreshDenied                // holds `Promise.resolve(false)`
    | ReadingBody
    | ReadingError(status: nat)
    | Finished

  /**
   * One run's locals. `sends`, `sleptMs`, `renewals`, `joined` (the refresh POST whose
   * promise the run took), `renewedBy` and `signedOut` (`onSessionExpired` was called)
   * record what the run did; nothing branches on them.
   */
  datatype Request = Request(
    path: Path, canRetry: bool, startedAt: nat, phase: Phase,
    timerArmed: bool, countedSlow: bool,
    sends: nat, sleptMs: nat, renewals: nat, joined: Option<nat>, renewedBy: Option<nat>, signedOut: bool)

  /** A refresh POST: unanswered, `.then`/`.catch` ran, `.finally` ran. */
  datatype Post = Outstanding | Answered(ok: bool) | Closed(ok: bool)

  datatype State = State(
    clock: nat,
    apiStatus: ApiStatus,
    slowRequests: int,
    lastAnsweredAt: nat,
    refreshInFlight: Option<nat>,
    refreshBlockedUntil: nat,
    requests: map<nat, Request>,
    posts: seq<Post>)

  function Initial(clock: nat): State {
    State(clock, Fine, 0, 0, None, 0, map[], [])
  }

  datatype Event =
    | Tick(ms: nat)
    | Begin(id: nat, path: Path, canRetry: bool)
    | SlowTimer(id: nat)
    | FetchReply(id: nat, reply: Reply)
    | Wake(id: nat)
    | Resume(id: nat)
    | BodyRead(id: nat)
    | ErrorRead(id: nat, hasApiError: bool)
    | PostReply(post: nat, reply: Reply)
    | PostClear(post: nat)
    | HealthOk               // `waitForApi` saw a healthy probe

  /** What the JavaScript runtime can deliver next. */
  predicate Enabled(s: State, e: Event) {
    match e
    case Tick(_) => true
    case Begin(id, _, _) => id !in s.requests
    case SlowTimer(id) =>
      id in s.requests && s.requests[id].timerArmed && s.clock >= s.requests[id].startedAt + SLOW_AFTER_MS
    case FetchReply(id, _) => id in s.requests && s.requests[id].phase.Fetching?
    case Wake(id) =>
      id in s.requests && s.requests[id].phase.Sleeping? && s.clock >= s.requests[id].phase.until
    case Resume(id) =>
      && id in s.requests
      && (s.requests[id].phase.RefreshDenied?
          || (s.requests[id].phase.AwaitingRefresh? && s.requests[id].phase.post < |s.posts|
              && s.posts[s.requests[id].phase.post].Closed?))
    case BodyRead(id) => id in s.requests && s.requests[id].phase.ReadingBody?
    case ErrorRead(id, _) => id in s.requests && s.requests[id].phase.ReadingError?
    case PostReply(p, _) => p < |s.posts| && s.posts[p].Outstanding?
    case PostClear(p) => p < |s.posts| && s.posts[p].Answered?
    case HealthOk => true
  }

  // ---- the stretches, as functions of the state ----

  /** The `finally` block. */
  function Finish(s: State, id: nat, r: Request): State {
    var slow := if r.countedSlow then s.slowRequests - 1 else s.slowRequests;
    s.(requests := s.requests[id := r.(phase := Finished, timerArmed := false)],
       slowRequests := slow,
       apiStatus := if slow == 0 && s.apiStatus == Slow then Fine else s.apiStatus)
  }

  /** `refreshSession()`, up to the promise it hands back. */
  function RefreshSession(s: State): (State, Phase) {
    if s.clock < s.refreshBlockedUntil then (s, RefreshDenied)
    else if s.refreshInFlight.Some? then (s, AwaitingRefresh(s.refreshInFlight.value))
    else (s.(posts := s.posts + [Outstanding], refreshInFlight := Some(|s.posts|)), AwaitingRefresh(|s.posts|))
  }

  /** The run holds the promise `refreshSession` handed back. */
  function Waiting(r: Request, phase: Phase): Request {
    r.(phase := phase, renewals := r.renewals + 1,
       joined := if phase.AwaitingRefresh? then Some(phase.post) else None)
  }

  function Reachable(status: ApiStatus): ApiStatus {
    if status == Unreachable then Fine else status
  }

  /** From a final response to the next `await`. */
  function Respond(s: State, id: nat, r: Request, status: nat): State {
    var s := if Unavailable(status) then s else s.(lastAnsweredAt := s.clock);
    var s := if OpensSession(r.path) && IsOk(status) then s.(refreshBlockedUntil := 0) else s;
    if IsOk(status)
    then s.(apiStatus := Reachable(s.apiStatus), requests := s.requests[id := r.(phase := ReadingBody)])
    else s.(requests := s.requests[id := r.(phase := ReadingError(status))])
  }

  /** A `sendWithWakeRetry` iteration that goes on, up to its sleep. */
  function Retry(s: State, id: nat, r: Request, delay: nat): State
    requires r.phase.Fetching?
  {
    s.(apiStatus := Slow,
       requests := s.requests[id := r.(phase := Sleeping(r.phase.round, r.phase.attempt, s.clock + delay),
                                       sleptMs := r.sleptMs + delay)])
  }

  function OnFetchReply(s: State, id: nat, r: Request, reply: Reply): State
    requires r.phase.Fetching?
  {
    var delay := DelayAfter(r.canRetry, r.phase.attempt, reply);
    if delay.Some? then
      Retry(s, id, r, delay.value)
    else if reply == NoResponse then
      Finish(s.(apiStatus := Unreachable), id, r)
    else if r.phase.round == 1 && reply.status == 401 && !NeverRefreshes(r.path) then
      var (s', phase) := RefreshSession(s);
      s'.(requests := s'.requests[id := Waiting(r, phase)])
    else
      Respond(s, id, r, reply.status)
  }

  function OnSlowTimer(s: State, id: nat, r: Request): State {
    if s.clock - s.lastAnsweredAt < RECENTLY_AWAKE_MS
    then s.(requests := s.requests[id := r.(timerArmed := false)])
    else s.(requests := s.requests[id := r.(timerArmed := false, countedSlow := true)],
            slowRequests := s.slowRequests + 1, apiStatus := Slow)
  }

  function OnWake(s: State, id: nat, r: Request): State
    requires r.phase.Sleeping?
  {
    s.(requests := s.requests[id := r.(phase := Fetching(r.phase.round, r.phase.attempt + 1), sends := r.sends + 1)])
  }

  function OnResume(s: State, id: nat, r: Request): State
    requires r.phase.AwaitingRefresh? ==> r.phase.post < |s.posts| && s.posts[r.phase.post].Closed?
  {
    if r.phase.AwaitingRefresh? && s.posts[r.phase.post].ok
    then s.(requests := s.requests[id := r.(phase := Fetching(2, 0), sends := r.sends + 1,
                                            renewedBy := Some(r.phase.post))])
    else Respond(s, id, r.(signedOut := true), 401)
  }

  /** What an error body says about the API. */
  function StatusAfterError(s: State, r: Request, hasApiError: bool): ApiStatus
    requires r.phase.ReadingError?
  {
    if !hasApiError && Unavailable(r.phase.status) then Unreachable else Reachable(s.apiStatus)
  }

  function OnErrorRead(s: State, id: nat, r: Request, hasApiError: bool): State
    requires r.phase.ReadingError?
  {
    Finish(s.(apiStatus := StatusAfterError(s, r, hasApiError)), id, r)
  }

  function OnPostReply(s: State, p: nat, reply: Reply): State
    requires p < |s.posts|
  {
    var ok := reply.Response? && IsOk(reply.status);
    s.(posts := s.posts[p := Answered(ok)],
       refreshBlockedUntil := if reply.Response? && !ok then s.clock + REFRESH_COOLDOWN_MS else s.refreshBlockedUntil)
  }

  function NewRequest(clock: nat, path: Path, canRetry: bool): Request {
    Request(path, canRetry, clock, Fetching(1, 0), true, false, 1, 0, 0, None, None, false)
  }

  function Apply(s: State, e: Event): State
    requires Enabled(s, e)
  {
    match e
    case Tick(ms) => s.(clock := s.clock + ms)
    case Begin(id, path, canRetry) => s.(requests := s.requests[id := NewRequest(s.clock, path, canRetry)])
    case SlowTimer(id) => OnSlowTimer(s, id, s.requests[id])
    case FetchReply(id, reply) => OnFetchReply(s, id, s.requests[id], reply)
    case Wake(id) => OnWake(s, id, s.requests[id])
    case Resume(id) => OnResume(s, id, s.requests[id])
    case BodyRead(id) => Finish(s, id, s.requests[id])
    case ErrorRead(id, hasApiError) => OnErrorRead(s, id, s.requests[id], hasApiError)
    case PostReply(p, reply) => OnPostReply(s, p, reply)
    case PostClear(p) => s.(posts := s.posts[p := Closed(s.posts[p].ok)], refreshInFlight := None)
    case HealthOk => s.(apiStatus := Fine)
  }

  /** Any interleaving: ss[i] is the state before event i. */
  ghost predicate IsRun(ss: seq<State>, es: seq<Event>) {
    && |ss| == |es| + 1
    && ss[0] == Initial(ss[0].clock)
    && forall i | 0 <= i < |es| :: Enabled(ss[i], es[i]) && ss[i + 1] == Apply(ss[i], es[i])
  }
}
