# VittamHub, verified

A Dafny model of the parts of VittamHub whose guarantees cannot be read off one
function: the API client's concurrent protocol, the cut-then-merge rankings, the
verification engine that feeds on its own result, slugs, the queue circuit
breaker, Trust Score v2 and its band history, the ledger-like services (phone
codes, document grants, relationship claims, refresh tokens) and pagination.
`dafny verify dfyconfig.toml` checks everything.

## How it is laid out

Code that updates state in place is a class whose methods follow the source
statement by statement. Each method is proved to take exactly the step that a
function of the old state gives, and the properties are lemmas about that
function over every run, or an invariant (`Valid()`) that every method keeps
from the constructor on. Pure code is functions and lemmas.

| file | models |
|---|---|
| `Options.dfy`, `Powers.dfy` | optional values and powers of two |
| `WakeRetry.dfy` | the retry loop and the health-probe loop of the API client |
| `ApiClient.dfy`, `ApiClientRuns.dfy`, `ApiClientRecords.dfy`, `HttpClient.dfy` | any interleaving of `apiRequest` calls: the steps, what every run keeps, what its events alone determine, the code that takes the steps |
| `Ranking.dfy`, `InvestorHome.dfy`, `FounderActivity.dfy` | cut, keep the best per key, sort, slice |
| `Verification.dfy` | automatic verification with completion as one of its own inputs |
| `Slug.dfy`, `SlugNames.dfy`, `UniqueSlug.dfy` | the slug normal form, what a slug says of its name, and the search for a free one |
| `CircuitBreaker.dfy` | the breaker around a queue worker |
| `TrustModel.dfy`, `TrustEngine.dfy` | scores, penalties, bands and the snapshot history |
| `PhoneOtp.dfy`, `DocumentAccess.dfy`, `RelationshipClaims.dfy`, `Sessions.dfy` | the ledger-like services as sequences of calls |
| `Pagination.dfy` | pages of a list |

## What the proofs found

Where the code does not do what its comments say, the code is modelled and the
exact condition is proved.

- **Recomputing verification is not idempotent.** A verified startup that loses
  exactly its pitch deck and its registration evidence falls to PENDING, and the
  next recompute, with nothing changed, drops it to UNVERIFIED; in every other case
  one recompute settles it, and two always do (`Verification.IdempotentIff`,
  `FallsTwice`, `SettlesAfterTwo`).
- **A band is never promoted.** `deriveBand` keeps the previous band for any score
  above its floor less 4, however high, so a startup's band only ever falls. It does what
  its comment promises exactly while the score has not reached a higher band
  (`TrustModel.PromiseKeptIff`), and a higher previous band can end lower than a lower one
  (`HigherStartEndsLowerIff`).
- **Nobody reaches Gold.** Nine signals are constants in the engine, so no profile
  scores above 54, no snapshot is above Silver, and a mandate asking for Gold or Platinum
  matches nobody (`TrustEngine.EngineCeiling`, `InvestorHome.GoldMandatesMatchNobody`).
- **Next-best-action gaps are understated.** They subtract unscaled points from
  a scaled maximum; exact only at full applicability or with nothing earned
  (`TrustEngine.GapIsExactIff`).
- **A healthy event while the worker is paused strands it**, and **a failed probe
  does not pause it again**, contrary to the comment at
  `redis-circuit-breaker.ts:41` (`CircuitBreaker.AlwaysResumesIff`,
  `HealthyStrandsTheWorker`, `ErrorsAfterProbeDoNotPause`; the exact pause is in `ClosedFormHolds`).
- **A very late slow timer can clear the outage screen.** With no request in
  flight the status is the last verdict exactly unless that verdict was
  "unreachable" and a slow timer has since counted a run that already had its answer
  (`ApiClientRuns.StatusAtRestIsLastVerdictIff`, `LateTimerLosesTheOutage`).
- **A name without letters or digits can get the slug `-2`**, which `slugify`
  would change (`UniqueSlug.UniqueSlugIsFixed`, `HyphenNameGetsMinusTwo`).
- **A document is openable at the instant it expires but no longer listed**
  (`DocumentAccess.ListedIffNotRefused`).

## Assumptions

- JavaScript runs each stretch between two `await`s atomically, and the wall
  clock does not go backwards. Replies, timers and the order of events are arbitrary.
- Each service method is one atomic operation on the tables.
- Hashes are injective and random tokens are new; Unicode normalisation (section 1.2 of
  Unicode Standard Annex #15) and lowercasing are parameters assumed only to leave `[a-z0-9-]`
  alone, and nothing is assumed of them where the lemma does not say so.
- A sort is any sorted permutation. Scores and percentages are exact rationals, rounded half up.
- A query's `orderBy`, `distinct` and uniqueness are preconditions on the rows it returns.

## Model

| member | source | states |
|---|---|---|
| WakeRetry.SendWithWakeRetry | packages/api-client/src/http.ts:139-155 | for every stream of replies: a GET is tried again exactly after a 502, 503 or 504, at most five times, or after no response, at most twice, and nothing else is; sleeps 2000, 4000, 8000, 16000, 30000 ms |
| WakeRetry.DelayAfterIff | packages/api-client/src/http.ts:51-61 | the delay tables and the status set come to exactly that rule and those delays |
| WakeRetry.WaitForApi | packages/api-client/src/http.ts:224-246 | true exactly when the last probe was healthy; otherwise it stopped at the third failure in a row, the deadline or an abort; at most 11 probes in the default timeout |
| WakeRetry.SleptBeforeClosedForm | packages/api-client/src/http.ts:243 | the sleeps before probe n add up to 14000 + 10000(n - 3) from the third on |
| ApiClientRuns.SlowCountIsExact | packages/api-client/src/http.ts:161-216 | in every interleaving slowRequests is the number of counted runs in flight; with none in flight it is 0 and the status is not slow |
| ApiClientRuns.StatusAtRestIsLastVerdictIff | packages/api-client/src/http.ts:161-216 | in every interleaving, with no run in flight the status is the last verdict if and only if no late count has come since an unreachable verdict; in that one case it is ok |
| ApiClientRuns.OnTimeMeansNoLateCounts | packages/api-client/src/http.ts:163-168 | slow timers that fire within 30 s of their run's start never count an answered run, so with them the status at rest is always the last verdict |
| ApiClientRuns.LateTimerLosesTheOutage | packages/api-client/src/http.ts:161-216 | a run with a late count that ends at ok although the last verdict was unreachable |
| ApiClientRuns.SingleFlight | packages/api-client/src/http.ts:105-117 | at most one refresh POST is unfinished in any interleaving, and it is the one in refreshInFlight |
| ApiClientRuns.JoinsTheOutcome | packages/api-client/src/http.ts:105-177 | a run whose 401 arrives while a POST is unfinished sends no other and, at every later moment, still waits or has that POST's outcome: renewed by it, or reported expired because it failed |
| ApiClientRuns.OutcomeIsThePosts | packages/api-client/src/http.ts:105-177 | in every run a renewal comes from the POST joined, an expiry from a refusal at once or that POST's failure, and whoever no longer waits has one of the two |
| ApiClientRuns.RefreshCooldown | packages/api-client/src/http.ts:101-187 | after a non-ok refresh at t no POST is sent before t + 60000 unless a login, register or MFA challenge succeeded in between |
| ApiClientRuns.RequestBounds | packages/api-client/src/http.ts:139-177 | each run renews at most once; a second round follows only an ok renewal; 6 fetches and 60 s a round; a mutation is sent at most twice |
| ApiClientRuns.RunsEnd | packages/api-client/src/http.ts:139-216 | every run takes at most 24 events of its own in any interleaving |
| ApiClientRuns.NobodyIsStuck | packages/api-client/src/http.ts:105-216 | every unfinished run has a next event that is due now or at a known time |
| ApiClientRecords.RenewalIsSent | packages/api-client/src/http.ts:101-187 | in every interleaving a 401 that finds no refresh POST pending sends one and waits for it, unless the cooldown read off the events has not ended: then it sends none and is refused |
| ApiClientRecords.OnlyA401Renews | packages/api-client/src/http.ts:105-177 | nothing but such a 401 sends a refresh POST |
| ApiClientRecords.BlockedUntilHolds | packages/api-client/src/http.ts:101-187 | the cooldown ends 60 s after the last refusal, or at once when a session is opened |
| ApiClientRecords.AnsweredAtHolds | packages/api-client/src/http.ts:183 | lastAnsweredAt is when the last answer came that was not a 502, 503 or 504 |
| ApiClientRecords.PostOutcomeIsItsReply | packages/api-client/src/http.ts:107-112 | a refresh POST counts as ok exactly if its reply was a 2xx |
| ApiClientRecords.LeftWithThe401 | packages/api-client/src/http.ts:174-177 | an ok renewal starts round two; otherwise the run is left with its 401 and reported expired |
| ApiClientRecords.RecordsAreExact | packages/api-client/src/http.ts:139-177 | the sends, sleep and renewals that the bounds are about are those the run's events made |
| ApiClientRecords.RetrySleeps | packages/api-client/src/http.ts:141-154 | a reply worth another try, and no other, puts its run to sleep for its delay and shows slow |
| ApiClientRecords.RetryWaits | packages/api-client/src/http.ts:152-154 | the next attempt of the round is sent no sooner than that delay |
| ApiClientRecords.SlowTimerIsDueIff | packages/api-client/src/http.ts:163-213 | a run's slow timer can fire from 3 s after its start, once, while the run is in flight |
| ApiClientRecords.SlowTimerCountsIff | packages/api-client/src/http.ts:163-168 | it counts its run and shows slow exactly if the API has not answered for 30 s |
| ApiClientRecords.StatusMoves | packages/api-client/src/http.ts:63-216 | every change of the status has its cause; an answer alone never takes down slow |
| ApiClientRuns.CountStep | packages/api-client/src/http.ts:161-216 | each stretch keeps the slow count and "slow implies a run in flight" |
| ApiClientRuns.VerdictStep | packages/api-client/src/http.ts:161-216 | each stretch keeps the relation between status, last verdict, late counts and undecided runs |
| ApiClientRuns.RefreshStep | packages/api-client/src/http.ts:105-117 | each stretch keeps one unfinished POST, and the cooldown can hold meanwhile only if that POST was refused |
| ApiClientRuns.RequestsStep | packages/api-client/src/http.ts:139-216 | each stretch keeps every run's retry, sleep and renewal bounds |
| HttpClient.Client.SetApiStatus | packages/api-client/src/http.ts:68-72 | the status becomes the one given, and listeners are called once if that changes it and not otherwise, so they still know the status |
| HttpClient.ChangesOnly | packages/api-client/src/http.ts:63-81 | one call of the listeners for a change keeps what every method of the class keeps from the constructor on: the last thing they were told is the status, and no notice repeats the one before |
| HttpClient.Client.ApiRequest | packages/api-client/src/http.ts:161-173 | starting a run takes the model's Begin step |
| HttpClient.Client.FireSlowTimer | packages/api-client/src/http.ts:163-168 | the slow timer takes the model's step |
| HttpClient.Client.Settle | packages/api-client/src/http.ts:212-216 | the finally block leaves exactly the model's state |
| HttpClient.Client.AskForRefresh | packages/api-client/src/http.ts:105-117 | refused during the cooldown, joins the POST in flight, or sends one, which `ApiClientRecords.RenewalIsSent` proves over runs |

| HttpClient.Client.Answer | packages/api-client/src/http.ts:183-209 | a final response updates lastAnsweredAt, cooldown, status and phase as the model says |
| HttpClient.Client.ReceiveReply | packages/api-client/src/http.ts:141-181 | a reply retries, fails, asks for a renewal or answers, as the model says |
| HttpClient.Client.WakeUp | packages/api-client/src/http.ts:153 | the sleep's end sends the next attempt |
| HttpClient.Client.ResumeAfterRefresh | packages/api-client/src/http.ts:174-177 | an ok renewal starts the second round; otherwise the session is reported expired and the 401 stands |
| HttpClient.Client.FinishBody | packages/api-client/src/http.ts:209-216 | the body's arrival settles the run |
| HttpClient.Client.FinishError | packages/api-client/src/http.ts:189-216 | the error body decides between the outage and the API's own error |
| HttpClient.Client.RefreshReplied | packages/api-client/src/http.ts:107-112 | only a non-ok response starts the cooldown; a network failure does not |
| HttpClient.Client.RefreshSettled | packages/api-client/src/http.ts:113-115 | the finally frees the slot |
| HttpClient.Client.HealthAnswered | packages/api-client/src/http.ts:232-235 | a healthy probe sets the status to ok |
| Ranking.CutIsExactUpTo | apps/api/src/modules/workspace/workspace-dashboard.service.ts:84-96 | cutting each ranked source to p before merging leaves the first p places exact: same scores, and each key with its best score over the uncut sources |
| Ranking.CutCounts | apps/api/src/modules/workspace/workspace-dashboard.service.ts:84-96 | a cut to p loses no key reaching a rank unless p other keys reach it |
| Ranking.CutNeverOverstates | apps/api/src/modules/workspace/workspace-dashboard.service.ts:84-96 | at every position the cut ranking has at most the score of the uncut one |
| Ranking.PutKeepsBest | apps/api/src/modules/workspace/workspace-dashboard.service.ts:88-94 | one Map update keeps exactly the best item of every key |
| Ranking.RankingReads | apps/api/src/modules/workspace/workspace-dashboard.service.ts:96 | position i of a ranking reaches a rank exactly if more than i keys do |
| Ranking.SortByRank | apps/api/src/modules/workspace/workspace-dashboard.service.ts:96 | a sorted permutation |
| InvestorHome.LatestBands | apps/api/src/modules/investors/mandates.service.ts:93-96 | the loop maps each startup to the band of its first row |
| InvestorHome.FirstBandIsLatest | apps/api/src/modules/investors/mandates.service.ts:88-96 | with rows newest first, that band is on a row no other row of the startup is newer than |
| InvestorHome.Matches | apps/api/src/modules/investors/mandates.service.ts:84-104 | the first `limit` of the sorted stream of exactly the startups that pass the trust filter |
| InvestorHome.QualifiesByFloor | apps/api/src/modules/investors/mandates.service.ts:86-102 | without a band asked for everyone passes; with one, exactly those whose latest band is entered at as high a score |
| InvestorHome.MergeBest | apps/api/src/modules/workspace/workspace-dashboard.service.ts:88-94 | the nested loop holds each startup once with its best match |
| InvestorHome.GetBestMatches | apps/api/src/modules/workspace/workspace-dashboard.service.ts:81-97 | for any number of mandates and any streams: shows as many startups as their first fives hold, up to eight; a startup of a first five is left out only for eight at least as good; the first five places are exact against merging the uncut streams, and no place has a higher score than without the cut |
| InvestorHome.SixthPlaceMayBeWrong | apps/api/src/modules/workspace/workspace-dashboard.service.ts:81-97 | streams for which the sixth place differs |
| InvestorHome.GoldMandatesMatchNobody | apps/api/src/modules/investors/mandates.service.ts:86-102 | over any history the engine has written, a mandate asking for Gold or Platinum has an empty stream |
| FounderActivity.Aggregate | apps/api/src/modules/startups/founder-activity.service.ts:73-161 | every entry is a row of its own table at that row's time (connections and documents for the owner only, traction only if touched after publishing, verification only once it happened), each once, newest first; an eligible row is left out only for a full feed at least as new; and the times are those of sorting everything and slicing once |
| FounderActivity.Gather | apps/api/src/modules/startups/founder-activity.service.ts:77-158 | the entries before the sort are eligible rows, the cut of every source |
| FounderActivity.SourcesAreEligible | apps/api/src/modules/startups/founder-activity.service.ts:99-158 | the rows of all sources are exactly the eligible entries |
| FounderActivity.RecentlyActiveStartupIds | apps/api/src/modules/startups/founder-activity.service.ts:34-71 | reading one row a startup from each table gives the first `limit` of a ranking of all rows by each startup's newest |
| FounderActivity.MostRecentByStartup | apps/api/src/modules/startups/founder-activity.service.ts:59-65 | the loop keeps each known startup's newest row |
| Verification.VerifiedIffEarnedAndHeld | apps/api/src/modules/verification/verification-engine.service.ts:42-71 | over any interleaving of signal changes and recomputes: verified exactly if some recompute saw everything and every later one saw enough |
| Verification.VerifiedNextIff | apps/api/src/modules/verification/verification-engine.service.ts:59-63 | becoming verified takes all six other checks, staying verified lets one of five lapse |
| Verification.NextStatusCases | apps/api/src/modules/verification/verification-engine.service.ts:42-63 | verified with all three signals, unverified with none, pending in between; either registration evidence suffices |
| Verification.EightyPercentIsSix | apps/api/src/modules/startups/profile-completion.service.ts:60-77 | the percentage of seven checks is 0, 14, 29, 43, 57, 71, 86 or 100, so it reaches 80 exactly at six |
| Verification.IdempotentIff | apps/api/src/modules/verification/verification-engine.service.ts:49-71 | a second recompute changes nothing exactly unless a verified profile lost just deck and registration |
| Verification.FallsTwice | apps/api/src/modules/verification/verification-engine.service.ts:49-71 | a run of a new profile that is verified, loses deck and registration, and is PENDING after one recompute and UNVERIFIED after the next |
| Verification.SettlesAfterTwo | apps/api/src/modules/verification/verification-engine.service.ts:49-71 | a third recompute never changes anything |
| Verification.RejectedStays | apps/api/src/modules/verification/verification-engine.service.ts:51 | a rejected profile is untouched by every run |
| Verification.TrailAgreesAlways | apps/api/src/modules/verification/verification-engine.service.ts:65-179 | in every run verifiedAt is set iff verified, and the audit trail alone determines status, ledger and announcements |
| Verification.TrailIsTheChanges | apps/api/src/modules/verification/verification-engine.service.ts:65-150 | in every run the audit trail is the changes of status, each at the time of the recompute that made it |
| Verification.StartupRow.RecomputeStartup | apps/api/src/modules/verification/verification-engine.service.ts:49-71 | the row and all it writes become exactly the model's |
| Verification.StartupRow.OnTransition | apps/api/src/modules/verification/verification-engine.service.ts:138-179 | one audit entry, the ledger row the status calls for, an announcement on VERIFIED |
| Slug.SlugifyIsSlug | packages/utils/src/slug.ts:5-15 | every output is over [a-z0-9-] with no leading, trailing or doubled hyphen |
| Slug.SlugifyFixesExactlySlugs | packages/utils/src/slug.ts:5-15 | the identity on exactly the strings in that form |
| Slug.SlugifyIdempotent | packages/utils/src/slug.ts:5-15 | slugifying twice is slugifying once |
| Slug.SlugIsJoinedWords | packages/utils/src/slug.ts:5-15 | the chain of rewrites equals an independent definition: the words of the folded name joined by hyphens |
| SlugNames.SlugIsWordsRead | packages/utils/src/slug.ts:5-15 | for every name: the slug is the words that one reading collects (letters and digits continue a word, any space or hyphen ends it, the rest is dropped), joined by hyphens |
| SlugNames.AsciiSlug | packages/utils/src/slug.ts:5-15 | for every ASCII name: those words in lower case, with nothing else assumed |
| SlugNames.SpacesBecomeHyphens | packages/utils/src/slug.ts:5-15 | words with spaces between them become the same words with hyphens between them |
| Slug.CollapsedIsFramed | packages/utils/src/slug.ts:12-13 | collapsing spaces and hyphens leaves the joined words with at most one hyphen at each end |
| UniqueSlug.GenerateUniqueSlug | apps/api/src/modules/startups/startups.service.ts:126-135 | terminates for every set of taken slugs within one lookup more than there are, with the first free name; in normal form unless the name had no letters or digits and its first choice was taken |
| UniqueSlug.DecimalReadsBack | apps/api/src/modules/startups/startups.service.ts:132 | a printed suffix reads back as its number |
| UniqueSlug.TakenNames | apps/api/src/modules/startups/startups.service.ts:131-133 | n candidate names all taken means at least n slugs taken |
| UniqueSlug.UniqueSlugIsFixed | apps/api/src/modules/startups/startups.service.ts:126-135 | slugify leaves the result alone exactly if the base is non-empty or the first name was free |
| UniqueSlug.HyphenNameGetsMinusTwo | apps/api/src/modules/startups/startups.service.ts:126-135 | a second startup named "-" gets "-2", which slugify turns into "2" |
| CircuitBreaker.RedisCircuitBreaker.HandleError | apps/api/src/common/queue/redis-circuit-breaker.ts:37-58 | takes the model's error step |
| CircuitBreaker.RedisCircuitBreaker.HandleHealthy | apps/api/src/common/queue/redis-circuit-breaker.ts:61-72 | takes the model's healthy step, which leaves a paused worker paused |
| CircuitBreaker.RedisCircuitBreaker.Schedule | apps/api/src/common/queue/redis-circuit-breaker.ts:74-81 | clears the last timer and arms another |
| CircuitBreaker.RedisCircuitBreaker.HandleFire | apps/api/src/common/queue/redis-circuit-breaker.ts:76-79 | resets the count and resumes, keeping the stale handle |
| CircuitBreaker.ClosedFormHolds | apps/api/src/common/queue/redis-circuit-breaker.ts:26-81 | every field, the armed timer with its delay and the worker's pause are functions of the events: tripped from the third error since the last healthy event, backing off min(5000 * 2^k, 300000), paused only by the tripping error and only until a timer fires |
| CircuitBreaker.OneTimerOnlyWhileTripped | apps/api/src/common/queue/redis-circuit-breaker.ts:61-81 | at most one armed timer, only while tripped; a healthy event restores the initial fields |
| CircuitBreaker.LogsAlternate | apps/api/src/common/queue/redis-circuit-breaker.ts:50-68 | warnings and recoveries strictly alternate in every run |
| CircuitBreaker.AlwaysResumesIff | apps/api/src/common/queue/redis-circuit-breaker.ts:37-81 | a paused worker always has its timer armed exactly in the runs whose healthy events come while it is running |
| CircuitBreaker.HealthyStrandsTheWorker | apps/api/src/common/queue/redis-circuit-breaker.ts:37-72 | three errors and a healthy event leave the worker paused with no timer armed |
| CircuitBreaker.ErrorsAfterProbeDoNotPause | apps/api/src/common/queue/redis-circuit-breaker.ts:40-46 | after a probe the worker runs on through every further error |
| TrustModel.EvidenceRaisesPenaltiesLower | apps/api/src/modules/trust/trust-model.ts:136-225 | at every stage more signals never lower the score and heavier penalties never raise it |
| TrustModel.ScoreMonotone | apps/api/src/modules/trust/trust-model.ts:219-222 | the same for any weights and applicabilities |
| TrustModel.UpperClampNeverBinds | apps/api/src/modules/trust/trust-model.ts:219-222 | for any weights the rounded score is at most 100, and everything earned without penalty is exactly 100 |
| TrustModel.EveryStageReaches100 | apps/api/src/modules/trust/trust-model.ts:121-134 | all signals and no penalty score 100 at every stage |
| TrustModel.LadderIsExact | apps/api/src/modules/trust/trust-model.ts:201-225 | from S3 on the score is the points earned less the penalty |
| TrustModel.ScoreIsNearest | apps/api/src/modules/trust/trust-model.ts:110-225 | at every stage the score is the percentage of that stage's evidence, signal by signal, less the penalty, to the nearest whole number and never below 0 |
| TrustModel.RoundDivIsNearest | apps/api/src/modules/trust/trust-model.ts:219-223 | rounding is to the nearest, halves up |
| TrustModel.EachPenaltyAddsItsCost | apps/api/src/modules/trust/trust-model.ts:149-158 | nothing charged is 0; each further failed verification adds 3 and each incident its own points, whatever else is charged, up to the cap of 20; a negative count is none |
| TrustModel.EnterIsHighestReached | apps/api/src/modules/trust/trust-model.ts:174-180 | the band entered is the highest whose floor the score reaches |
| TrustModel.BandMovesOnlyDown | apps/api/src/modules/trust/trust-model.ts:173-187 | along a chain the band moves exactly when the score is more than 4 below its floor, and then falls |
| TrustModel.BandChangesAtMostFourTimes | apps/api/src/modules/trust/trust-model.ts:173-187 | over any chain the band never rises and changes at most four times |
| TrustModel.FourChangesHappen | apps/api/src/modules/trust/trust-model.ts:173-187 | four changes are reached |
| TrustModel.PromiseKeptIff | apps/api/src/modules/trust/trust-model.ts:169-187 | the code does what its comment says exactly while the score has not reached a higher band |
| TrustModel.HigherStartEndsLowerIff | apps/api/src/modules/trust/trust-model.ts:181-186 | a higher previous band ends lower exactly on the lower one's hysteresis strip |
| TrustEngine.EngineCeiling | apps/api/src/modules/trust/trust-engine.service.ts:141-189 | no profile the engine reads scores above its stage's ceiling, at most 54, and each ceiling is reached |
| TrustEngine.FactsScore | apps/api/src/modules/trust/trust-engine.service.ts:129-190 | from S3 on, what each fact the engine reads is worth: the score is exactly their points less the deductions |
| TrustEngine.Engine.ComputeAndPersist | apps/api/src/modules/trust/trust-engine.service.ts:172-201 | appends one snapshot, its band derived from the startup's newest one, and keeps the history invariant |
| TrustEngine.OwnRowsAreAChain | apps/api/src/modules/trust/trust-engine.service.ts:174-199 | each startup's rows, among everyone's, form a band chain |
| TrustEngine.HistoryOfOneStartup | apps/api/src/modules/trust/trust-engine.service.ts:174-199 | a startup's bands never rise, change at most twice and stay at or below Silver |
| TrustEngine.GapIsExactIff | apps/api/src/modules/trust/trust-engine.service.ts:213-219 | the gap never overstates the points available and is exact only at full applicability or with nothing earned |
| TrustEngine.SuggestedIff | apps/api/src/modules/trust/trust-engine.service.ts:215-216 | a component is suggested exactly when its gap reaches half a point |
| TrustEngine.DemoHidesTheLiveUrl | apps/api/src/modules/trust/trust-engine.service.ts:213-219 | a component with a point still available that is not suggested |
| PhoneOtp.PhoneVerification.Request | apps/api/src/modules/verification/phone-verification.service.ts:28-53 | refused exactly without a number or within 60 s of the user's last code; otherwise one code valid for 10 minutes is added |
| PhoneOtp.PhoneVerification.Confirm | apps/api/src/modules/verification/phone-verification.service.ts:55-94 | confirmed exactly if an open code of the user (unconsumed, every later one consumed, unexpired, fewer than five wrong guesses) has this text; counted as wrong exactly if it has another; accepted guesses equal their codes and wrong ones do not, in every run |
| PhoneOtp.ConfirmIs | apps/api/src/modules/verification/phone-verification.service.ts:55-94 | what a guess at the current code comes to, and all that it changes |
| PhoneOtp.ConfirmOutcomes | apps/api/src/modules/verification/phone-verification.service.ts:55-94 | the same two equivalences for every table |
| PhoneOtp.PhoneVerification.CountWrong | apps/api/src/modules/verification/phone-verification.service.ts:69-72 | one more attempt on that code and nothing else |
| PhoneOtp.PhoneVerification.Accept | apps/api/src/modules/verification/phone-verification.service.ts:74-91 | consumes the code, stamps the phone and writes one ledger row together |
| PhoneOtp.NewestIsNewest | apps/api/src/modules/verification/phone-verification.service.ts:56-59 | no unconsumed code of the user is newer than the one guessed at |
| PhoneOtp.WrongGuessesPerWindow | apps/api/src/modules/verification/phone-verification.service.ts:34-72 | in any window of W ms a user's wrong guesses are at most 5(floor((W + 600000)/60000) + 1), and at most 5(floor(W/60000) + 2) plus five for each code from before the window that was accepted in it |
| PhoneOtp.GuessedWereCurrent | apps/api/src/modules/verification/phone-verification.service.ts:55-71 | the codes guessed at in a window are those created in it, those from before it accepted in it, and at most one more |
| PhoneOtp.SpacedCodes | apps/api/src/modules/verification/phone-verification.service.ts:34-40 | codes at least a minute apart: how many fit in an interval |
| PhoneOtp.LedgerCountsConsumedCodes | apps/api/src/modules/verification/phone-verification.service.ts:75-91 | the ledger has one OTP_PHONE row for each consumed code |
| PhoneOtp.WrongGuessKeeps | apps/api/src/modules/verification/phone-verification.service.ts:56-71 | a guess counted at the newest unconsumed code keeps the five-attempt bound, the spacing and that every guess was made at the newest one |
| PhoneOtp.AcceptKeeps | apps/api/src/modules/verification/phone-verification.service.ts:74-91 | an acceptance keeps "each code accepted at most once, one row each" |
| DocumentAccess.DataRoom.Share | apps/api/src/modules/documents/document-access.service.ts:48-78 | upserts the pair's single grant, resetting revocation and NDA |
| DocumentAccess.DataRoom.Revoke | apps/api/src/modules/documents/document-access.service.ts:80-93 | only the document's owner stamps the revocation |
| DocumentAccess.DataRoom.AcceptNda | apps/api/src/modules/documents/document-access.service.ts:95-100 | only the recipient stamps the NDA, and only if one is required |
| DocumentAccess.DataRoom.Access | apps/api/src/modules/documents/document-access.service.ts:103-124 | unknown documents are not found, the owner is let in, anyone else exactly if the history authorises it, with one view row |
| DocumentAccess.DecideIffAuthorised | apps/api/src/modules/documents/document-access.service.ts:103-120 | a non-owner is let in exactly if the history authorises it, and asked for the NDA exactly if only that is missing |
| DocumentAccess.EveryViewWasAuthorised | apps/api/src/modules/documents/document-access.service.ts:112-122 | every view row was written while the history before it authorised the viewer |
| DocumentAccess.ViewCountIsOpens | apps/api/src/modules/documents/document-access.service.ts:136-147 | the count shown is the number of successful opens; the owner never counts |
| DocumentAccess.ListedIffNotRefused | apps/api/src/modules/documents/document-access.service.ts:112-157 | listed exactly if access would not refuse for lack of access and the grant does not expire this instant |
| RelationshipClaims.ClaimsService.Create | apps/api/src/modules/relationships/relationship-claims.service.ts:77-119 | each refusal in order, else one pending claim |
| RelationshipClaims.ClaimsService.Respond | apps/api/src/modules/relationships/relationship-claims.service.ts:121-157 | only the target's owner, only once; a confirmation adds exactly the mirrored pair |
| RelationshipClaims.ClaimsService.RecordTwoSidedVerification | apps/api/src/modules/relationships/relationship-claims.service.ts:160-194 | two mirrored rows |
| RelationshipClaims.RowsEqualConfirmedClaims | apps/api/src/modules/relationships/relationship-claims.service.ts:121-194 | an entity's row count equals its confirmed claims after any sequence of calls |
| RelationshipClaims.EveryRowIsMirrored | apps/api/src/modules/relationships/relationship-claims.service.ts:160-194 | every row has its mirror, from the same confirmed claim and relationship at the same time, and lasts 730 days |
| RelationshipClaims.AnswerKeeps | apps/api/src/modules/relationships/relationship-claims.service.ts:121-157 | an answer keeps one pair for each confirmed claim and none for any other |
| Sessions.TokenStore.Login | apps/api/src/modules/auth/auth.service.ts:191-218 | a login issues one token in a chain of its own, for 30 days with rememberMe and one day without |
| Sessions.TokenStore.Refresh | apps/api/src/modules/auth/auth.service.ts:164-180 | accepted exactly if live; revokes it, issues its successor, keeps the number of live tokens |
| Sessions.TokenStore.Logout | apps/api/src/modules/auth/auth.service.ts:183-189 | revokes that token only |
| Sessions.OneLiveTokenPerChain | apps/api/src/modules/auth/auth.service.ts:164-180 | at most one live token per login chain, user and rememberMe constant along it |
| Sessions.NoMoreLiveThanLogins | apps/api/src/modules/auth/auth.service.ts:164-218 | never more live tokens than logins |
| Sessions.RotatedTokenIsRefused | apps/api/src/modules/auth/auth.service.ts:170-175 | a token that has been rotated is refused for ever |
| Pagination.PagesPartition | packages/utils/src/pagination.ts:3-16 | pages 1..totalPages concatenate to the list, and totalPages is the least such number, at least 1 |
| Pagination.EachIndexOnOnePage | packages/utils/src/pagination.ts:3-16 | every index is on exactly one page, at the place the slice gives it |

## Left out

- CSRF headers, error messages and request ids of the API client: they decide nothing.
- Calls that application code itself makes to the refresh path through `apiRequest`: single flight is about the POSTs `refreshSession` sends.
- `decayFactor`: needs real exponentials, and nothing calls it.
- The unordered fetch of 100 candidates in `matches` and how match scores are computed: the scored list is given.
- Investor, mentor and incubator verification: the same derivation without feedback.
- The two-step races between separate database calls in OTP, claims and refresh.
- The order and number of next-best actions: only which components are suggested, and by how much.
- The startup's stage from its profile, the "recent" window of `recentlyActiveStartupIds` and rows of startups that do not exist: parameters.
- Floating-point rounding in scores and percentages.
- `SessionService` revocations, password and OAuth login, MFA and e-mail OTP.
- Signed URLs, audit-log rows and events of the data room and of claims.
- HTTP controllers, validation schemas, React components and the other services.
