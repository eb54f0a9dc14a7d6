# CronLite: a verified model of the scheduling and delivery protocol

CronLite fires webhooks on cron schedules. Its correctness rests on one `executions` table that many
processes share: leaders insert due executions, workers claim and deliver them, and a reconciler
requeues claims that have become stale. This project models that protocol, together with the parts
that guard it or feed it, and proves what holds over every run.

The theorems to read first:

- **One delivery at a time** (`Lifecycle.ExclusionIsExact`, `Config.AcceptedIsExclusive`). Over every
  run with any number of workers, crashes and reconciler cycles, no two workers are ever inside a
  delivery of the same execution, *if and only if* the requeue threshold is at least the longest time
  a delivery can hold its claim (seven database operations, four attempts and 750 s of backoff) plus
  the clock skew. With attempts of at most 60 s this is the 990 s retry window plus overhead, which
  the default margin of 150 s covers. Validation alone does not promise it: the smallest threshold
  that is accepted leaves no room for any overhead (`Config.SmallestAcceptedIsNotEnough`).
- **Nothing is lost and nothing is reopened** (`Lifecycle.InvRun`, `Lifecycle.FinishedForever`,
  `Recovery.RequeueIsFair`, `Recovery.NothingIsLost`), with dequeue split into a locking select and an
  unguarded claim, and with no assumption about how long anybody takes. Each delivery in these runs is
  a delivery of the retry loop (`DeliveryRefinement.DeliveryFollows`).
- **A status tells the truth** (`Outcomes.StatusIsTheVerdict`, `Dispatch.DispatchContract`). After every
  run a row is delivered if and only if the one accepted write on it came from a delivery whose last
  response was in 200..299, and the whole trace of a delivery follows from the responses it meets.
- **Gap-free slots** (`GapFree.NoGaps`, `FirstWindow.GapFreeFromFirstWindowIff`), over any number of
  current and stale leaders that crash between any two steps, with the scheduler class tied to the
  step system by `TickRefinement.TickRuns`; and exactly one row for every slot any leader fired, for
  all jobs (`Interleaving.EveryScannedSlotHasOneRow`).
- **Bounded catch-up** (`CatchUp.CatchUpIsBounded`), also after a restart, which resumes from the newest
  stored row (`Restart.RestartResumes`, `Restart.RestartCatchesUp`), and **keyset paging under arbitrary changes**
  (`Scheduler.Scheduler.ProcessTick`).
- **At most one leader** (`Election.AtMostOneLeader`), also when a start runs late, and exactly when
  a leader performs its duties (`Election.WorksUnlessBlocked`).
- The circuit breaker equals its history specification, eviction from the IP limiter cannot be
  observed exactly when the rate is at least one, tags round-trip, and a schedule phrase means the
  minutes it names (`Phrases.PhrasesMeanWhatTheySay`).

## How it is organised

| file | component |
|---|---|
| `common.dfy`, `text.dfy` | shared datatypes; the string functions the parsers use |
| `dispatch.dfy` | the retry loop of one delivery, its action automaton and its time budget |
| `lifecycle.dfy`, `delivery.dfy`, `outcome.dfy`, `store.dfy`, `recovery.dfy` | the executions table as a timed step system; its deliveries as runs of the retry loop; what a final status says; the store's statements; requeue |
| `config.dfy` | the reconciler thresholds that validation accepts |
| `executions.dfy`, `cron.dfy`, `scheduler.dfy` | the unique key, schedules, and one scheduler tick |
| `catchup.dfy`, `restart.dfy`, `gapfree.dfy`, `firstwindow.dfy`, `interleaving.dfy`, `refinement.dfy` | catch-up; one job seen from outside, and restarts; the step system of leaders, its first windows and its inserts; the tick as one of its runs |
| `ratelimit.dfy`, `breaker.dfy` | the token buckets and the circuit breaker |
| `election.dfy`, `sessions.dfy` | leadership terms and the leader runtime; admin sessions |
| `tags.dfy`, `queries.dfy`, `natural.dfy`, `phrases.dfy` | tag text, list queries, the parser of schedule phrases, and what phrases and cron expressions mean |

Instants and durations are whole nanoseconds. Clocks, random tokens, webhook results, failing
queries and the order of steps are parameters, so every theorem quantifies over them.

## Model

| member | source | states |
|---|---|---|
| `Dispatch.MaxRetryDuration` | internal/dispatcher/dispatcher.go:16-36 | The loop totals four attempts at the 60 s limit and every backoff: 990 s. |
| `Dispatch.HoldClosedForm` | internal/dispatcher/dispatcher.go:276-433 | The budget summed backwards through the phases is 7 database operations + 4 attempts + 750 s. |
| `Dispatch.Dispatcher.Dispatch` | internal/dispatcher/dispatcher.go:276-433 | The imperative retry loop performs exactly the actions, and has the outcome, of the phase automaton that `DeliveryRefinement` finds in every run of `Lifecycle`, for every environment. |
| `Dispatch.Dispatcher.Settle` | internal/dispatcher/dispatcher.go:395-432 | The terminal write comes first; the breaker is told only if the store accepted it; denied and failing writes are told apart. |
| `Dispatch.DispatchContract` | internal/dispatcher/dispatcher.go:102-433 | For every environment the whole trace and outcome, in raw terms: failed lookup, no URL and open circuit end at once, each with its own outcome; otherwise attempts 1..k, where an error, 429 or a status of 500 and more on attempt n < 4 is followed by attempt n + 1 after exactly 30, 120 or 600 s unless that wait is cancelled, and anything else is the last; delivered is written iff the last answer is in 200..299; the breaker hears that iff the store accepted; accepted, denied and failing writes have distinct outcomes. |
| `Dispatch.ExactFrom` | internal/dispatcher/dispatcher.go:326-433 | The exact trace from any attempt on, by induction over the attempts left. |
| `Dispatch.LastIsUnique` | internal/dispatcher/dispatcher.go:326-393 | The last attempt is determined by what the delivery meets. |
| `Dispatch.SendingConforms` | internal/dispatcher/dispatcher.go:326-393 | From attempt n on, seen through its sends, its one write and its breaker call: numbering, retry rule, cancellation and verdict. |
| `Dispatch.AfterRecordWithinBudget` | internal/dispatcher/dispatcher.go:374-393 | Whatever is decided after an attempt is a legal phase and fits in what the budget reserves. |
| `Dispatch.FollowCost` | internal/dispatcher/dispatcher.go:326-433 | From any phase, the actions still to come never exceed the budget of that phase. |
| `Dispatch.DispatchWithinHold` | internal/dispatcher/dispatcher.go:25-36 | Claim plus the whole loop fit in the holding time; waits never exceed the listed backoffs. |
| `Lifecycle.InvStep` | internal/store/postgres/queries.go:163-207 | Every statement, worker step, crash and lost commit keeps: emitted rows have no claim time, in-progress rows have one, locks belong to selecting workers on emitted rows. |
| `Lifecycle.InvRun` | internal/store/postgres/store.go:787-861 | The same over every run, with late workers and requeues interleaving freely. |
| `Lifecycle.FinishedForever` | internal/store/postgres/queries.go:163-192 | A delivered or failed row never changes again, although the claim has no status guard. |
| `Lifecycle.RequeueSparesDeliveries` | internal/reconciler/reconciler.go:131-153 | With a wide enough threshold no requeue takes a row that somebody is delivering. |
| `Lifecycle.TimedRun` | internal/dispatcher/dispatcher.go:230-274 | Over every timely run each delivery stays in its budget, owns its row and is the only one. |
| `Lifecycle.TwoDeliveries` | internal/store/postgres/queries.go:188-207 | Below the threshold: an explicit run in which a second worker claims the row while the first is still delivering. |
| `Lifecycle.ExclusionIsExact` | internal/dispatcher/dispatcher.go:27-36 | At most one delivery per execution in all timely runs, if and only if holding time + skew ≤ requeue threshold. |
| `Lifecycle.DeliveriesOwnTheirRows` | internal/dispatcher/dispatcher.go:230-274 | Whoever is delivering owns a row that is in progress under exactly its own claim time. |
| `DeliveryRefinement.MoveIsStep` | internal/dispatcher/dispatcher.go:276-433 | Each move of a delivering worker in the step system does what the retry loop does in that phase and goes where it goes; the store's reply is read off the table. |
| `DeliveryRefinement.DeliveryFollows` | internal/dispatcher/dispatcher.go:230-433 | In every run, whatever interleaves, the actions of one delivery are those of the retry loop in some environment: all of them if it finishes by itself, a prefix if it crashes or is still going. |
| `DeliveryRefinement.FourSendsPerClaim` | internal/dispatcher/dispatcher.go:326-393 | In every run, the requests sent on one claim are numbered 1, 2, ..., at most four, all but the last retryable failures. |
| `Outcomes.DecisionsFollowResponses` | internal/dispatcher/dispatcher.go:374-432 | In every run, what a worker has recorded or decided to write is what the last response of that delivery says. |
| `Outcomes.OneAcceptedWrite` | internal/store/postgres/store.go:787-819 | In every run, at most one terminal write on a row is accepted. |
| `Outcomes.StatusIsTheVerdict` | internal/dispatcher/dispatcher.go:387-432 | After every run, a row is delivered (failed) iff the one accepted write on it came from a delivery of that row whose last response was (was not) an answer in 200..299. |
| `Outcomes.DeliveredWasAnswered` | internal/dispatcher/dispatcher.go:102-104 | In every run, a row marked delivered had a request answered with 2xx. |
| `Outcomes.RowsChangeOnlySo` | internal/store/postgres/queries.go:163-207 | In every run a row changes only by insert, claim, accepted terminal write (claim time kept) or requeue once stale, each with its exact new row; a deferral, cancellation or crash leaves it. |
| `ExecutionStore.Store.DequeueExecution` | internal/store/postgres/store.go:822-861 | Claims the oldest emitted row that nobody has locked, with the claim time, and changes no other row; answers none exactly when there is none. |
| `ExecutionStore.Store.UpdateExecutionStatus` | internal/store/postgres/store.go:787-819 | An unfinished row gets exactly the given status and keeps its claim time, every other row is unchanged; not found and transition denied are told apart exactly. |
| `ExecutionStore.Store.RequeueStaleExecutions` | internal/store/postgres/store.go:882-897 | Exactly one oldest batch of the stale unlocked claims becomes emitted without a claim, is counted, and nothing else changes. |
| `ExecutionStore.OldestFirst` | internal/store/postgres/queries.go:194-203 | The rows an ascending order with a limit yields: no more than the limit, all of them if fewer, none older left behind. |
| `ExecutionStore.Oldest` | internal/store/postgres/queries.go:179-186 | The row an ascending order with limit 1 yields. |
| `Recovery.AheadShrinks` | internal/store/postgres/queries.go:188-207 | No step puts a newer claim in front of an older one. |
| `Recovery.CycleShrinks` | internal/store/postgres/queries.go:194-207 | A cycle that leaves a stale row behind uses up a whole batch of the rows ahead of it. |
| `Recovery.LeavesEventually` | internal/store/postgres/queries.go:194-207 | Enough cycles to outnumber the rows ahead end the claim, at some prefix of the run. |
| `Recovery.RequeueIsFair` | internal/reconciler/reconciler.go:139-153 | A stale claim with k claims ahead leaves in_progress within k / batch + 1 cycles, whatever else happens. |
| `Recovery.PickOldest` | internal/store/postgres/queries.go:194-207 | A batch of the n oldest always exists, so a cycle is always enabled. |
| `Recovery.NothingIsLost` | internal/reconciler/reconciler.go:131-153 | From every reachable state, each unfinished execution can become claimable again. |
| `Config.Validate` | internal/config/validate.go:98-135 | No error exactly when the settings are acceptable; each of the five errors is reported iff its own condition holds (990 s is the shortest positive threshold; the requeue check is off in benchmark mode). |
| `Config.AcceptedIsExclusive` | internal/config/validate.go:117-134 | The requeue age is the requeue threshold, or the other one if that is zero; accepted ages are at least 990 s, and give exclusion once seven operations and the skew fit in the rest. |
| `Config.DefaultsAreExclusive` | internal/reconciler/reconciler.go:21-82 | The default threshold gives exclusion for 5 s operations and up to 115 s of skew. |
| `Config.SmallestAcceptedIsNotEnough` | internal/config/validate.go:125-134 | At the smallest accepted threshold, exclusion holds iff operations take no time and clocks agree. |
| `Executions.InsertKeeps` | internal/store/postgres/store.go:566-587 | An insert keeps every row, leaves its key present, and keeps keys unique. |
| `Executions.ExactlyOneRowPerKey` | schema/README.md:51 | For any list of attempts: nothing stored is lost, no key has two rows, each attempted key has one, and nothing else appears. |
| `Interleaving.RunInserts` | internal/scheduler/scheduler.go:264-285 | The table at the end of a run of any leaders and manual triggers is what their attempts, in their order, make of the first table. |
| `Interleaving.EveryScannedSlotHasOneRow` | internal/scheduler/scheduler.go:202-285 | Over every run, for every job: each (job, minute) that a step of any leader, stale or current, fired and each manual key has exactly one row at the end, no key has two, and every row was attempted. |
| `Executions.NewestIsGreatest` | internal/store/postgres/queries.go:121-128 | The restart lookup returns the greatest scheduled (not manual) time, and one that is stored. |
| `Executions.Table.TryInsert` | internal/store/postgres/store.go:566-587 | Reports a duplicate exactly when the key is taken, and then changes nothing. |
| `Executions.Table.TriggerNow` | internal/service/jobs.go:305-337 | While others insert between attempts: at most five strictly increasing whole-microsecond timestamps, each the clock rounded down or one microsecond after the one before, each taken when tried; on success one new manual row under a free key, after five duplicates or on the first other error nothing of its own. |
| `Cron.Schedule.NextIsLeastDue` | internal/cron/parser.go:43-45 | Next is the least due minute after a time. |
| `Cron.Schedule.BacklogBetween` | internal/cron/parser.go:43-45 | The backlog does not change between due times. |
| `Scheduler.SlotsAscend` | internal/scheduler/scheduler.go:194-225 | Emitted slots ascend inside the window; the scan stops early only past now; the cursor is the last slot. |
| `Scheduler.SlotsAreDue` | internal/scheduler/scheduler.go:194-213 | A time is emitted iff it is due, in the window and before where the scan stopped. |
| `Scheduler.SlotsConsumeBacklog` | internal/scheduler/scheduler.go:202-213 | Each slot takes exactly one due time off the backlog. |
| `Scheduler.JobScan` | internal/scheduler/scheduler.go:171-228 | A job contributes exactly its first cap due times; capped iff there are more; the cursor then splits the backlog. |
| `Scheduler.Scheduler.ProcessJob` | internal/scheduler/scheduler.go:171-255 | The loop leaves the table and the result that `Restart.JobContract` describes, failing inserts and lookups included. |
| `Restart.SlotsAreTheFirst` | internal/scheduler/scheduler.go:194-213 | The slots of a scan are exactly the due minutes of the window that have at most cap due minutes up to them. |
| `Restart.JobContract` | internal/scheduler/scheduler.go:171-255 | One job seen from outside: the window starts at the watermark, or else at the later of the creation time (an interval before a clock that is behind it) and the newest scheduled row that can be looked up; the first MaxFiresPerTick (1000 if unset) due minutes since then are inserted in order, except failing inserts; capped iff there are more; cursor and count exact; nothing else changes. |
| `Restart.RestartResumes` | internal/scheduler/scheduler.go:230-255 | Without a watermark, nothing is inserted at or before the newest scheduled row, and the first row inserted is the least due minute after it unless that key is taken. |
| `Restart.FirstTickDrains` | internal/scheduler/scheduler.go:117-164 | The first tick after a restart reaches the horizon or removes at least the cap from the total backlog counted from where the jobs resume. |
| `Restart.RestartCatchesUp` | internal/scheduler/scheduler.go:88-164 | A restarted leader reaches the horizon within backlog / MaxFiresPerTick + 1 ticks, the backlog counted from the earliest point where a job resumes; for one job, after its newest row. |
| `Scheduler.PageSweeps` | internal/store/postgres/queries.go:5-18 | A page continues the ascending visit and skips no job that stays enabled. |
| `Scheduler.Scheduler.ProcessTick` | internal/scheduler/scheduler.go:117-164 | Terminates; strictly ascending visit, so no job twice; every job enabled throughout is visited and every visited one was enabled; table and watermark as specified; a failing page leaves the watermark. |
| `CatchUp.CappedJobDrains` | internal/scheduler/scheduler.go:215-225 | A capped job consumes exactly the cap from its backlog, to any horizon past its cursor. |
| `CatchUp.WatermarkRises` | internal/scheduler/scheduler.go:139-157 | The new watermark is now, or strictly above the old one and the cursor of a capped job. |
| `CatchUp.TickDrains` | internal/scheduler/scheduler.go:125-157 | A tick reaches the horizon, or raises the watermark and removes at least the cap from the total backlog. |
| `CatchUp.CatchesUp` | internal/scheduler/scheduler.go:117-164 | Ticks that outnumber the backlog divided by the cap reach the horizon. |
| `CatchUp.CatchUpIsBounded` | internal/scheduler/scheduler.go:117-164 | At most backlog / MaxFiresPerTick + 1 ticks are needed. |
| `GapFree.InvStep` | internal/scheduler/scheduler.go:117-228 | Every step of every leader, crashes between two inserts included, keeps all owed slots present below every watermark, scan position and row. |
| `GapFree.InvRun` | internal/scheduler/scheduler.go:88-164 | The same over every run. |
| `GapFree.WindowCoveredIn` | internal/scheduler/scheduler.go:230-255 | Wherever a window starts (watermark, creation, newest row, failed lookup), nothing owed before it is missing. |
| `GapFree.NoGaps` | internal/scheduler/scheduler.go:88-255 | After any run, every due minute after the base and up to the newest scheduled row, and up to the watermark of each leader that has met the job, has exactly one row. |
| `GapFree.OnlyEarlierLeadersAnchor` | internal/scheduler/scheduler.go:230-233 | The base moves past the creation time only for a leader that was running before the job appeared. |
| `FirstWindow.FirstRun` | internal/scheduler/scheduler.go:230-255 | Over every run, the first window of a job starts at a watermark older than the job, at its creation, or an interval before a clock that is behind the creation; until then it has no scheduled row. |
| `FirstWindow.FirstWindowsAreExact` | internal/scheduler/scheduler.go:230-255 | Exactly these pairs of first window start and anchor (highest watermark with which a leader met the job for the first time) occur. |
| `FirstWindow.GapFreeFromFirstWindowIff` | internal/scheduler/scheduler.go:117-255 | For every first window start and anchor that occur: no due minute after that start is missing, up to the newest row and up to every watermark, in any run, iff no due minute lies between it and the later of creation and anchor. |
| `FirstWindow.SkippedSlot` | internal/scheduler/scheduler.go:230-254 | The whole failing family: each due minute in between is missing below the newest row in some run, by a second early leader or by a successor that starts from the creation time. |
| `FirstWindow.SlotsCanBeSkipped` | internal/scheduler/scheduler.go:230-255 | Concrete inputs for the three ways in which it fails. |
| `TickRefinement.ScanRuns` | internal/scheduler/scheduler.go:202-225 | The per-job loop is a run of insert steps with the same table and cursor. |
| `TickRefinement.JobRuns` | internal/scheduler/scheduler.go:171-228 | Processing one job is a run with the same table and watermark. |
| `TickRefinement.TickRuns` | internal/scheduler/scheduler.go:117-164 | Every tick of the scheduler class, completed or cut short, is a run of the step system with the same table and watermark, so the gap-free theorem applies to it. |
| `RateLimit.NamespaceLimiter.Allow` | internal/api/middleware.go:382-405 | The in-place limiter is the unpruned reference bucket. |
| `RateLimit.IpLimiter.Allow` | internal/api/middleware.go:254-286 | The in-place limiter follows its step function and never exceeds the client cap. |
| `RateLimit.IpLimiter.PruneStale` | internal/api/middleware.go:288-294 | Removes exactly the clients silent for the TTL. |
| `RateLimit.EarnedAdds` | internal/api/middleware.go:273-278 | Truncated refills over two intervals never exceed one refill over both. |
| `RateLimit.EvictionCannotBeObserved` | internal/api/middleware.go:254-294 | For nondecreasing clocks and an unreached cap, pruned and unpruned limiters answer every sequence alike, iff the rate is at least one. |
| `RateLimit.EvictionShows` | internal/api/middleware.go:264-294 | Below rate one, an evicted client is let in again where the unpruned limiter refuses. |
| `RateLimit.IpWindowBound` | internal/api/middleware.go:254-294 | After any history, at most rate + floor(D·rate) requests of a client pass in a window of length D, and the cap on clients holds. |
| `RateLimit.NamespaceWindowBound` | internal/api/middleware.go:382-405 | The same bound for the namespace limiter. |
| `RateLimit.RefillIsExact` | internal/api/middleware.go:273-285 | The exact bucket after a request: tokens plus floor(elapsed seconds · rate), at most the rate, less one if that is at least one, and allowed exactly then. |
| `RateLimit.TokensAreGood` | internal/api/middleware.go:382-405 | A client with n tokens in hand, n at most the rate, has its next n requests allowed, whenever they come and whoever else asks; a new client has a full bucket. |
| `RateLimit.SilentClientGetsItsRate` | internal/api/middleware.go:382-405 | After a second of silence a client gets its next rate requests. |
| `RateLimit.ShippedLimiter` | internal/api/middleware.go:215-252 | Both results hold of the shipped limiter (10 minutes, 1 minute, 10 000 clients) for every rate of at least one. |
| `RateLimit.HistoryKeeps` | internal/api/middleware.go:264-285 | Over any history tokens stay between 0 and rate, and the number of clients within the cap. |
| `Breaker.CircuitBreaker.constructor` | internal/circuitbreaker/breaker.go:38-54 | An empty history; the probe count is at least one. |
| `Breaker.CircuitBreaker.Allow` | internal/circuitbreaker/breaker.go:56-84 | Passes iff fewer than threshold failures since the last success, or cooled down with nothing passed since the last failure, or 1..probes-1 passed since. |
| `Breaker.CircuitBreaker.RecordSuccess` | internal/circuitbreaker/breaker.go:86-97 | Keeps the state of every URL in agreement with the extended history. |
| `Breaker.CircuitBreaker.RecordFailure` | internal/circuitbreaker/breaker.go:99-114 | Keeps the state of every URL in agreement with the extended history. |
| `Breaker.OnlyKeeps` | internal/circuitbreaker/breaker.go:56-114 | The history measures of a URL depend only on that URL's calls. |
| `Breaker.UrlsAreIndependent` | internal/circuitbreaker/breaker.go:56-84 | Histories that agree on a URL get the same answer for it. |
| `Election.InvRun` | internal/leaderelection/leader.go:107-213 | Every step keeps contexts, the running flag and the lock consistent, late starts included. |
| `Election.ActiveHoldsLock` | internal/leaderelection/leader.go:107-191 | Duties with an uncancelled context run only in the current term, holding the lock unless the server dropped the connection. |
| `Election.AtMostOneLeader` | cmd/cronlite/main.go:235-307 | Across instances and terms at most one set of uncancelled duties whose connection is kept. |
| `Election.WorksUnlessBlocked` | cmd/cronlite/main.go:235-284 | Over every run, a leader whose start has run performs its duties iff it is not shutting down and its start did not find the running flag on. |
| `Election.PunctualLeadersWork` | cmd/cronlite/main.go:235-307 | Corollary: it does if no start of the instance ever ran late. |
| `Election.LateStartCanIdleALeader` | cmd/cronlite/main.go:235-307 | A start that runs after its stop can leave the flag on, so a later term has a leader without duties. |
| `Election.DroppedConnectionAllowsTwo` | internal/leaderelection/leader.go:195-213 | Without the assumption that the server keeps the lock, two active leaders are reachable before a ping fails. |
| `Sessions.SessionManager.Login` | internal/webadmin/auth.go:57-103 | Exact new table: old cookie and expired rows go, one new session, nothing else changes; success, rejection and each failing store or random-source call told apart, with the table each leaves. |
| `Sessions.SessionManager.Authenticate` | internal/webadmin/auth.go:105-137 | Accepted iff the token is stored, both limits are in the future, its key is enabled and no due refresh fails; refreshed in the second half of the idle period to the exact new row, capped by the absolute limit; an error iff the lookup fails; otherwise no change. |
| `Sessions.SessionManager.Logout` | internal/webadmin/auth.go:139-147 | Unless the delete fails, the session is gone for every later time; the others stay. |
| `Sessions.PacedIsAccepted` | internal/webadmin/auth.go:105-137 | From any good session, requests at most half the idle TTL apart are accepted until the absolute limit. |
| `Sessions.PacedSessionLives` | internal/webadmin/handler.go:114-122 | The same from login, for every valid pair of TTLs. |
| `Sessions.InvRun` | internal/store/postgres/queries.go:276-306 | Under any interleaving, expiry never exceeds last activity plus the idle TTL, nor the absolute limit. |
| `Sessions.OnlyEnabledKeysAuthenticate` | internal/store/postgres/queries.go:288-298 | Over every run, each acceptance is of a token that a login with an enabled key issued and that was not logged out before the lookup, and its key was enabled at that lookup. |
| `Sessions.NoAuthenticationTooLate` | internal/webadmin/auth.go:86-137 | Every successful authentication came before creation + absolute TTL and less than the idle TTL after the last activity. |
| `Tags.ParseTags` | internal/webadmin/forms.go:24-45 | The loop computes the parser specification, and accepted lists are well formed. |
| `Tags.ParseIsExact` | internal/webadmin/forms.go:24-45 | For every text: accepted with exactly the tags of its non-blank lines in order; or the error names the first line that is no tag; or the first key that an earlier line already has. |
| `Tags.TagsText` | internal/webadmin/handler.go:356-362 | The loop prints a text that parses back to every well-formed list. |
| `Tags.ParsedIsWellFormed` | internal/webadmin/forms.go:24-45 | Accepted tags have distinct, trimmed, non-empty keys without '=' and newline, and trimmed, non-empty values. |
| `Tags.PrintedParses` | internal/webadmin/handler.go:356-362 | Parsing undoes printing for well-formed lists. |
| `Tags.RoundTripIsExact` | internal/webadmin/forms.go:24-45 | Parsing undoes printing iff the list is well formed. |
| `Tags.AcceptedTextIsStable` | internal/webadmin/forms.go:24-45 | Printing what was accepted and parsing it again changes nothing. |
| `Queries.AddCondition` | internal/store/postgres/store.go:265-293 | A further condition keeps placeholders numbered 1..n, each once, and narrows the selection by itself only. |
| `Queries.BuildConditions` | internal/store/postgres/store.go:259-307 | Shared form of the two job builders: placeholder i is argument i, once; selects exactly the rows the filter describes; page size 100 by default and at most 1000, offset at least 0. |
| `Queries.BuildJobQuery` | internal/store/postgres/store.go:256-307 | The same for the plain job list. |
| `Queries.BuildJoinedQuery` | internal/store/postgres/store.go:332-379 | The same for the job list joined to schedules. |
| `Queries.BothListsSelectTheSameJobs` | internal/store/postgres/store.go:332-379 | With primary and foreign key, both lists select the same jobs, each once. |
| `Queries.BuildExecutionQuery` | internal/store/postgres/store.go:653-712 | The execution list selects exactly the executions the filter describes, with the same numbering law. |
| `Queries.FoldIgnoresCase` | internal/store/postgres/store.go:275-279 | The name filter identifies exactly the two cases of each letter. |
| `Queries.PlainNameIsSubstring` | internal/store/postgres/store.go:275-279 | Without wildcards the name pattern matches exactly the names that contain it, ignoring case. |
| `Queries.DecoyEscapesTheName` | internal/store/postgres/store.go:275-279 | With a wildcard or backslash some name matches that does not contain the text. |
| `Queries.NameFilterIsExact` | internal/domain/filter.go:27-33 | The name filter is the documented substring match iff it holds no %, _ or backslash. |
| `Phrases.ExpressionIsDue` | internal/service/jobs.go:475-529 | Read field by field (`*`, steps, numbers, ranges), the expression is due exactly at the minutes, hours and weekdays that the phrase names. |
| `Phrases.PhraseParses` | internal/service/jobs.go:449-529 | Every phrase of the grammar, with any blanks, singular or plural units, optional minutes and am or pm, is understood, or rejected exactly for its numbers. |
| `Phrases.OnlyPhrasesParse` | internal/service/jobs.go:449-529 | Nothing outside the grammar is accepted. |
| `Phrases.PhrasesMeanWhatTheySay` | internal/service/jobs.go:449-564 | In any case and with any space around it, a phrase is accepted iff its numbers make sense, and the returned expression is due exactly when the phrase says. |
| `Phrases.AcceptedIsAPhrase` | internal/service/jobs.go:471-531 | Every accepted input is a phrase of the grammar in range. |
| `Phrases.DescriptionIsUsual` | internal/service/jobs.go:475-529 | The description is the usual spelling of what was understood: single blanks, plural units, 24-hour hh:mm. |
| `NaturalLanguage.PlansAreInRange` | internal/service/jobs.go:471-531 | Minutes, hours, days and counts of every accepted phrase are in range. |
| `NaturalLanguage.TwelveHourClock` | internal/service/jobs.go:533-564 | am and pm map 12, 1, ..., 11 to the two halves of the day. |
| `NaturalLanguage.DescriptionParses` | internal/service/jobs.go:449-531 | The description of every plan in range parses to that plan. |
| `NaturalLanguage.DescriptionIsFixedPoint` | internal/service/jobs.go:449-564 | For every accepted phrase, parsing its description returns the same expression and description. |

## Where code and documentation differ

- A comment in `internal/dispatcher/dispatcher.go:297-300` says that a row whose circuit is open is
  released. Nothing releases it: it stays in progress until it is requeued, and the model does the same.
- `internal/domain/filter.go:31` documents the name filter as a substring match; the query uses ILIKE
  with the text unescaped. `Queries.NameFilterIsExact` says when the two agree.
- A job's slots are not owed from its first window start alone. That start can be the watermark of a
  leader that was running before the job appeared, or lie before a creation time that the leader's
  clock has not reached, while the next leader starts from the creation time or from its own, later
  watermark. `GapFree.NoGaps` therefore counts from the later of the creation time and the highest
  such watermark, and `FirstWindow.GapFreeFromFirstWindowIff` says exactly when that makes no
  difference.

## Left out

- REST and MCP handlers, HTML pages, HTTP sending, signing, hashing and identifiers: transport, or opaque.
- The cron expression parser and time zones: a schedule is any unbounded set of due minutes; expressions with no due minute are excluded.
- Redis analytics, metrics and logging: no effect on protocol state.
- The channel-mode bus and the re-emission of orphans: in database mode the emitter does nothing.
- Environment loading, webhook URL validation, job deletion and API key bootstrap: would only add easy members.
- Floating-point rounding of token refills: elapsed time times rate is exact and then truncated.
- Leader election, and the interleaved executions table, sessions and scheduler ticks, are step functions on values, because steps of different processes interleave; a shared heap with real goroutines is not modelled. The sequential form of each operation is a class where the source has one, except for `leaderRuntime`, whose flag, contexts and wait group are fields of `Election.Instance`.
- Locking order inside one statement: a requeue or a terminal write is one step; the claiming transaction is two.
- `Lifecycle` lets a select take any emitted unlocked row, which is more than the oldest-first order of `ExecutionStore.Store.DequeueExecution`.
- One database clock; the reconciler's clock may run ahead of it by a bounded skew.
- Liveness of workers and the reconciler: recovery is stated per requeue cycle that does run.
- Failing store calls are taken to have no effect in `Executions` and `Sessions`; in `Lifecycle` a commit may take effect although the worker gets an error.
- GapFree.NoGaps: the followed job stays enabled, keeps its schedule, and each of its inserts succeeds or is a duplicate; a failing insert is skipped for good by the code.
- Sessions.NoAuthenticationTooLate: a random token is never handed out twice.
- Letter case: `Lower` and ILIKE fold ASCII letters (and the two other characters that Go lower-cases into ASCII), not every locale.
- SQL text: a query is a list of conditions over numbered placeholders with its arguments; ORDER BY ties between pages are not modelled.
