# A verified model of the taxi platform's core

This project models, in Dafny, the parts of the platform where a mistake costs a lost job, a driver in the wrong state,
a wrong price or a code that can be guessed, and proves what they are for. One module models one source file or one
group of files; a module of theorems may stand beside it.

- **Durable jobs.** `JobStore` is the sorted set and hash with the claim, finish and retry scripts, updated in place;
  `JobKeys` the pure part of the runner; `JobRunner` the runner's loop. `JobProtocol` puts any number of instances in
  any interleaving, and refines the lease comparison against a simple form in which each entry remembers the run that
  owns it. `JobSafety` has the theorems over whole runs: fencing, growing leases, no lost job, bounded failures.
- **Drivers.** `DriverIndex` is the live index by hexagon and its ring search, proved against a plain scan of all
  drivers. `DriverApproval` and `DriverLifecycle` are the account across the services that write it, each call one
  step; `DriverDecisions` says what each call decides, from the account before it to the account after it;
  `DriverPlates` and `DriverPause` prove what every run of these keeps of plates and pauses.
- **Expiring counters.** `RateLimit` and `Otp`: counters with an expiry over one clock, and what passes in any stretch
  of time.
- **Algorithms and formats.** `HexCluster` (flood fill), `HexHistory` (undo and redo), `HexStats` (learned speeds),
  `Surge` and `Demand`, `Csv` with a strict reader, `Polyline` with the encoder it undoes.
- **Money.** `FareEngine`, `RideModes` and `Pricing`, and the admin panel's preview of the fare.

Code that changes state is a class whose methods are proved equal to a function of the old state, or directly to what
the source promises; the theorems are about those functions. Laws that go from one call to another, with the source's
own numbers written out, say what the functions are: a claimed job is hidden for 59,999.5 ms
(`JobSafety.HiddenForAMinute`), a driver just updated is found (`DriverIndex.UpdatedIsFound`), a learned speed is that of
the trips that went that way (`HexStats.AnswerIsFromTrips`), a code that was sent is accepted (`Otp.SentCodeIsAccepted`). Numbers that are floating point in the source are exact
reals, with the source's own rounding and its 1e-9 nudges kept. `Collections` and `JsMath` hold shared helpers.

Some promises turned out to hold only under a condition; each has a concrete input that breaks it and the exact
condition:

- A superseded run can act on its successor's job when a key is re-scheduled and claimed again within one floored
  millisecond (`JobSafety.SameMillisecondReclaimIsNotFenced`); claims are safe exactly otherwise
  (`JobProtocol.ClaimKeepsFenceIff`), which callers ensure by re-scheduling for a later millisecond.
- A status listener that fails is only logged: a rejected driver can then stay in dispatch
  (`DriverLifecycle.FailedListenerLeavesDispatch`); the account is safe exactly when the driver was not in dispatch or
  keeps their status (`DriverLifecycle.FailedListenerIsSafeIff`).
- "A plate another driver has" is refused by its stored text only, while a plate with other spacing counts as the same
  plate elsewhere: two drivers can share a plate (`DriverPlates.RespacedPlateIsAccepted`), exactly when a call that
  passes its guards offers a text nobody has of a plate somebody has (`DriverPlates.StepKeepsApartIff`).
- The admin's preview, said to mirror the fare, can differ on every route (`FareEngine.PreviewCanDiffer`): its calculator
  always caps the multiplier at 1.5, the fare at the setting. It is the fare exactly when both caps cut the multiplier
  alike (`FareEngine.CalculatorIsFareIff`).

The fixed-window limiter lets 2·limit − 1 calls pass in a stretch as long as its window, and no more. No line of a fare is
negative for the whole-rupee bases that are stored (`FareEngine.QuoteLinesOk`); `FareEngine.PeakNegativeIff` says for
every other input when the peak line would be. An export reads back exactly when its header
names are plain (`Csv.CsvRoundTrip`), because cells are quoted and names are not.

## Model

| member | source | states |
|---|---|---|
| `JobKeys.KeyRoundTrip` | `apps/api/src/core/jobs/job-runner.ts:47-53` | A job key splits back into its kind and id exactly when the kind has no bar, whatever the id holds |
| `JobKeys.KeysApart` | `apps/api/src/core/jobs/job-runner.ts:48` | Two (kind, id) pairs of bar-free kinds never share a key |
| `JobKeys.TotalDelayClosedForm` | `apps/api/src/core/jobs/job-runner.ts:56` | The delays of n retries add up to backoff × (2^n − 1) |
| `JobKeys.RetriesLaterIff` | `apps/api/src/core/jobs/job-runner.ts:56` | On a clock of whole milliseconds, every retry lies in a later millisecond exactly when the back-off is at least half a millisecond |
| `JobKeys.RetriesLaterFromOneMs` | `apps/api/src/core/jobs/job-runner.ts:130` | One millisecond of back-off is enough on any clock, fractional ones included |
| `JobStore.RedisJobStore.AddJob` | `apps/api/src/core/jobs/redis-job-store.ts:45-47` | Scheduling a key replaces its run time and its data together, and touches no other key |
| `JobStore.RedisJobStore.RemoveJob` | `apps/api/src/core/jobs/redis-job-store.ts:49-51` | Removing takes the key out of both structures |
| `JobStore.RedisJobStore.ZRangeByScore` | `apps/api/src/core/jobs/redis-job-store.ts:9` | The range a claim starts from: the first `limit` due keys by score, none twice, and no key left out is due earlier than one taken |
| `JobStore.RedisJobStore.Claim` | `apps/api/src/core/jobs/redis-job-store.ts:9-16` | A claim re-scores exactly the keys of such a batch, to half a millisecond around claim time plus lease length, leaves all data, and hands each key out with its stored data |
| `JobStore.LeaseLength` | `apps/api/src/core/jobs/job-runner.ts:61-65` | A lease lies within half a millisecond of claim time plus its length, for every time and length, and is never a whole millisecond |
| `JobStore.RedisJobStore.FinishJob` | `apps/api/src/core/jobs/redis-job-store.ts:19-25` | Finish removes the job only while its score is still this lease |
| `JobStore.RedisJobStore.RetryJob` | `apps/api/src/core/jobs/redis-job-store.ts:28-34` | Retry re-schedules the job only while its score is still this lease |
| `JobStore.ShortBatchIsEverything` | `apps/api/src/core/jobs/job-runner.ts:108` | A batch below its limit was everything that was due, which is why `runDue` may stop after one |
| `JobProtocol.ClaimKeepsFenceIff` | `apps/api/src/core/jobs/job-runner.ts:61-65` | A claim keeps "the score is my lease" the same as "the entry is mine" for every live run, exactly when no live run of a claimed key was itself claimed in the same floored millisecond |
| `JobProtocol.StepRefines` | `apps/api/src/core/jobs/redis-job-store.ts:8-34` | Schedule, cancel, claim, handler end and crash each act on the scores as they would on entries that remember their owner |
| `JobProtocol.LeasesRefineOwners` | `apps/api/src/core/jobs/redis-job-store.ts:8-34` | Fencing over every interleaving of any number of instances: comparing scores with leases refines remembering the owner of each entry |
| `JobSafety.FencedWhenSchedulesAhead` | `apps/api/src/core/jobs/job-runner.ts:84-88` | The same from a condition on callers only: re-schedules lie later than the floored millisecond in which the key's live runs were claimed |
| `JobSafety.ReachableIsFenced` | `apps/api/src/core/jobs/job-runner.ts:84-88` | So every state reachable from the empty store is fenced, and its scores are leases of their owners or whole milliseconds |
| `JobSafety.SupersededEndChangesNothing` | `apps/api/src/core/jobs/redis-job-store.ts:19-34` | A run that no longer owns its entry changes nothing in the store when it finishes, fails or retries: a handler's own re-schedule survives |
| `JobSafety.SameMillisecondReclaimIsNotFenced` | `apps/api/src/core/jobs/job-runner.ts:65` | Without that condition it fails: schedule, claim, re-schedule and re-claim in one millisecond, and the first run's end deletes the second run's job |
| `JobSafety.StepKeepsBehind` | `apps/api/src/core/jobs/job-runner.ts:65` | Any step keeps any run behind its key's next claim, unless that key is re-scheduled to no later than the run's own millisecond |
| `JobSafety.SuccessiveLeasesIncrease` | `apps/api/src/core/jobs/job-runner.ts:61-65` | Over every interleaving, successive claims of a key that is not re-scheduled get strictly increasing leases; only the back-off of its own kind matters, other keys and kinds may do anything |
| `JobSafety.LeasesGrowFromAnywhere` | `apps/api/src/core/jobs/job-runner.ts:61-65` | So from every reachable state on, whatever happened before to this key or any other |
| `JobSafety.ClaimHoldsAloneIff` | `apps/api/src/core/jobs/job-runner.ts:58-65` | A claim starts a run that holds its key alone exactly when no live run of the key was claimed in the same floored millisecond |
| `JobSafety.HeldUntilLease` | `apps/api/src/core/jobs/job-runner.ts:58-59` | A claimed key held alone is in no batch claimed before its lease, keeps that score however late or crashed its run is, and is due again from the lease on; other keys, kinds and clocks may do anything |
| `JobSafety.HiddenForAMinute` | `apps/api/src/core/jobs/job-runner.ts:58-65` | In claim time: no clock up to 59,999.5 ms after the claim hands the job out again, and every clock from 60,000.5 ms on finds it due |
| `JobSafety.ReachableKeysAgree` | `apps/api/src/core/jobs/redis-job-store.ts:45-51` | The sorted set and the hash hold the same keys after every interleaving |
| `JobSafety.StepDropsIffRemoves` | `apps/api/src/core/jobs/job-runner.ts:112-132` | One step drops a scheduled key exactly when it cancels it, or ends the run holding its lease with success, no attempts left, or no handler |
| `JobSafety.NoJobIsLost` | `apps/api/src/core/jobs/job-runner.ts:112-132` | Over every interleaving, crashes included, a scheduled key that is gone was dropped by such a step, which is named |
| `JobSafety.FailureCountsBounded` | `apps/api/src/core/jobs/job-runner.ts:119-130` | Every stored and every claimed failure count stays below its handler's `maxAttempts`, over every interleaving |
| `JobSafety.ClaimWhileFailing` | `apps/api/src/core/jobs/job-runner.ts:101-119` | A claim of a failing job is its next run, with the payload and one failure per run before |
| `JobSafety.FailsExactlyMaxAttempts` | `apps/api/src/core/jobs/job-runner.ts:112-132` | Over every interleaving with all other keys, a job that always fails is claimed at most `maxAttempts` times, and between runs it is gone exactly when it has been; until then it keeps its payload, counts its failures and is due after the n-th delay from its last run |
| `JobSafety.PunctualRetries` | `apps/api/src/core/jobs/job-runner.ts:130` | Over every interleaving in which it is claimed the moment it is due, its n-th run is at its first due time plus backoff × (2^(n−1) − 1) |
| `JobRunner.Runner.Register` | `apps/api/src/core/jobs/job-runner.ts:79-82` | A kind is refused exactly when its keys would not split back; else the handler is stored with the default 3 attempts and 5 s |
| `JobRunner.Runner.Schedule` | `apps/api/src/core/jobs/job-runner.ts:84-88` | The job is stored under kind, bar and id, due at the nearest whole millisecond, with its payload and no failure; no other job changes |
| `JobRunner.Runner.Cancel` | `apps/api/src/core/jobs/job-runner.ts:90-93` | The job is gone from both structures; no other job changes |
| `JobRunner.Runner.ScheduledAt` | `apps/api/src/core/jobs/job-runner.ts:95-98` | When the job is due, or nothing |
| `JobRunner.AttemptsCountFromOne` | `apps/api/src/core/jobs/job-runner.ts:119-130` | A job that failed n times runs as attempt n + 1; after the handler's calls it is retried exactly when the handler throws and attempts are left, with its payload and n + 1 failures, and finished otherwise |
| `JobRunner.Runner.RunOne` | `apps/api/src/core/jobs/job-runner.ts:112-132` | The calls of one run in order: the handler's own, then finish or retry with this lease; on their own they leave what the protocol's settling leaves |
| `JobRunner.InterleavingKeepsDue` | `apps/api/src/core/jobs/job-runner.ts:106` | However the runs of a batch interleave, they make nothing due, and on their own jobs nothing else not due |
| `JobRunner.Runner.RunBatch` | `apps/api/src/core/jobs/job-runner.ts:106` | The runs of a batch at the same time, each making its calls in order and between them in any order: the store is what that interleaving leaves |
| `JobRunner.AfterRunKeepsDue` | `apps/api/src/core/jobs/job-runner.ts:112-132` | Running a leased job makes nothing due; a handler that keeps to its own job makes nothing else not due |
| `JobRunner.LeasedIsNotDue` | `apps/api/src/core/jobs/job-runner.ts:65` | Claiming takes exactly the claimed keys out of what is due at that time |
| `JobRunner.Runner.RunRound` | `apps/api/src/core/jobs/job-runner.ts:103-108` | One round, its runs interleaved in any way, strictly lowers the number of due jobs, runs distinct due jobs, and a short batch leaves nothing due |
| `JobRunner.Runner.RunDue` | `apps/api/src/core/jobs/job-runner.ts:101-110` | `runDue`, the runs of each batch interleaved in any way, ends with nothing due; each job runs at most once, each was due at the start, the result counts the runs; when handlers keep to their own jobs, the jobs run are exactly those due at the start |
| `HexCluster.Fill` | `apps/admin/src/lib/hex.ts:148-158` | The inner loop ends though it walks the list it grows, and collects exactly the connected component of its start |
| `HexCluster.LargestCluster` | `apps/admin/src/lib/hex.ts:143-162` | The result is a whole component of the input cells, each cell once, and no component is larger; empty exactly for no cells |
| `HexCluster.SameComponent` | `apps/admin/src/lib/hex.ts:150-158` | With mutual neighbours, every cell of a component has that same component |
| `HexCluster.SearchGoesOn` | `apps/admin/src/lib/hex.ts:147-160` | Taking one component out leaves the remaining cells closed, so the search over them is still a search over whole components |
| `HexHistory.UndoRedoOnlyMove` | `apps/admin/src/lib/hex.ts:73-83` | Any sequence of undo and redo keeps all states, and the present is the state at a cursor moved one per call and stopped at both ends |
| `HexHistory.HistoryIsBounded` | `apps/admin/src/lib/hex.ts:67-83` | Over any run the history holds at most 51 states, although redo does not trim |
| `HexHistory.PushExtendsPast` | `apps/admin/src/lib/hex.ts:67-71` | A new state drops the redo states and at most the oldest one; undoing it gives the present back; an equal state is not recorded |
| `DriverIndex.StepKeepsInv` | `apps/api/src/modules/drivers/driver-location.service.ts:74-107` | A fix, a removal, a lapsed heartbeat and pruning each keep the index consistent |
| `DriverIndex.IndexStaysConsistent` | `apps/api/src/modules/drivers/driver-location.service.ts:22-33` | Over every run, each driver is in exactly the one cell set its `driver:cell` entry names, and every driver with a heartbeat has one |
| `DriverIndex.DriverLocation.Update` | `apps/api/src/modules/drivers/driver-location.service.ts:74-97` | A fix stores the heartbeat with its position, time and heading and moves the driver to the cell of its position; busy flags and every other driver are as before |
| `DriverIndex.DriverLocation.Remove` | `apps/api/src/modules/drivers/driver-location.service.ts:99-107` | A removed driver is in no cell set and has no heartbeat; busy flags and every other driver are as before |
| `DriverIndex.DriverLocation.ClaimBusy` | `apps/api/src/modules/drivers/driver-location.service.ts:38-41` | Refused only while the driver is busy with another trip; else the flag names this one |
| `DriverIndex.DriverLocation.ReleaseBusy` | `apps/api/src/modules/drivers/driver-location.service.ts:43-44` | Frees the driver only from this very trip |
| `DriverIndex.DriverLocation.PruneStale` | `apps/api/src/modules/drivers/driver-location.service.ts:26-33` | Pruning takes the given drivers out of the given sets and drops their cell, only if they still have no heartbeat |
| `DriverIndex.LookedIsFirst` | `apps/api/src/modules/drivers/driver-location.service.ts:162-174` | The search stops after the first ring that reaches the limit, else after the last ring |
| `DriverIndex.PruneKeepsAnswers` | `apps/api/src/modules/drivers/driver-location.service.ts:165-173` | An index that lost only drivers without a heartbeat answers every query as before |
| `DriverIndex.NotInEarlierRing` | `apps/api/src/modules/drivers/driver-location.service.ts:162-171` | With disjoint rings nobody is reported twice |
| `DriverIndex.SortSorts` | `apps/api/src/modules/drivers/driver-location.service.ts:176` | Sorting by ring, then distance, keeps exactly the drivers found |
| `DriverIndex.DriverLocation.RingMembers` | `apps/api/src/modules/drivers/driver-location.service.ts:163-164` | The union of a ring's cell sets is everyone the index places in that ring |
| `DriverIndex.DriverLocation.ScanRing` | `apps/api/src/modules/drivers/driver-location.service.ts:165-172` | A ring adds exactly its available drivers of the kind within the radius, and its stale ones are exactly those without a heartbeat |
| `DriverIndex.DriverLocation.SearchRing` | `apps/api/src/modules/drivers/driver-location.service.ts:162-174` | After each ring the drivers found are the plain scan's of the rings so far, and the index has lost exactly their stale drivers |
| `DriverIndex.DriverLocation.FindNearby` | `apps/api/src/modules/drivers/driver-location.service.ts:157-177` | The answer lists exactly the live, free drivers of the kind within the radius in the rings looked at, each once with position, distance and ring, nearest first; it looks at rings until it has enough; only drivers without a heartbeat leave the index |
| `DriverIndex.RingsReachRadius` | `apps/api/src/modules/drivers/driver-location.service.ts:159` | As many rings as cover the radius at 0.92 km a ring, no more, and at least one |
| `DriverIndex.SearchAnswers` | `apps/api/src/modules/drivers/driver-location.service.ts:157-177` | A refined plain scan is such an answer in full: available drivers, each once, sorted, from no more rings than needed |
| `DriverIndex.UpdatedIsFound` | `apps/api/src/modules/drivers/driver-location.service.ts:74-177` | From a fix to an answer: a free driver just updated is listed with that position, distance and ring, in every answer of their kind that looks at the ring of their cell and reaches them |
| `DriverIndex.GoneIsNotFound` | `apps/api/src/modules/drivers/driver-location.service.ts:99-169` | Removed, busy or without a heartbeat, a driver is in no answer |
| `HexStats.IstHour` | `apps/api/src/modules/geo/hex-stats.service.ts:22-24` | The hour of UTC + 5:30, whatever the minutes |
| `HexStats.CountedOncePerResolution` | `apps/api/src/modules/geo/hex-stats.service.ts:98-119` | Every usable trip counts exactly once at each resolution, with its own km and minutes, and no other trip counts |
| `HexStats.TotalKeepsSpeed` | `apps/api/src/modules/geo/hex-stats.service.ts:120-123` | Sums of trips within 3..80 km/h are within 3..80 km/h (mediant inequality) |
| `HexStats.RowGivesBack` | `apps/api/src/modules/geo/hex-stats.service.ts:140-146` | A stored average gives back the trips, km and minutes it was averaged from |
| `HexStats.AllRowsSeen` | `apps/api/src/modules/geo/hex-stats.service.ts:139-149` | The rows of a pair add up to all its trips of all hours |
| `HexStats.LoadedIsLearned` | `apps/api/src/modules/geo/hex-stats.service.ts:135-151` | A loaded table, all-hours entries included, is the one learned straight from the trips |
| `HexStats.HexStats.Rebuild` | `apps/api/src/modules/geo/hex-stats.service.ts:89-132` | Rebuild then load: every entry is total km over total time of the stored trips whose own ends, start time and measured distance put them there, and the trips used are the plausible ones |
| `HexStats.UsableIffPlausible` | `apps/api/src/modules/geo/hex-stats.service.ts:99-103` | A trip is used exactly when it takes time and its driven distance, measured or quoted, makes 3 to 80 km/h |
| `HexStats.TripCounted` | `apps/api/src/modules/geo/hex-stats.service.ts:105-118` | One stored trip counts once for a pair and hour exactly when it went from the one cell to the other, at that resolution and in that hour of India, and nowhere else |
| `HexStats.TravelledIsTotal` | `apps/api/src/modules/geo/hex-stats.service.ts:98-119` | So the sums are those of a plain filter over the stored trips |
| `HexStats.LearnedIsFromTrips` | `apps/api/src/modules/geo/hex-stats.service.ts:120-149` | And the learned speeds are total km over total time of that filter, for every pair and hour and for all hours |
| `HexStats.AnswerIsFromTrips` | `apps/api/src/modules/geo/hex-stats.service.ts:70-151` | From trips to an answer: the speed given is that of the trips from the asked start to the asked end, in the asked hour or else any, at the finest resolution with enough of them; none when none has |
| `HexStats.HexStats.AddTrip` | `apps/api/src/modules/geo/hex-stats.service.ts:109-118` | One trip adds itself to one sum per resolution |
| `HexStats.HexStats.Averages` | `apps/api/src/modules/geo/hex-stats.service.ts:121-124` | One averaged row for each key that occurs, and no other |
| `HexStats.HexStats.Load` | `apps/api/src/modules/geo/hex-stats.service.ts:135-151` | The all-hours entries rebuilt from averaged rows are those of the trips themselves |
| `HexStats.HexStats.SpeedKmh` | `apps/api/src/modules/geo/hex-stats.service.ts:70-79` | The answer is the first of the six keys (asked hour, then all hours; fine to coarse) with enough trips; none exactly when none has |
| `HexStats.LearnedSpeedsInRange` | `apps/api/src/modules/geo/hex-stats.service.ts:12-13` | Every speed a rebuilt table can answer with is within 3..80 km/h |
| `RateLimit.RateLimiter.CountHit` | `apps/api/src/core/rate-limit/rate-limit.ts:31-36` | A hit counts in the running window or opens one of `windowS` seconds; other keys keep theirs; the reset time is ahead |
| `RateLimit.RateLimiter.Limit` | `apps/api/src/core/rate-limit/rate-limit.ts:39-42` | Refused exactly once the window has seen more than `limit` hits, with the seconds it still runs |
| `RateLimit.FirstLimitPass` | `apps/api/src/core/rate-limit/rate-limit.ts:39-42` | Within one window exactly the first `limit` calls pass |
| `RateLimit.WindowRunsFromFirstHit` | `apps/api/src/core/rate-limit/rate-limit.ts:28-35` | The window runs from its first hit for `windowS` seconds, counting every hit in it, and the next hit after it opens a new one |
| `RateLimit.PassesFitRoom` | `apps/api/src/core/rate-limit/rate-limit.ts:31-42` | What passes in a stretch of `windowS` seconds fits the rest of the running window and one more window |
| `RateLimit.AtMostTwiceLessOne` | `apps/api/src/core/rate-limit/rate-limit.ts:31-42` | At most 2·limit − 1 calls pass in any half-open stretch of `windowS` seconds, for every ordered run of calls |
| `RateLimit.TwiceLessOneIsReached` | `apps/api/src/core/rate-limit/rate-limit.ts:31-42` | And that many can: the bound is exact |
| `Otp.OtpService.SendCode` | `apps/api/src/modules/auth/otp.service.ts:39-57` | Sending counts, refuses past 5 in 15 minutes, else replaces the code for 5 minutes and clears the attempts |
| `Otp.OtpService.VerifyCode` | `apps/api/src/modules/auth/otp.service.ts:63-85` | Verifying checks pause, recent send, attempts and code in that order; a right code clears the phone's keys, a wrong one counts as a failure everywhere |
| `Otp.VerifyAnswers` | `apps/api/src/modules/auth/otp.service.ts:63-84` | Every answer exactly: paused, no send in 10 minutes, more than 5 attempts, right exactly when none of these holds and the code passes (outside dev mode the live code; in dev mode the set one, else anything but 000000), else wrong |
| `Otp.SendStores` | `apps/api/src/modules/auth/otp.service.ts:39-56` | A send is refused exactly past 5 in the window; else it stores that code for 300 seconds, the send for 600, and clears the attempts |
| `Otp.WrongCodesCount` | `apps/api/src/modules/auth/otp.service.ts:80-94` | Only wrong codes count, over all phones; the 51st in 600 seconds pauses every verify for 600 seconds |
| `Otp.SentCodeIsAccepted` | `apps/api/src/modules/auth/otp.service.ts:39-85` | From a send to a sign-in: a code sent at t is accepted at any time before t + 300, after at most 4 wrong tries for the phone, whatever other phones do, unless there is a new send or a pause |
| `Otp.OtpService.CountFailure` | `apps/api/src/modules/auth/otp.service.ts:88-94` | The failure past 50 in the window starts the pause, and no earlier one does |
| `Otp.StepKeepsGuard` | `apps/api/src/modules/auth/otp.service.ts:49-73` | While a code is live, its attempts counter outlives it and has seen every guess at it |
| `Otp.GuessesBounded` | `apps/api/src/modules/auth/otp.service.ts:63-85` | From any guarded state, over every timed run outside dev mode: at most 5 guesses are compared with each code sent, and it is accepted at most once |
| `Otp.CodesAreGuarded` | `apps/api/src/modules/auth/otp.service.ts:39-85` | The same from the empty state, for every phone |
| `Otp.AcceptedIsTheLiveCode` | `apps/api/src/modules/auth/otp.service.ts:80-82` | What is accepted outside dev mode is the phone's live code, and no code is live afterwards |
| `Otp.SendsAreCounterCalls` | `apps/api/src/modules/auth/otp.service.ts:39-47` | The codes a phone gets are the passes of a fixed-window counter, whatever else happens between them |
| `Otp.CodesPerWindow` | `apps/api/src/modules/auth/otp.service.ts:39-47` | No phone gets more than 9 codes in any 15 minutes |
| `Otp.PauseOutlastsFailures` | `apps/api/src/modules/auth/otp.service.ts:87-94` | Over every timed run, the pause never ends before the failure count that caused it |
| `Otp.CountRestartsAfterPause` | `apps/api/src/modules/auth/otp.service.ts:87-94` | So the first wrong code after a pause counts as the first |
| `DriverApproval.ChecklistMeans` | `apps/api/src/modules/kyc/driver-approval.ts:53-63` | Ready means every required check done, rejected means some check failed, and both never hold |
| `DriverApproval.ChecksMean` | `apps/api/src/modules/kyc/driver-approval.ts:38-60` | The steps in order, RC, insurance and identity where required, each done, in review or failed exactly as stored |
| `DriverApproval.NextStatusMeans` | `apps/api/src/modules/kyc/driver-approval.ts:13-25` | Which status comes out, by what holds of the papers and the current status; deciding again changes nothing |
| `DriverLifecycle.RecomputeIsSafe` | `apps/api/src/modules/kyc/driver-approval.service.ts:37-57` | Recomputing after any change of papers leaves the driver safe and everyone else alone |
| `DriverLifecycle.StepIsSafe` | `apps/api/src/modules/drivers/drivers.service.ts:201-261` | Registration, upload, review, identity result, admin decision, bulk approval, plate change, admin fix, online, offline, pause, its end, block, GPS fix and expiries each keep the account safe |
| `DriverLifecycle.LifecycleIsSafe` | `apps/api/src/modules/drivers/drivers.service.ts:357-393` | Over every sequence of these, with changing settings: online implies APPROVED, in dispatch implies online, and a cached state agrees with the row on online and kind, and on blocked whenever it says online |
| `DriverLifecycle.FailedListenerIsSafeIff` | `apps/api/src/modules/kyc/driver-approval.service.ts:53-55` | When the status listener fails and is only logged, the account stays safe exactly when the driver was not in dispatch or keeps their status |
| `DriverLifecycle.FailedListenerLeavesDispatch` | `apps/api/src/modules/kyc/driver-approval.service.ts:53-55` | An online driver whose RC was just rejected stays in dispatch when the listener fails |
| `DriverLifecycle.OnlineIsNotStuckBusy` | `apps/api/src/modules/drivers/drivers.service.ts:476-482` | Going online leaves a busy flag only for the driver's own trip that is under way, and puts them in dispatch |
| `DriverLifecycle.ApproveAllIsSafe` | `apps/api/src/modules/admin/admin-approvals.service.ts:112-145` | Approving any list of drivers keeps every account safe |
| `DriverLifecycle.ApproveLeavesOthers` | `apps/api/src/modules/admin/admin-approvals.service.ts:120-143` | Approving some drivers changes nothing for another |
| `DriverLifecycle.DriverServices.TakeOfflineNow` | `apps/api/src/modules/drivers/drivers.service.ts:484-490` | Offline in the row and the cache, and out of dispatch |
| `DriverLifecycle.DriverServices.StatusChanged` | `apps/api/src/modules/admin/driver-status-sync.service.ts:41-50` | Unless approved (or when told so) the driver goes offline and the cached state is dropped; else nothing changes |
| `DriverLifecycle.DriverServices.RecomputeStatus` | `apps/api/src/modules/kyc/driver-approval.service.ts:37-57` | Writes the status the papers give, and only when it is new: row, cache, then the listener |
| `DriverLifecycle.DriverServices.ReviewDocument` | `apps/api/src/modules/admin/admin.service.ts:118-131` | A review of an uploaded document recomputes the status; a missing one or one not uploaded is refused and changes nothing; what it stores is ReviewMeans |
| `DriverLifecycle.DriverServices.SetDriverStatus` | `apps/api/src/modules/admin/admin.service.ts:108-115` | An admin decision is written, and anything but APPROVED takes the driver offline |
| `DriverLifecycle.DriverServices.ApproveMany` | `apps/api/src/modules/admin/admin-approvals.service.ts:112-145` | The approved are exactly the pending drivers whose every check was done at the start, each once; the skipped are the rest |
| `DriverLifecycle.DriverServices.UpdatePlate` | `apps/api/src/modules/drivers/drivers.service.ts:201-261` | A plate change: refused on a trip or for another driver's plate, else row, RC, offline and cache together |
| `DriverLifecycle.NewPlateWaitsForRc` | `apps/api/src/modules/drivers/drivers.service.ts:221-242` | A new plate leaves the driver unapproved, offline and not approvable from the papers they have, for want of the RC and of no other paper that was there; the same plate typed differently changes nothing |
| `DriverLifecycle.DriverServices.BringOnline` | `apps/api/src/modules/drivers/drivers.service.ts:357-393` | Going online: refused unless approved, not paused, plan valid, photo there and selfie done (on a trip it may wait) |
| `DriverLifecycle.DriverServices.CachedState` | `apps/api/src/core/driver-state/driver-state.cache.ts:42-54` | The cached state, or the row's, which is then cached |
| `DriverLifecycle.CacheTextRoundTrip` | `apps/api/src/core/driver-state/driver-state.cache.ts:20-29` | The cached text gives the state back, for every vehicle kind that is not empty and holds no bar |
| `DriverDecisions.UploadMeans` | `apps/api/src/modules/drivers/drivers.service.ts:344-355` | An upload puts exactly that paper under review, with the status the papers then give; other papers are refused; everyone else is as before |
| `DriverDecisions.ReviewMeans` | `apps/api/src/modules/admin/admin.service.ts:118-131` | A review stores VERIFIED exactly when asked to and else rejected, for exactly that paper, with the status the papers then give; everyone else is as before |
| `DriverDecisions.IdentityMeans` | `apps/api/src/modules/kyc/driver-approval.service.ts:37-57` | An identity result is stored as it is, with the status the papers then give |
| `DriverDecisions.RejectingRejects` | `apps/api/src/modules/kyc/driver-approval.ts:20-24` | Rejecting a required paper leaves a driver who is not held rejected, offline and out of dispatch |
| `DriverDecisions.LastPaperApproves` | `apps/api/src/modules/kyc/driver-approval.ts:20-24` | Verifying the last missing paper approves a pending driver exactly when approval is automatic |
| `DriverDecisions.SetStatusMeans` | `apps/api/src/modules/admin/admin.service.ts:108-115` | The status asked for is the one stored; online and dispatch survive only approval; everyone else is as before |
| `DriverDecisions.ReadyMeans` | `apps/api/src/modules/admin/admin-approvals.service.ts:112-125` | Ready to approve: pending, with RC and insurance verified and identity approved where required |
| `DriverDecisions.ApproveAllMeans` | `apps/api/src/modules/admin/admin-approvals.service.ts:112-145` | Approving a list sets exactly its ready drivers to approved and changes nothing else of any row |
| `DriverDecisions.BlockMeans` | `apps/api/src/modules/admin/admin-users.service.ts:74-86` | A block is stored and shows on the next fix, which counts exactly for an online driver who is not blocked |
| `DriverDecisions.PauseMeans` | `apps/api/src/modules/trips/driver-blocks.service.ts:137-149` | A pause stores its end and takes the driver offline and out of dispatch; everyone else is as before |
| `DriverDecisions.LiftMeans` | `apps/api/src/modules/trips/driver-blocks.service.ts:172-184` | A lift is refused exactly when there is no pause; else the pause is over, and an otherwise fit driver can go online at any time from then on |
| `DriverDecisions.UnblockJobMeans` | `apps/api/src/modules/trips/driver-blocks.service.ts:162-167` | The job at a pause's end does the same for exactly the current pause, unless it was lifted |
| `DriverDecisions.AdminEditMeans` | `apps/api/src/modules/admin/admin-people.service.ts:95-109` | An admin's edit is refused exactly for a kind changed online or another driver's plate; else it stores the kind and tidied plate given, and nothing else |
| `DriverDecisions.RegisterMeans` | `apps/api/src/modules/drivers/drivers.service.ts:91-122` | A new driver starts pending and offline with the vehicle given and both papers to upload; refused exactly for an admin or another driver's plate |
| `DriverDecisions.GoOnlineMeans` | `apps/api/src/modules/drivers/drivers.service.ts:357-393` | Going online succeeds exactly for an approved, unpaused driver with plan, photo and selfie (or a trip); then row, cache and dispatch say so; a due selfie takes a driver who is still online offline |
| `DriverDecisions.TakeOfflineMeans` | `apps/api/src/modules/admin/admin-people.service.ts:115-120` | An admin takes exactly an online driver offline: row, cache and dispatch, and no other driver |
| `DriverDecisions.NewVehicleMeans` | `apps/api/src/modules/drivers/drivers.service.ts:221-242` | A new plate keeps a rejected driver rejected and makes any other pending, offline, with the RC to upload and the insurance as it was |
| `DriverDecisions.ChangePlateMeans` | `apps/api/src/modules/drivers/drivers.service.ts:201-261` | What an accepted plate change stores, for a new plate and for the same one |
| `DriverDecisions.ChangePlateRefused` | `apps/api/src/modules/drivers/drivers.service.ts:201-261` | A plate change is refused exactly for an approved or held driver on a trip, or for another driver's stored text |
| `DriverDecisions.LookupMeans` | `apps/api/src/core/driver-state/driver-state.cache.ts:42-54` | What the GPS path is told is what the row says of online, kind and, when online, the block |
| `DriverDecisions.GpsFixMeans` | `apps/api/src/modules/realtime/location-ingest.service.ts:45-64` | A fix puts a driver in dispatch exactly when their row says online and not blocked |
| `DriverPlates.StepPlates` | `apps/api/src/modules/drivers/drivers.service.ts:96-97` | A service call stores the text it offers exactly when its guards admit it and no other driver has that text; no other call touches plates |
| `DriverPlates.StepKeepsApartIff` | `apps/api/src/modules/drivers/drivers.service.ts:56-59` | A call lets two drivers have one plate exactly when it is admitted (not an admin and no row yet; no trip when approved or held; no kind change online), no other driver has the text offered, and without spacing another driver has it |
| `DriverPlates.PlatesStayApart` | `apps/api/src/modules/drivers/drivers.service.ts:56-59` | Over every run of service calls, when no plate is ever typed in two ways, no two drivers ever have one plate; nothing is asked of the states in between |
| `DriverPlates.SameGroupsSamePlate` | `apps/api/src/modules/drivers/dto/register-driver.dto.ts:28` | In the pattern of the request, white space between the groups makes other texts of the same plate |
| `DriverPlates.RespacedPlateIsAcceptedIff` | `apps/api/src/modules/drivers/drivers.service.ts:91-97` | Of one plate in two spacings that the pattern lets through, a second driver registers the second exactly when the stored texts differ, and then both have the plate |
| `DriverPlates.RespacedPlateIsAccepted` | `apps/api/src/modules/drivers/drivers.service.ts:91-97` | One space before the district is enough, for every plate |
| `DriverPlates.TidyIsSamePlate` | `apps/api/src/modules/admin/admin-people.service.ts:102` | However an admin types a plate, what is stored is the same plate |
| `DriverPlates.TidyIsSingleSpaced` | `apps/api/src/modules/admin/admin-people.service.ts:102` | What is stored has no white space at either end and single spaces between |
| `DriverPlates.UpperByLetter` | `apps/api/src/modules/drivers/drivers.service.ts:96` | Upper-casing changes exactly the small letters, each to its capital, in place |
| `DriverPlates.PlainKeepsTheRest` | `apps/api/src/modules/drivers/drivers.service.ts:56-59` | Without white space, what is compared of a plate is its whole upper-case text |
| `DriverPause.JobEndsItsPauseOnly` | `apps/api/src/modules/trips/driver-blocks.service.ts:161-166` | The unblock job ends exactly the pause it was made for, unless that was lifted; a stale job changes nothing |
| `DriverPause.StepKeepsPause` | `apps/api/src/modules/trips/driver-blocks.service.ts:137-149` | Before its end, no service call and no job of another pause ends a pause, except lifting or shortening it |
| `DriverPause.PausedStaysOffline` | `apps/api/src/modules/trips/driver-blocks.service.ts:133-166` | Over every run before its end in which nobody lifts or shortens it, stale unblock jobs included, a paused driver is neither online nor in dispatch |
| `DriverPause.PauseBegins` | `apps/api/src/modules/drivers/drivers.service.ts:361` | A pause takes effect at once, and an otherwise fit driver can go online again exactly from its end on |
| `Csv.QuotedReads` | `apps/api/src/modules/admin/csv.ts:14` | A quoted cell reads back as its text |
| `Csv.BareReads` | `apps/api/src/modules/admin/csv.ts:14` | A cell without special characters reads back as itself |
| `Csv.RecordReads` | `apps/api/src/modules/admin/csv.ts:21` | A line reads back as its cells |
| `Csv.RawIsNotRead` | `apps/api/src/modules/admin/csv.ts:21` | A name with special characters, written as it is, is never read as itself |
| `Csv.CsvRoundTrip` | `apps/api/src/modules/admin/csv.ts:11-22` | A strict reader for section 2 of RFC 4180 (LF line ends) recovers the header names and every cell's text exactly when there are header names and each is plain; cells may hold anything |
| `Csv.NoFormulaComesBack` | `apps/api/src/modules/admin/csv.ts:12-13` | No text cell comes back starting a formula unless it is a plain number; text that is safe comes back unchanged, other text with one leading quote mark |
| `Csv.QuoteMarkIff` | `apps/api/src/modules/admin/csv.ts:1-13` | The quote mark goes to exactly the text that starts with an equals sign, at sign, tab or carriage return, or with a sign that no digit and then digits and dots follow |
| `Csv.CellsComeBack` | `apps/api/src/modules/admin/csv.ts:12-21` | Row and column of every cell: the row's own value under that header, a missing one empty, dates as ISO text, others as printed |
| `Polyline.Next` | `apps/admin/src/lib/polyline.ts:7-18` | `next` reads one number's 5-bit groups, and null exactly when the text ends inside it |
| `Polyline.NextPoint` | `apps/admin/src/lib/polyline.ts:19-25` | One turn of the loop: the next two numbers as a point, or the end |
| `Polyline.DecodePolyline` | `apps/admin/src/lib/polyline.ts:2-28` | The loop yields the points of the recursive decoder with 32-bit operations |
| `Polyline.ZigzagRoundTrip` | `apps/admin/src/lib/polyline.ts:17` | A number survives zigzag and the 32-bit word exactly when it fits 31 bits |
| `Polyline.OrDisjoint` | `apps/admin/src/lib/polyline.ts:14` | Or-ing bits that do not meet adds them |
| `Polyline.GroupAdds` | `apps/admin/src/lib/polyline.ts:14` | Within the word, one group adds its five bits at its place |
| `Polyline.GroupsRead` | `apps/admin/src/lib/polyline.ts:11-16` | The groups of a number that fits the word are read back as that number, whatever follows |
| `Polyline.CutGroupsAreNone` | `apps/admin/src/lib/polyline.ts:12` | The groups of a number cut short are no number |
| `Polyline.DecodeEncodeIff` | `apps/admin/src/lib/polyline.ts:19-26` | Decoding an encoding gives the points back exactly when every step between them fits 31 bits |
| `Polyline.PolylineRoundTrip` | `apps/admin/src/lib/polyline.ts:1-28` | The code's decoder inverts Google's Encoded Polyline Algorithm Format on exactly those paths, and all paths on Earth are among them |
| `Polyline.DegreesComeBack` | `apps/admin/src/lib/polyline.ts:23-25` | A path on Earth comes back point by point in degrees, latitude and longitude each as written |
| `Polyline.PublishedExample` | `apps/admin/src/lib/polyline.ts:1-28` | The text that the format's own description gives for its three points decodes to them |
| `Polyline.CutDecodesToPrefix` | `apps/admin/src/lib/polyline.ts:22` | An encoding cut anywhere decodes to exactly the points that are whole |
| `Polyline.PolylineCutShort` | `apps/admin/src/lib/polyline.ts:2-28` | The same for the code's decoder on every path on Earth |
| `Surge.SurgeInRange` | `apps/api/src/modules/geo/surge.ts:9-19` | The multiplier lies on the 0.05 grid, from 1 to the cap rounded down to it, which is the cap when that is on the grid |
| `Surge.SurgeFollowsCurve` | `apps/api/src/modules/geo/surge.ts:14-17` | A surge is less than 0.05 below, and to within the nudge never above, the smaller of the cap and 1 + sensitivity × (requests per free driver − 1), and there is one exactly when bookings and ratio allow it |
| `Surge.LevelMeans` | `apps/api/src/modules/geo/surge.ts:15-18` | The level shown, exactly: high from a multiplier of 1.2 or a ratio of 3, normal only below the least number of bookings |
| `Surge.SurgeMonotone` | `apps/api/src/modules/geo/surge.ts:9-19` | More bookings or fewer free drivers never lower the multiplier nor the level shown; a surge is never shown as normal |
| `Surge.ExampleIsSurge` | `apps/admin/src/lib/validation.ts:103-108` | The admin panel's example is what the service charges once there are enough bookings |
| `Surge.OneRiderNoSurge` | `apps/api/src/modules/geo/surge.ts:14-15` | One booking alone never surges, whatever the settings |
| `Surge.BlendMono` | `apps/api/src/modules/geo/surge.ts:35-38` | Higher raw surge anywhere never lowers a smoothed value |
| `Surge.BlendKeepsOwnShare` | `apps/api/src/modules/geo/surge.ts:22-25` | Over raw values of at least 1, a smoothed value is at least the cell's own value × (1 − w) + w, rounded down to 0.05 |
| `Surge.BlendAtMost` | `apps/api/src/modules/geo/surge.ts:35-38` | A smoothed value is at most the largest raw value around, when that is on the grid |
| `Surge.LoneSurgeSpreads` | `apps/api/src/modules/geo/surge.ts:35-38` | One surging cell alone keeps 1 − w of its surge, and a neighbour gets w of it over the number of its own neighbours, rounded down to 0.05 |
| `Surge.MeanIsSumOverCount` | `apps/api/src/modules/geo/surge.ts:36` | The mean around a cell is the sum over the number of neighbours, 1 without any |
| `Surge.SumAddsUp` | `apps/api/src/modules/geo/surge.ts:36` | Sums add up in any split of the neighbours |
| `Surge.OnlyCandidatesSurge` | `apps/api/src/modules/geo/surge.ts:27-32` | Cells that neither surge nor touch a surging cell smooth to nothing |
| `Surge.Candidates` | `apps/api/src/modules/geo/surge.ts:27-32` | The cells looked at are exactly the surging ones and those next to them |
| `Surge.SmoothSurge` | `apps/api/src/modules/geo/surge.ts:26-42` | Looking at these cells only gives the same map as smoothing every cell: the cells whose blend is above 1, with it |
| `Surge.SmoothedBounds` | `apps/api/src/modules/geo/surge.ts:26-42` | Every smoothed value is above 1 and at most the largest raw value on the grid, and the smoothed map rises with the raw map |
| `Demand.DemandService.RecordRequest` | `apps/api/src/modules/geo/demand.service.ts:70-76` | A booking adds its passenger to its minute and cell and the cell to its minute, and nothing anywhere else |
| `Demand.RidersAreDistinct` | `apps/api/src/modules/geo/demand.service.ts:66-69` | A passenger counts once in the window however often they book |
| `Demand.RidersElsewhere` | `apps/api/src/modules/geo/demand.service.ts:94-100` | Bookings in another cell or outside the window are not counted |
| `Demand.DemandService.Measure` | `apps/api/src/modules/geo/demand.service.ts:94-107` | The cells measured are exactly those booked in the window; each has the surge of exactly the passengers who booked there in it, and of its free drivers |
| `Demand.RidersBooked` | `apps/api/src/modules/geo/demand.service.ts:100` | Counted are exactly the passengers who booked in the cell in some minute of the window |
| `Demand.RecentCellsBooked` | `apps/api/src/modules/geo/demand.service.ts:95-96` | Looked at are exactly the cells booked in some minute of the window |
| `Demand.DemandService.Publish` | `apps/api/src/modules/geo/demand.service.ts:109-116` | What is live afterwards is exactly the new map, and the surging set its cells; both stay in step until they expire |
| `Demand.DemandService.Refresh` | `apps/api/src/modules/geo/demand.service.ts:91-116` | After every refresh the live multipliers and the surging cells are exactly the latest smoothed map |
| `Demand.OnePassengerNeverSurges` | `apps/api/src/modules/geo/demand.service.ts:66-69` | While one passenger alone books, wherever and however often, nothing surges, whatever the settings |
| `Demand.PublishedWithinCap` | `apps/api/src/modules/geo/demand.service.ts:102-108` | Every published multiplier is above 1 and at most the cap rounded down to the 0.05 grid |
| `FareEngine.QuoteAddsUp` | `apps/api/src/modules/fares/fare-engine.ts:95-139` | For every input the lines add up, and the total is the larger of minimum fare and floored ride × multiplier |
| `FareEngine.QuoteLinesOk` | `apps/api/src/modules/fares/fare-engine.ts:114-138` | With a whole-rupee base and minimum fare every line is a whole rupee and none is negative |
| `FareEngine.RideLinesAre` | `apps/api/src/modules/fares/fare-engine.ts:114-132` | Each line of the ride: km and minutes at their own rates, less than a rupee under; the multiplier asked for, held between 1 and the cap; the top-up only up to the minimum fare |
| `FareEngine.WaitingTermsAre` | `apps/api/src/modules/fares/fare-engine.ts:133-136` | The waiting terms quoted: the free minutes, the rule's own rate or else the built-in one, and the cap, in whole rupees and never negative |
| `FareEngine.PeakNegativeIff` | `apps/api/src/modules/fares/fare-engine.ts:118-132` | For every rule, route, multiplier and cap the peak line is negative exactly when the surged ride stays below the next whole rupee of the ride |
| `FareEngine.PeakCanBeNegative` | `apps/api/src/modules/fares/fare-engine.ts:118-132` | What whole rupees are for: a base of 20.50, which no stored rule has, would be charged 20 with a peak line of −0.50 |
| `FareEngine.TotalMonotone` | `apps/api/src/modules/fares/fare-engine.ts:100-139` | The total never falls with km, minutes, any rate, the minimum fare or the multiplier |
| `FareEngine.MinuteCosts` | `apps/api/src/modules/fares/fare-engine.ts:148-153` | For any terms, the k-th minute past the free ones costs k whole rates, up to the cap |
| `FareEngine.EveryStartedMinute` | `apps/api/src/modules/fares/fare-engine.ts:148-153` | On a clock of whole milliseconds, every started minute counts from its first millisecond on |
| `FareEngine.FreeMinutesAreFree` | `apps/api/src/modules/fares/fare-engine.ts:148-153` | With a rupee or more to charge, nothing is charged exactly inside the free minutes, to within the nudge |
| `FareEngine.WaitingLineReplaces` | `apps/api/src/modules/fares/fare-engine.ts:164-168` | With any waiting line the lines still add up, the last one set wins, and setting the old one back gives the old fare |
| `FareEngine.PreviewIsFareIff` | `apps/admin/src/lib/validation.ts:131-153` | With any two caps, the admin's preview shows the fare's own lines exactly when both caps cut the multiplier alike and no charge is below zero |
| `FareEngine.CalculatorIsFareIff` | `apps/admin/src/app/(panel)/cities/[id]/fares-editor.tsx:115` | On every route fares are quoted for, the panel's calculator (cap 1.5) shows the fare exactly when the setting's cap is 1.5 too or the multiplier typed is within both |
| `FareEngine.PreviewCanDiffer` | `apps/admin/src/app/(panel)/cities/[id]/fares-editor.tsx:115` | With the setting at 1.2 and 1.4 typed they differ on every route: a ride of 100 previews as 140 and is charged 120 |
| `RideModes.LongerPackageNotCheaper` | `apps/api/src/modules/fares/ride-modes.ts:61-67` | With prices in order, a longer package costs at least as much and includes more km; equal hours mean the same terms |
| `RideModes.RentalTermsAre` | `apps/api/src/modules/fares/ride-modes.ts:24-67` | Package i has its own hours, km and price and the tier's rates past it; any other id has no terms |
| `RideModes.BookedRentalPays` | `apps/api/src/modules/fares/ride-modes.ts:61-197` | From the booking to the settled price: the i-th price, and each km and minute past the package at its own rate, to within rounding |
| `RideModes.OutstationTermsAre` | `apps/api/src/modules/fares/ride-modes.ts:89-136` | The route to the nearest tenth, the rates of the direction, and the calendar days in India to the return: one when it goes one way, has no return or returns too early |
| `RideModes.BookedOutstationPays` | `apps/api/src/modules/fares/ride-modes.ts:112-170` | From the booking to the agreed price, for any route, direction and times |
| `RideModes.ModeLinesAre` | `apps/api/src/modules/fares/ride-modes.ts:147-170` | The package or km price stands in the base and the days' allowance in the time line; no other line is set |
| `RideModes.DaysAreMidnights` | `apps/api/src/modules/fares/ride-modes.ts:92-96` | One more day exactly when one more midnight in India has passed |
| `RideModes.IncludedCoversRoute` | `apps/api/src/modules/fares/ride-modes.ts:112-136` | The km included cover the route (both ways for a round trip), and coming back later never includes fewer |
| `RideModes.OneWayPaysRoute` | `apps/api/src/modules/fares/ride-modes.ts:121-124` | A one-way price pays the route, or the minimum km, at the one-way rate, and one day: less than a rupee under, at most 900 m over |
| `RideModes.RoundTripPaysRoute` | `apps/api/src/modules/fares/ride-modes.ts:121-135` | A round-trip price pays the route both ways, or the km of its days, at the round-trip rate, and each day, within the same bounds |
| `RideModes.ModeQuoteAddsUp` | `apps/api/src/modules/fares/ride-modes.ts:147-170` | The agreed price adds up without surge, and a rental's is its package price |
| `RideModes.ExtraKmIff` | `apps/api/src/modules/fares/ride-modes.ts:187` | Extra km are charged exactly from 50 m past what was included |
| `RideModes.ExtraMinIff` | `apps/api/src/modules/fares/ride-modes.ts:189` | Extra minutes are charged exactly past the package time |
| `RideModes.RentalPaysForUse` | `apps/api/src/modules/fares/ride-modes.ts:180-197` | A settled rental is its package plus each km and minute past it at their rates, to within rounding |
| `RideModes.RoundTripPaysForUse` | `apps/api/src/modules/fares/ride-modes.ts:180-197` | A settled round trip pays every km driven, at least those included, and each day, to within rounding |
| `RideModes.SettlementAddsNothingInside` | `apps/api/src/modules/fares/ride-modes.ts:184-192` | Inside what was agreed nothing is added, and nothing ever comes off |
| `RideModes.SettlementMonotone` | `apps/api/src/modules/fares/ride-modes.ts:184-197` | More km or more minutes never settle for less |
| `Pricing.ParseSection` | `apps/api/src/modules/fares/pricing.ts:60-80` | The loop over a section's keys gives every item or the first error |
| `Pricing.ParseEachIff` | `apps/api/src/modules/fares/pricing.ts:60-80` | A section parses exactly when each of its items does, to exactly those items |
| `Pricing.RentalIff` | `apps/api/src/modules/fares/pricing.ts:63-78` | A tier is accepted as a rental rate exactly when that rate is in range, in price order, and the object holds it |
| `Pricing.MapSectionExact` | `apps/api/src/modules/fares/pricing.ts:60-80` | A section over a list of keys is accepted exactly when every key holds an accepted item; keys outside the list are ignored |
| `Pricing.RentalSectionExact` | `apps/api/src/modules/fares/pricing.ts:60-80` | For any JSON: rentals are accepted, as exactly the value held, if and only if every tier is there and in range |
| `Pricing.OutstationSectionExact` | `apps/api/src/modules/fares/pricing.ts:82-98` | The same for outstation rates |
| `Pricing.GoodsSectionExact` | `apps/api/src/modules/fares/pricing.ts:100-110` | The same for goods to another town |
| `Pricing.ShiftingSectionExact` | `apps/api/src/modules/fares/pricing.ts:112-138` | The same for house shifting, its trucks and its extras |
| `Pricing.DefaultsOk` | `apps/api/src/modules/fares/goods-modes.ts:23-28` | The built-in price book is complete and in range |
| `Pricing.PickIsPicked` | `apps/api/src/modules/fares/pricing.ts:155-159` | A section is the stored value exactly when the JSON holds one in range, else the built-in one |
| `Pricing.EffectivePricingOk` | `apps/api/src/modules/fares/pricing.ts:152-161` | Whatever JSON is stored, the price book is complete and in range, and picked section by section |
| `Pricing.StoredBookReadsBack` | `apps/api/src/modules/fares/pricing.ts:142-161` | Any book in range, an effective one included, written back reads as the same book |
| `Pricing.LongerRentalNeverCheaper` | `apps/api/src/modules/fares/pricing.ts:70-72` | In every city and tier, whatever is stored, a longer rental package never costs less |

## Left out

Assumptions and limits of the members above:

- FencedWhenSchedulesAhead: assumes every handler that retries has a back-off of at least 1 ms and that a re-schedule lies later than the floored millisecond of the key's live runs; without the latter the property fails (SameMillisecondReclaimIsNotFenced).
- RunDue: assumes handlers schedule nothing already due and retries lie in a later millisecond, as otherwise the source's loop need not end; what a handler does is any function of the job and attempt.
- Claim: the order of equal scores, by member in Redis, is left open.
- FailsExactlyMaxAttempts: is about runs that neither crash nor outlive their lease; a store operation that itself throws inside a run is not modelled.
- AddJob: the JSON text of job data is not modelled; a missing or unreadable entry reads as no payload and no failures.
- LargestCluster: hexagon geometry is any neighbour relation that is mutual.
- IndexStaysConsistent: operations run one at a time, and the 24-hour expiry of cell sets and `driver:cell` entries is not modelled.
- FindNearby: cells, rings and distance are parameters, with rings that share no cell; drivers at equal ring and distance may come in either order.
- Rebuild: cells know their resolution and a coarser cell is any function of the finer one; the query that selects the trips (60 days, 200,000 rows, finished only) is an input.
- CodesAreGuarded: holds outside dev mode, where codes are not compared; all keys expire on one clock of whole seconds, and each call is one step.
- CountHit: a missing answer of Redis (hits 0) is not modelled.
- LifecycleIsSafe: each service call is one step, so races between the row, the cache and the index inside one call are not modelled; the plan check, today's selfie and identity results are inputs; a GPS fix older than the last one changes nothing in the source, and is not told apart.
- PlatesStayApart: letters and white space are ASCII, and the database's unique column on plates is part of each call that stores one.
- PausedStaysOffline: whether a block was lifted, and whether there is one to lift, are answers of the block history; the pause's own Redis flag for dispatch is not modelled.
- CsvRoundTrip: the printed form of numbers and dates is an input.
- PolylineRoundTrip: points are whole 1e-5 degrees, the decoder's accumulated integers.
- SmoothedBounds: its bound is a value on the 0.05 grid, as every raw multiplier is; the nudge can lift a smoothed value above an off-grid one.
- Refresh: the per-minute sets never expire here (they outlive the window in the source); the lock, the snapshot and the setting that turns surge off are not modelled.
- QuoteLinesOk: needs a whole-rupee base and minimum fare, which is all the API and the database store; PeakNegativeIff covers every other input.
- OneWayPaysRoute: is about routes in tenths of a km, as the terms round them; the same of RoundTripPaysRoute.
- EffectivePricingOk: JSON numbers are exact reals; the words of an error message are shortened to their labels.
- HistoryIsBounded: starts from a history within the bound, as every new one is.

Not modelled, because it adds only easy members or foreign calls:

- Trip dispatch, the trip state machine, cancellation rules, settings, realtime events and notifications.
- H3 geometry, haversine distance and route estimates; maps, identity checks, file storage, push and sign-in tokens.
- Hexagon painting, polygons, bounds and viewport fill of the editor; the sorted list of painted cells.
- The statistics summary, accuracy replay, heat maps, list filters, paging and audit lines.
- Prices of goods to another town and house shifting beyond their price book.
- Account deletion, profile photos, gender rules, earnings sessions and idle bonuses.
