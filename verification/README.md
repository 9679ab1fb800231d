# Verification of agents-at-scale

A Dafny model of the three parts of the system that carry its guarantees, and proofs of what they keep under every
interleaving, failure and history. The Python runtime is the main subject; the Go runtime is modelled where the two
should agree. `dafny verify dfyconfig.toml` checks everything.

**Job delivery.** `JobProtocol.dfy` is the protocol as a machine: any number of API calls and workers over the status,
lock and idempotency keys of the store and over the main, retry and dead queues of the broker. One step is one store,
broker or agent call; every call may be refused or raise after taking effect, workers may crash anywhere, messages may be
delivered again, locks may expire. `JobService.dfy` (worker) and `PublishService.dfy` (API) are the same code in the
source's own form, nested exception handlers over fields updated in place, proved to make exactly the steps of the
machine while everybody else moves between any two of their calls (`Interference.dfy`). `DeliveryShape`, `NoLoss`,
`Posting`, `MutualExclusion`, `LockCauses`, `Attempts`, `StatusContract`, `StatusCauses`, `FinalCauses`, `Idempotency` and
`LostKeys` hold the invariants, `DeliveryRoutes` says where each kind of message goes, `Scenarios` and `TwinLocks` are
concrete schedules. `Backoff.dfy` is the delay table.

**Rebooking.** `Airline.dfy` holds the tables, the validator's guard chain, and the declarative side: which selections are
acceptable and what the tables are afterwards. `Rebooking.dfy` has the ORM, SQL and Go transactions as methods that change
the tables in place, proved against it. `Conservation`, `History` and `Columns` are about all histories, `SqlSerial` and
`SqlProgress` about statement-level interleavings under row locks, `LockOrder` about deadlocks. `Search.dfy` is the search
for options and its link to validation.

**Agent workflow.** `Workflow.dfy` is the graph over the persisted thread state: fan-out and join, the pause for a human,
the retry loop, exceptions and crashes, with a history of what was searched, shown, answered, validated, executed and
verified. `Routing.dfy` proves where each node leads, `AgentRuns.dfy` how runs end, `Invocations.dfy` what a caller is
told, `JobOutcome.dfy` which job status results, and `AgentRunner.dfy` is the runner. `BookedRuns.dfy` ties the workflow to
the tables it books in. `PendingInput.dfy` is the Go runtime's fold over session events.

Money is in integer cents, identifiers are numbers, and random, network and clock results are arguments that the
theorems quantify over.

## Where the code and its promises differ

- The README's status diagram has no edge from published to retrying or to failed. The code takes both: a failed read or lock
  attempt retries a job that never started, and an invalid payload fails it. The automaton in `StatusContract` has them.
- A final status can be overwritten without overlapping deliveries: after a redelivery whose status read fails, after a
  final write that raised after taking effect, and after a broker call of `publish` that raised after queueing the message,
  when `publish` and the delivery write over each other. `StatusCauses` has a schedule for each and shows there is no other way.
- An accepted job can vanish with a non-final status, but only when the failed-status write and the dead-letter publish of
  one delivery both fail.
- A repeated publish can be answered as a duplicate without a job id, because the claim and the read of the owner are two
  calls. It can name the job of a call that has raised, exactly when the claim of that call raised after taking the key or
  its release of the key was refused (`LostKeys`), and the job of a call that is still on its way and may yet fail.
- An idempotency key can have two jobs queued, but only after a broker call that raised after queueing: its call gives the
  key back.
- A lock token is the job id, so after a lock expiry two copies of one job can release each other's lock.
- The ORM transaction refuses a segment whose own fare has no row; the SQL and Go transactions book it and return no seats.
- Go reads the nil UUID as no credit and refuses the nil segment; Python takes both as ordinary ids. A request with the nil
  credit and nothing due is booked by Go and refused by Python.
- A run can end failed although its booking was made: the verification failed, or the commit took place and its answer was
  lost (`BookedRuns.ALostCommitFailsTheRun`).
- Retries are counted per thread, not per run: `retry_count` survives into later runs of the conversation.
- A resume whose run raises, or whose worker dies, after its pause was consumed is tried again by the job service, but every
  further attempt finds no pending input and the job fails, also when its booking was made (`JobOutcome.ABookedJobCanFail`).

## Model

| member | source | states |
|---|---|---|
| `NoLoss.AcceptedJobsAreKept` | langgraph-python/app/jobs/service.py:139-272 | Under every schedule of crashes, redeliveries, agent, store and broker failures, a job whose publish returned has a final status, or a copy in the main, a retry or the dead queue or in an unacknowledged delivery, or was dropped. |
| `NoLoss.DropsAreDoubleFailures` | langgraph-python/app/jobs/service.py:258-272 | A job is dropped if and only if one delivery's write of the failed status raised and its dead-letter publish, the very next call of that delivery, was refused. |
| `NoLoss.AJobCanBeDropped` | langgraph-python/app/jobs/service.py:261-271 | Gives a schedule of an accepted chat job, run to its end, that leaves no copy anywhere and no final status: the exception is real. |
| `NoLoss.ActIsCareful` | langgraph-python/app/jobs/service.py:155-272 | Every call of a worker hands the job on or records its end before it lets go of the message. |
| `MutualExclusion.OneJobPerConversation` | langgraph-python/app/jobs/service.py:171-206 | While no live holder's lock expires, at most one delivery per conversation is between acquire and release, also among copies with the same token; the lock is free if and only if nobody holds it and nobody left it behind. |
| `LockCauses.OneHolderUnlessItExpires` | langgraph-python/app/jobs/service.py:171-206 | Unless the lock expires while a delivery holds it, at most one delivery is in the locked region, and the lock is free if and only if nobody holds it and no lock left behind still waits for its expiry. |
| `LockCauses.RecordsMeanSteps` | langgraph-python/app/jobs/service.py:202-206 | A conversation is early if and only if its lock expired while held, and orphaned if and only if a raised lock attempt, a refused release or a dead worker left a lock behind that has not expired since. |
| `MutualExclusion.OneAgentPerConversation` | langgraph-python/app/jobs/service.py:190-194 | Two deliveries of one conversation never run the agent at the same time. |
| `MutualExclusion.StaleReleaseIsHarmless` | langgraph-python/app/platform/redis.py:10-17 | With expiry allowed at any time, a lock is removed or replaced if and only if it expires or a delivery of the very job whose token it carries releases it. |
| `TwinLocks.ATwinFreesTheLock` | langgraph-python/app/jobs/service.py:202-206 | Gives a schedule in which a delivery whose lock has expired releases the lock of another copy of its job, because the token is the job. |
| `Attempts.AttemptsAreBounded` | langgraph-python/app/jobs/service.py:235-256 | Agent runs of a job number at most max(max_attempts, 1) plus one per refused retry publish plus a full limit per redelivery and per retry publish that raised after queueing; deliveries obey the same bound plus one per busy-conversation delay. |
| `Attempts.LiveMessagesHaveAttemptsLeft` | langgraph-python/app/jobs/service.py:235-247 | Every message that can still be delivered has an attempt count below max(max_attempts, 1). |
| `Attempts.DelaysConsumeNoAttempt` | langgraph-python/app/jobs/service.py:175-178 | A busy conversation puts the message back at the first level with the attempt count it came with. |
| `DeliveryShape.LevelsAreNeverClamped` | langgraph-python/app/jobs/service.py:235-256 | In every reachable state the level asked of the broker has its own queue, so the clamp changes nothing, and it is the attempt number or the first level of a busy conversation. |
| `DeliveryRoutes.DuplicatesAreDropped` | langgraph-python/app/jobs/service.py:158-162 | A delivery of a job that is over: its message goes, status, locks and queues stay, and no agent runs. |
| `DeliveryRoutes.MalformedJobsAreDeadLettered` | langgraph-python/app/jobs/service.py:163-169 | A malformed payload is failed and put in the dead queue on its first delivery, with the attempt count it came with and without lock or agent. |
| `DeliveryRoutes.BusyJobsAreDelayed` | langgraph-python/app/jobs/service.py:175-178 | A job whose conversation is locked goes to the first retry queue as it is; its status and the lock stay. |
| `DeliveryRoutes.OtherJobsRunTheAgent` | langgraph-python/app/jobs/service.py:179-194 | Any other job takes the lock of its conversation with its own id, is processing, and comes to its agent run. |
| `DeliveryRoutes.RefusedRetriesAreRequeued` | langgraph-python/app/jobs/service.py:249-256 | A refused retry publish puts the message back on the main queue with the attempt count it came with. |
| `DeliveryRoutes.OnlyWellFormedJobsRun` | langgraph-python/app/jobs/service.py:163-194 | Under every schedule an agent runs only for a job that was published with a well-formed payload. |
| `StatusContract.StatusFollowsTheAutomaton` | langgraph-python/app/jobs/service.py:155-247 | Without overlapping deliveries of a job, a step moves its status along the automaton if and only if it is not one of these writes: an effective write over a different final status by a delivery that is blind or whose publish did not return, or the failed status written by publish over a success. |
| `StatusContract.FinalStatusIsKept` | langgraph-python/app/jobs/service.py:158-162 | Without overlapping deliveries and without such a write, a final status never changes again. |
| `StatusCauses.BlindnessHasACause` | langgraph-python/app/jobs/service.py:151-158 | A delivery is blind only if a call of that same delivery was a failed status read, or a final status write that raised after taking effect. |
| `StatusCauses.OverwritesHaveACause` | langgraph-python/app/jobs/service.py:117-272 | Every such write goes back to a failed status read, a final status write or a broker call of publish that raised after taking effect. |
| `StatusCauses.CleanSchedulesFollow` | langgraph-python/app/jobs/service.py:155-233 | Without overlapping deliveries and without these three kinds of calls, every step moves the status along the automaton. |
| `StatusCauses.CleanFinalsAreKept` | langgraph-python/app/jobs/service.py:158-162 | And a final status is never left. |
| `StatusCauses.APublishOverwritesASuccess` | langgraph-python/app/jobs/service.py:128-132 | Gives a schedule with one delivery, all of whose calls succeed, in which publish records a completed job as failed. |
| `StatusCauses.ASuccessOverwritesAPublish` | langgraph-python/app/jobs/service.py:128-132 | Gives the same race the other way round: the delivery completes a job that publish has failed. |
| `StatusCauses.AFailedReadOverwrites` | langgraph-python/app/jobs/service.py:151-158 | Gives a schedule in which a completed chat job becomes retrying, or failed, after the failed status read of a redelivery. |
| `StatusCauses.AnAmbiguousFinalOverwrites` | langgraph-python/app/jobs/service.py:231-233 | Gives a schedule in which a delivery makes its own completed job retrying, or failed. |
| `FinalCauses.CompletedJobsFinished` | langgraph-python/app/jobs/service.py:190-233 | Under every schedule a delivery that is about to report its job completed has itself run the agent, and that run finished. |
| `FinalCauses.WaitingJobsPaused` | langgraph-python/app/jobs/service.py:208-233 | Under every schedule a delivery that is about to report its job waiting has itself run the agent, that run paused, and the metadata for the answer were stored since. |
| `Idempotency.OneNewJobPerKey` | langgraph-python/app/jobs/service.py:117-137 | However publish calls interleave and fail, at most one call per idempotency key returns a newly queued job. |
| `Idempotency.RepeatsGetTheOriginal` | langgraph-python/app/jobs/service.py:121-124 | Once a publish has succeeded its key points to it forever; every other call of the key, begun before or after, was already over without a job and stays so, or can only raise or be told the original job and has no message. |
| `Idempotency.OneQueuedJobPerKey` | langgraph-python/app/jobs/service.py:117-137 | Unless a call of the key had its broker call raise after queueing, all messages of the key carry one job. |
| `Idempotency.AKeyCanQueueTwoJobs` | langgraph-python/app/jobs/service.py:128-136 | Gives the schedule in which such a call gives its key back and the repeat queues a second job. |
| `Idempotency.DuplicatesNameTheOwner` | langgraph-python/app/platform/redis.py:71-79 | A caller that found its key taken is given the job of a call for that key if and only if the key is still taken when the owner is read. |
| `LostKeys.KeysDieExactlyWhenLost` | langgraph-python/app/platform/redis.py:71-79 | A key points to a call that has raised if and only if that call's claim took the key and raised, or its release was refused; it then does so forever. |
| `LostKeys.DuplicatesNameLiveJobs` | langgraph-python/app/jobs/service.py:118-124 | Otherwise a duplicate names a job that has been queued or whose publish is still on its way. |
| `LostKeys.ADuplicateCanNameALostJob` | langgraph-python/app/jobs/service.py:121-124 | Gives a schedule in which a repeat is told duplicate with a job that has no message and no status. |
| `Idempotency.ADuplicateCanNameNoJob` | langgraph-python/app/platform/redis.py:71-79 | Gives a schedule in which a caller is told duplicate without any job id. |
| `JobService.JobService.Consume` | langgraph-python/app/jobs/service.py:139-153 | For every sequence of call outcomes, every agent result and any steps of everybody else between the calls, store, locks, keys and queues end exactly as the protocol machine driven by the same environment leaves them, and nothing stays unacknowledged. |
| `JobService.JobService.Interrupt` | langgraph-python/app/jobs/service.py:139-153 | What the others do between two calls is carried out on the store and the broker alone, and agrees with the machine whatever the delivery has done so far. |
| `JobService.JobService.Process` | langgraph-python/app/jobs/service.py:155-178 | The delivery is over, or an exception leaves it at the retry handler with the lock given up and the attempt uncounted; each position is that of the machine. |
| `JobService.JobService.ProcessChat` | langgraph-python/app/jobs/service.py:171-206 | The lock, the locked region and its finally lead to an ended delivery or to the retry handler, as in the machine. |
| `JobService.JobService.Locked` | langgraph-python/app/jobs/service.py:179-201 | The locked region settles the message or raises while still holding the lock. |
| `JobService.JobService.Finish` | langgraph-python/app/jobs/service.py:208-233 | The delivery is settled after the final status, or an exception leaves the worker at the finally with the attempt uncounted. |
| `JobService.JobService.RecordEnd` | langgraph-python/app/jobs/service.py:231-233 | Finished time, final status and acknowledgement come in this order, each a step of the machine. |
| `JobService.JobService.Retry` | langgraph-python/app/jobs/service.py:235-247 | From the counted attempt the message is settled, after rescheduling or dead-lettering. |
| `JobService.JobService.Delay` | langgraph-python/app/jobs/service.py:249-256 | The retry message is published before the acknowledgement; a refused publish requeues instead. |
| `JobService.JobService.DeadLetter` | langgraph-python/app/jobs/service.py:258-272 | The failed status, the dead message and the settlement come in this order; failures of the first two do not stop it. |
| `JobService.JobService.TryLock` | langgraph-python/app/jobs/service.py:175-178 | The lock attempt leads to the locked region, the delay or the retry handler, as the store's answer says. |
| `JobService.JobService.ReleaseLock` | langgraph-python/app/jobs/service.py:202-206 | Freeing the lock ends a settled delivery and sends a raised one to the retry handler, whether or not the release fails. |
| `JobService.JobService.ReadJobStatus` | langgraph-python/app/jobs/service.py:158-162 | A final status is recognised exactly; a failed read makes the delivery blind. |
| `JobService.JobService.SetJobStatus` | langgraph-python/app/platform/redis.py:41-45 | The status of the job is replaced unless the call is refused; an ambiguous call replaces it and still raises. |
| `JobService.JobService.AcquireConversationLock` | langgraph-python/app/platform/redis.py:81-82 | The lock is taken if and only if it is free and the call takes effect. |
| `JobService.JobService.ReleaseConversationLock` | langgraph-python/app/platform/redis.py:84-85 | The lock is deleted only when it holds the caller's own token. |
| `Interference.DrivesAreSchedules` | langgraph-python/app/jobs/service.py:117-272 | From a reachable state a driven delivery or publish call among all others is a schedule, so the theorems about all schedules hold for the services. |
| `Interference.AlikeRun` | langgraph-python/app/jobs/service.py:100-110 | The steps of everybody else do not depend on how far a delivery or a publish call has come, and leave it alone. |
| `Interference.EveryInterleavingIsCovered` | langgraph-python/app/jobs/service.py:117-272 | Whatever steps the others make between two calls of a delivery or a publish call, and however its next call ends, some environment of the services has just that in store. |
| `PublishService.PublishService.Publish` | langgraph-python/app/jobs/service.py:117-137 | For every sequence of call outcomes and any steps of everybody else between the calls, store, keys, queues and calls end exactly as the driven machine leaves them, and the answer is the point at which this call comes to rest. |
| `PublishService.PublishService.Enqueue` | langgraph-python/app/jobs/service.py:125-132 | Status, timing and message come in this order; a refused message also records the failure; any exception leads to the outer handler. |
| `PublishService.PublishService.ClaimIdempotencyKey` | langgraph-python/app/platform/redis.py:71-76 | The key is claimed, or its owner is read in a second call, or the call raises. |
| `PublishService.PublishService.ReleaseIdempotencyKey` | langgraph-python/app/jobs/service.py:133-136 | The outer handler gives the key back, if there is one, and raises. |
| `Backoff.WaitDoubles` | langgraph-python/app/config.py:29-34 | The n-th retry of a job waits base * 2^(n-1). |
| `Backoff.TotalWaitIsGeometric` | langgraph-python/app/config.py:29-34 | The first n retries wait base * (2^n - 1) in total, for every base and max_attempts. |
| `Backoff.DelaysPerRetry` | langgraph-python/app/config.py:29-34 | There is one delay for each attempt after the first, and one at least, the i-th being base * 2^i. |
| `Backoff.Clamp` | langgraph-python/app/platform/rabbitmq.py:65-71 | The level is a declared one: the given one when it already was, the first when it is too low, the last when it is too high. |
| `Backoff.ShiftIsPower` | langgraph-python/app/config.py:33-34 | The shift of the delay table is a multiplication by a power of two. |
| `Rebooking.ValidateIsExact` | langgraph-python/app/airline/service.py:157-230 | The guard chain accepts exactly the declaratively acceptable selections, with the amounts that the transaction books, for either way of reading the credit. |
| `Rebooking.ValidatorsAgree` | adk-go/internal/airline/service.go:93-140 | Go accepts a request if and only if its segment is not nil and Python accepts it without a nil credit, then with the same amounts; a request that names the nil credit is never accepted by both. |
| `Rebooking.RejectionsAreTruthful` | langgraph-python/app/airline/service.py:157-230 | Either validator rejects only with an error whose reason holds of the request, and accepts only the exact amount with a usable credit. |
| `Columns.AcceptanceIsLegality` | langgraph-python/app/airline/service.py:157-230 | In the columns' own terms: a request is accepted if and only if its rows exist, every rule is met, the amount is the positive part of difference plus fee, and a credit is named if and only if something is due. |
| `Rebooking.Database.ExecuteOrm` | langgraph-python/app/airline/repository/rebooking.py:50-122 | The object updates give exactly the declared new tables if the selection is acceptable and the segment's fare row exists, and otherwise leave everything as it was. |
| `Rebooking.Database.ExecuteSql` | langgraph-python/app/airline/repository/sql/rebooking.py:46-106 | The SQL transaction gives exactly the declared new tables if and only if the selection is acceptable; a rejection changes nothing. |
| `Rebooking.Database.ExecuteGo` | adk-go/internal/airline/repository/rebooking.go:70-110 | The same for the Go transaction behind its own validator. |
| `Rebooking.Database.BookObjects` | langgraph-python/app/airline/repository/rebooking.py:60-117 | After validation the in-place updates make up the declared change, and a missing original fare undoes the first seat update. |
| `Rebooking.Database.Book` | langgraph-python/app/airline/repository/sql/rebooking.py:50-91 | After validation no guarded UPDATE silently does nothing: together the statements make up the declared change. |
| `Rebooking.Database.MoveFareSeats` | langgraph-python/app/airline/repository/sql/queries.py:150-161 | The guarded decrement matches its row whenever the seats suffice, and the two statements move the seats also when both fares are one row. |
| `Rebooking.Database.ConsumeTravelCredit` | langgraph-python/app/airline/repository/sql/queries.py:176-181 | The credit is reduced and its status follows if and only if it holds the amount. |
| `Rebooking.SeatsMove` | langgraph-python/app/airline/repository/rebooking.py:65-76 | Taking and returning seats one row after the other is the change declared at once, also for one row. |
| `Columns.RequestsWriteTheirRows` | langgraph-python/app/airline/repository/rebooking.py:50-122 | In every history and column by column: a rejected request leaves the tables alone; an accepted one met every rule, moves its segment, its seats and the money, logs exactly that, and writes no other row. |
| `Columns.ConstantsStay` | langgraph-python/app/airline/repository/rebooking.py:60-117 | No history changes the currency or reservation of a segment, the customer, status or passengers of a reservation, the price of a fare, or whose a credit is and until when. |
| `Columns.SegmentsFollowTheirLatest` | langgraph-python/app/airline/repository/rebooking.py:82-87 | After any history a segment is as it was if no accepted request named it, and otherwise changed to the target of the latest one, at its price, on its old route and in its old currency and reservation. |
| `Columns.CreditsAreTouchedByName` | langgraph-python/app/airline/repository/rebooking.py:91-101 | After any history a credit is as it was if no accepted request named it, and otherwise holds less and is used or partially used as what remains says. |
| `Columns.OtherReservationsAreKept` | langgraph-python/app/airline/repository/rebooking.py:88-89 | A reservation keeps its whole row unless an accepted request names one of its segments. |
| `Columns.ChangesCarryTheCurrency` | langgraph-python/app/airline/repository/rebooking.py:103-117 | Every change a history records is in the currency its segment always had. |
| `Rebooking.CompareRuntimes` | langgraph-python/app/airline/repository/sql/rebooking.py:46-106 | For one request on the same tables: ORM and SQL differ if and only if an acceptable selection's own fare has no row; SQL and Go differ if and only if it is acceptable with a nil segment or a nil credit, or names the nil credit and would be acceptable without it. |
| `Rebooking.TheRuntimesCanDiffer` | langgraph-python/app/airline/repository/rebooking.py:66-75 | Gives tables that keep every foreign key with an acceptable selection whose own fare has no row, for any segment id, the nil one included. |
| `Rebooking.ANilCreditSetsGoApart` | adk-go/internal/airline/service.go:124-130 | Gives ordinary tables and a request with the nil credit that Go books and Python refuses. |
| `History.VerificationReadsTheLog` | langgraph-python/app/airline/repository/rebooking.py:124-141 | After any history verification succeeds if and only if the latest change recorded for the segment is to the selected fare, or, when none was recorded, if the segment already was marked changed and on that fare. |
| `Rebooking.ValidateExecuteVerify` | langgraph-python/app/airline/repository/rebooking.py:50-141 | Acceptance is exact, an accepted execution verifies, and verification holds only after acceptance or when the segment already was there. |
| `Conservation.SeatsAreConserved` | langgraph-python/app/airline/repository/sql/rebooking.py:46-61 | Over any history, for every fare, free seats plus passengers booked on it are constant and free seats never become negative. |
| `Conservation.LedgerIsConserved` | langgraph-python/app/airline/repository/rebooking.py:82-101 | Over any history, a reservation's total minus its segments' prices minus its changes' fees plus its changes' credits is constant. |
| `Conservation.CreditsAreConserved` | langgraph-python/app/airline/repository/rebooking.py:91-101 | Over any history, what all credits hold plus what the log says was used is constant, and no credit is overdrawn. |
| `Airline.ExecuteKeepsSchema` | langgraph-python/app/airline/repository/rebooking.py:50-122 | Foreign keys, the set of fare rows and the existence of every booked fare row survive every transaction. |
| `History.HistoryExplainsTheBooking` | langgraph-python/app/airline/repository/rebooking.py:103-117 | The changes recorded for a segment link old to new from its first to its current fare, add up to the change of its price, and never name a target twice in a row. |
| `History.ReplaysAreAppliedOnce` | langgraph-python/app/airline/service.py:168-173 | A selection replayed any number of times among any traffic on other segments changes its segment at most once. |
| `History.RecordedTargets` | langgraph-python/app/airline/repository/rebooking.py:103-117 | The log only grows, and what it records for a segment are targets that were asked for. |
| `SqlSerial.InterleavingsAreSerial` | langgraph-python/app/airline/repository/sql/rebooking.py:46-106 | However the statements of any number of transactions interleave, wait, fail and commit under row locks, the committed tables are those of the serial history in commit order, all of whose transactions are accepted. |
| `SqlSerial.InterleavingsConserve` | langgraph-python/app/airline/repository/sql/queries.py:113-193 | Seats, ledgers and credits are therefore conserved by every interleaving too. |
| `SqlSerial.CommitIsSerial` | langgraph-python/app/airline/repository/sql/rebooking.py:48-91 | A transaction commits exactly what it would do alone on the committed tables, its earlier validation still standing. |
| `SqlProgress.UnhinderedTransactionsDecide` | langgraph-python/app/airline/repository/sql/rebooking.py:46-106 | From every reachable world: a new transaction none of whose rows is locked, run in one go, commits exactly its rebooking if the selection is acceptable on the committed tables and otherwise changes nothing; either way it is over and all locks are as before. |
| `SqlProgress.ALoneTransactionDecides` | langgraph-python/app/airline/repository/sql/rebooking.py:46-106 | On its own, a transaction books if and only if its selection is acceptable. |
| `SqlProgress.RowsAreExclusive` | langgraph-python/app/airline/repository/sql/queries.py:113-148 | Two transactions under way never share a segment, reservation, target flight or credit that both have read. |
| `LockOrder.NewLocksAscend` | langgraph-python/app/airline/repository/rebooking.py:56-93 | Every lock a transaction does not hold yet lies above all it holds, in the order segment, credit, fares by key, reservation. |
| `LockOrder.SortedFares` | langgraph-python/app/airline/repository/rebooking.py:159-172 | Both fares, without repetition, in ascending order. |
| `LockOrder.NoDeadlock` | langgraph-python/app/airline/repository/rebooking.py:159-172 | In every reachable state with an unfinished transaction, one of them does not wait. |
| `LockOrder.EveryoneCanFinish` | langgraph-python/app/airline/repository/rebooking.py:56-117 | From every reachable state all transactions can run to their commit without a rollback. |
| `LockOrder.CommitsHoldTheirRows` | langgraph-python/app/airline/repository/rebooking.py:56-93 | A transaction about to commit holds exactly the rows it uses, and the fare it gives back is the one its segment is still booked on. |
| `LockOrder.CommitsAreDisjoint` | langgraph-python/app/airline/repository/rebooking.py:56-93 | No two transactions about to commit use the same row. |
| `Search.GroupWithDictionary` | langgraph-python/app/airline/repository/flight.py:47-56 | The dictionary loop yields the specified grouping. |
| `Search.GroupWithIndexes` | adk-go/internal/airline/repository/flight.go:41-66 | The index-map loop yields the same grouping. |
| `Search.FlightsKeepFirstOccurrenceOrder` | langgraph-python/app/airline/repository/flight.py:47-56 | Each flight appears once, and flights appear in the order of their first rows. |
| `Search.FirstRowIsFirst` | langgraph-python/app/airline/repository/flight.py:47-56 | The position used for that order is the first row of the flight. |
| `Search.FlightIdsAreTheFlights` | langgraph-python/app/airline/repository/flight.py:47-56 | A flight is in the result if and only if some row belongs to it, and its group then has rows. |
| `Search.RowsKeepTheirOrder` | langgraph-python/app/airline/repository/flight.py:47-56 | The rows of a flight are exactly its rows, each once, in their order. |
| `Search.GroupsAreTheirRows` | langgraph-python/app/airline/repository/flight.py:47-56 | Each group is a flight with the data of its first row and with exactly its rows in their order. |
| `Search.SearchOptions` | langgraph-python/app/airline/service.py:68-118 | The window's error if and only if it is not ordered, else the passenger count's if and only if it is not positive, and otherwise the specified offers, none when the own class forbids changes. |
| `Search.FilterCandidates` | langgraph-python/app/airline/service.py:93-118 | The nested loops yield the specified offers in order. |
| `Search.BuildOptions` | adk-go/internal/airline/service.go:217-260 | Go's list is Python's, or empty, and empty whenever no candidate carries the segment's own class. |
| `Search.OffersAreTheFittingRows` | langgraph-python/app/airline/service.py:93-118 | An offer is made if and only if it comes from a fitting row of a fitting flight. |
| `Search.OffersKeepTheOrder` | langgraph-python/app/airline/service.py:93-118 | The offers are those of the candidates and fares that meet the window, route and seat conditions, each exactly once, candidate by candidate and fare by fare in the given order. |
| `Search.OfferedOptionsValidate` | langgraph-python/app/airline/service.py:157-230 | On unchanged tables an offered option validates if and only if the booking is eligible and the quoted difference plus fee is paid. |
| `PendingInput.PendingInterrupt` | adk-go/internal/runtime/runner.go:85-109 | The id of the latest request answered neither in its own nor in a later event, empty when every request is answered, for repeated ids and several responses per event too. |
| `PendingInput.LatestExists` | adk-go/internal/runtime/runner.go:85-109 | Whenever a request is open there is a latest one, so the previous contract fixes the answer in every case. |
| `Workflow.ExecutionsAreConfirmed` | langgraph-python/app/agent/nodes/confirmation.py:72-145 | In every history of a thread each execution closes a block: the search for its segment, the options shown, the user's confirmation of exactly this selection among them, the validator's acceptance, the execution. |
| `Workflow.ExpectedIsSelected` | langgraph-python/app/agent/nodes/airline.py:53-62 | The segment that the validation expects is the one the search used. |
| `Routing.SearchGoesOn` | langgraph-python/app/agent/nodes/airline.py:53-77 | The search goes on if and only if the airline answers, the window is given and ordered, and the requested segment is one of the reservation or none is requested and it has exactly one; otherwise the run stops. |
| `Routing.SearchesAreForTheReservation` | langgraph-python/app/agent/nodes/airline.py:53-77 | In every history each search is for a segment of the reservation that was loaded last: the requested one, or its only one. |
| `Routing.ExecutionsAreForTheReservation` | langgraph-python/app/agent/nodes/execution.py:7-29 | In every history nothing is booked but a segment of the reservation that was loaded last, the requested or only one. |
| `Routing.NodesRaiseForTheirCalls` | langgraph-python/app/agent/nodes/airline.py:40-79 | In every reachable thread the next node raises if and only if its call fails, a segment or window does not fit, or a confirmation has no selection; never for want of an earlier node's result. |
| `Routing.NodesTakeEdges` | langgraph-python/app/agent/graph.py:47-75 | In every reachable thread a node that does not raise takes an edge of the graph. |
| `Routing.AnswersAreRouted` | langgraph-python/app/agent/nodes/confirmation.py:72-145 | In every thread just answered: a refusal is declined, a shown option of the searched segment that the validator accepts is executed, any other selection or a rejected one is explained as invalid, and the run stops if and only if a confirmation has no selection or the validator raises. |
| `Routing.InvalidSelectionsAreCounted` | langgraph-python/app/agent/nodes/explanation.py:20-36 | Every invalid selection raises the retry counter by one, and leads back to the search or, with no retry left, to a failed end. |
| `Routing.RetriesSearchAgain` | langgraph-python/app/agent/graph.py:51-52 | A retry opens the fan-out again, with neither branch done and the reservation still at hand. |
| `Invocations.InvocationsStop` | langgraph-python/app/agent/runner.py:22-35 | Whatever model, airline and user answer, six nodes bring a message to its rest and eight a resumption. |
| `AgentRuns.RetriesAreBounded` | langgraph-python/app/agent/nodes/explanation.py:20-36 | Over a thread's whole life the search is repeated at most max_retries times, exactly once per invalid selection until then. |
| `AgentRuns.EndsAreExplained` | langgraph-python/app/agent/graph.py:56-108 | A run that ends has written its result itself: completed if and only if a booking was just verified, declined if and only if the user just declined, failed if and only if a call was just refused or no retry was left. |
| `Invocations.ResultsAreExplained` | langgraph-python/app/agent/runner.py:22-35 | What the caller is told: paused, finished, failed, no pending input and an exception, each if and only if its cause. |
| `JobOutcome.AResumptionCanRaise` | langgraph-python/app/agent/nodes/confirmation.py:119-121 | From every pause with an offered option: a validator that raises leaves the thread stopped, its pause used up. |
| `JobOutcome.ALostResumptionFails` | langgraph-python/app/jobs/service.py:195-197 | Any further attempt at such a resumption finds no pending input, leaves the thread as it is, and the job is failed and dead-lettered on that attempt. |
| `JobOutcome.ABookedJobCanFail` | langgraph-python/app/jobs/service.py:195-197 | So a job can be reported failed although the call of its confirmed booking was made, when the worker dies inside the booking node or after it. |
| `JobOutcome.APauseExists` | langgraph-python/app/agent/graph.py:47-55 | A run that finds one option for one segment comes to such a pause. |
| `JobOutcome.ResultDecidesStatus` | langgraph-python/app/jobs/service.py:190-233 | From any protocol state, a worker whose calls succeed comes to its acknowledgement with the status its agent result calls for, the job in the dead queue or in the retry queue of its next attempt when failed or retried. |
| `JobOutcome.JobReportsTheRun` | langgraph-python/app/jobs/service.py:208-233 | For the result the runner gives: waiting if and only if the run came to show its options, completed if and only if it just verified a booking or the user just declined, retrying if and only if it raised with an attempt left, failed if and only if it ended failed, found no pending input or raised on the last attempt. |
| `BookedRuns.BookingsAreExecutions` | langgraph-python/app/agent/nodes/execution.py:7-29 | Among any traffic, lost answers and workers dying inside the booking node, the tables are those of the transactions carried out; each one of the thread has its own call in the history, shown as done if and only if the thread learned of the commit, and every call shown as done has its transaction. |
| `BookedRuns.OwnBookingsAreConfirmed` | langgraph-python/app/agent/nodes/execution.py:7-29 | Every transaction of the thread, also one whose commit it did not learn of or inside of which its worker died, was confirmed by the user and accepted by the validator in that round. |
| `BookedRuns.CompletedMeansBooked` | langgraph-python/app/agent/nodes/execution.py:32-64 | When a run ends completed, the segment carries the confirmed selection at that very moment. |
| `BookedRuns.UndisturbedBookingsComplete` | langgraph-python/app/agent/nodes/execution.py:7-64 | From every booking call, when nothing goes wrong: the run completes with the tables rebooked if the selection is acceptable, and otherwise ends failed with the tables as they were. |
| `BookedRuns.FailedRunsCanHaveBooked` | langgraph-python/app/agent/nodes/execution.py:12-52 | A run that ends failed has booked since its last search if and only if what failed was the verification, or the answer of a commit that took place. |
| `BookedRuns.ALostCommitFailsTheRun` | langgraph-python/app/agent/nodes/execution.py:12-26 | From every acceptable booking call: the commit takes place, its answer is lost, and the run ends failed with the tables rebooked. |
| `BookedRuns.AWorkerCanDieInsideTheBooking` | langgraph-python/app/airline/repository/rebooking.py:56-122 | From every acceptable booking call: the worker dies inside the node after the commit, and the thread stops with the tables rebooked. |
| `BookedRuns.ABookingCanBeReportedFailed` | langgraph-python/app/jobs/service.py:195-197 | The job of such a thread, resumed with any answer, is told that there is no pending input, failed and dead-lettered. |
| `AgentRunner.AgentRunner.Invoke` | langgraph-python/app/agent/runner.py:22-35 | The loop over the nodes ends within the rank of its start and leaves exactly the history of the nodes it ran. |
| `AgentRunner.AgentRunner.RunMessage` | langgraph-python/app/agent/runner.py:22-28 | A blank message raises and changes nothing; any other one starts again on the persisted state, takes at most six nodes and returns what the invocation is told. |
| `AgentRunner.AgentRunner.ResumeWith` | langgraph-python/app/agent/runner.py:30-35 | Only a paused thread takes the answer, in at most eight nodes; any other one reports no pending input and stays as it is; a node that raises is reported as raised even when its pause survives. |

## Left out

- FIFO order of the queues, prefetch limits and the wall-clock time of delays: any message may be delivered next.
- The parsing of envelopes and payloads and the JSON validators of both runtimes: a payload is well-formed or malformed.
- Expiry of status, metadata, timing and idempotency keys after 24 hours; only lock expiry is modelled.
- The contents of the timing and metadata records; only that their writes can fail.
- Acknowledgements and rejections that raise: they are taken to succeed or, with a crash, not to happen.
- The Go job service as code of its own: it follows the same protocol and would repeat the Python model.
- HTTP routes, language-model prompts and ranking texts, logging and startup: single-branch plumbing.
- LangGraph's checkpoint format: a node's writes are kept when it returns, and after a failed `ask_confirmation` both a kept and a lost pause are possible.
- JobOutcome.ResultDecidesStatus: follows a worker that is not interrupted and whose calls succeed; what failing calls do is in the theorems about all schedules.
- BookedRuns.CompletedMeansBooked: one thread against the tables; other threads appear as traffic.
- Blank idempotency keys other than the empty one are ordinary keys, as in the source.
- LockOrder.NoDeadlock: models row locks taken by the ORM statements and its flush, not key-share locks on referenced rows or index locks.
- LockOrder.EveryoneCanFinish: shows that some schedule finishes everyone, not that every fair one does.
- SqlSerial.InterleavingsAreSerial: the statements after the seat updates, which touch only rows already locked or insert the log row, are one step with the commit, and deadlocks that the database breaks by aborting a transaction appear as failures.
- Rebooking.Database.ExecuteOrm: is one serial transaction; the freshness of the ORM session's identity map under concurrent transactions is a matter of the library.
- MutualExclusion.OneJobPerConversation: assumes that a lock does not expire under a live holder, because the code does not renew it.
- StatusContract.StatusFollowsTheAutomaton: is about deliveries of a job that do not overlap with each other, because the status is read before the lock is taken; they may overlap with the publish call.
- Attempts.AttemptsAreBounded: a redelivery grants the whole limit again, because the count travels with the message.
- AgentRuns.RetriesAreBounded: is a property of the Python workflow; the Go workflow has no retry counter.
- Numeric overflow of the NUMERIC(12,2) columns.
- Customer, reservation, credit and history lookups and row mappers: straight copies of fields.
