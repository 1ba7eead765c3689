# Clawflux reliability core, in Dafny

Clawflux deploys apps to Kubernetes through a leased job queue: services write a deployment and
its events and enqueue a job; workers lease jobs, run handlers against the backend and retry,
dead-letter or acknowledge them; a reconciler re-schedules what got stuck. This project models that
core and proves what it keeps, over every input and every run.

`dafny verify dfyconfig.toml` checks everything.

## How it is laid out

The queue
- `QueueSpec` is the in-memory queue as a value (ready, processing, delayed, dead) with its
  operations; `MemoryQueue` is the client that runs them in place, over slices with shared backing
  arrays; `Backoff` is the retry delay in 64-bit nanoseconds; `Consumer` is one worker's loop.
- `WorkerProtocol` is a machine of any number of workers, interleaved with promotion, reclaim,
  replay and crashes. `QueueLaws` says in which order it hands jobs out and what each move leaves in the queue,
  `Delivery`, `Leases` and `RetryBudget` when and how often a job is handed out, `Acknowledgement` what an ack
  takes and leaves.
- `RedisProtocol` is the Redis queue with one step per server command; `RedisLaws` says what each command
  leaves, `RedisMovers` what its movers take and lose, `RedisOrder` in which order it hands jobs out,
  `RedisDelivery` how early it may deliver. `Resp` and `RespReader` are its wire format, `RespLaws` says what
  the readers make of any input.

The deployments
- `Deployments` gives the service calls and job handlers as functions from a store and a backend
  reply to a new store, the jobs ordered and the backend calls made. `MemoryStore`, `Services` and
  `Handlers` are the objects that run them, `KubernetesBackend` is where the replies come from.
  `DeploymentLaws` says what each call leaves, path by path and field by field.
- `Lifecycle` is the whole system as one machine: users, reconciler and workers over one store and
  one queue. `QueueProjection` projects each of its runs to one run of the worker protocol, and
  `SystemQueue` states what that gives about leases, delays and hand-outs.
- `StoreInvariants`, `CurrentDeployment`, `Footprint`, `JobNames` and `WorldInvariants` carry the
  inductive invariant; `Interleaving` leaves the atomicity of calls out; `EventLog`, `LifecycleTheorems`,
  `Exits`, `Versions`, `Pointers` (which deployment an app points at), `DeleteJobs` (nothing is deleted unasked)
  and `Reconciliation` state what follows from it.

Backend objects
- `Naming` is about names, `EnvAssembly` and `Container` about the environment and the Secret,
  `Text` about strings and sorted keys, `Insertion` about ordered lists, `Policy` about the
  reliability defaults.

## Conventions

- Time is an integer number of nanoseconds, never decreasing; 0 is the zero time. One atomic step
  reads the clock once. Ids are fresh names handed in by the caller.
- Every queue operation is atomic in memory (it holds a lock); on Redis every command is.
- A service call and a handler run are one step each. The store has no version check
  (`internal/repositories/memory/store.go:358-367`), so read-modify-write cycles that interleave do
  lose updates; `Interleaving` shows how, says exactly when, and what survives. In `Lifecycle` only the
  creation of a deployment is split, between its version number and its record.
- The backend answers as `KubernetesBackend` proves it does: a submission gives a provisioning or
  running status and a named reference, a status query echoes the reference and reports
  provisioning, running, degraded or failed, a deletion without a reference succeeds.

## What the code does not give

- The repository's overview (its `README.md`, line 43) says that jobs are acknowledged only after
  successful handling. The worker also acknowledges a job it has put back or dead-lettered
  (`internal/worker/consumer.go:92-107`, `Acknowledgement.UnfinishedJobsAreAcked`). What holds instead is
  `Acknowledgement.AckIsPaidFor`.
- An ack can take another worker's lease of the same job, where its own has gone stale
  (`Acknowledgement.AckCanTakeAnotherLease`) or where two leases of the job have one instant
  (`TwinLeasesAreConfused`). `AckTakesAnotherLease` says exactly when; `AckTakesItsOwnLease` says what
  rules it out. No job is lost by it.
- On Redis a mover that dies between its removal and its push can lose a job
  (`RedisProtocol.MoverDeathCanLoseAJob`; `RedisMovers.MoverLosesExactlyByDying`).
- On Redis the ready list is pushed and popped at the same end (`internal/queue/redis/client.go:165`, 191), so
  the last job in is the first out (`RedisOrder.LastInFirstOut`) and a job can wait for as long as others
  keep coming (`RedisOrder.OlderJobsStarve`). In memory it is first in, first out (`QueueLaws.FirstInFirstOut`).
- On Redis a delayed job can be handed out ahead of its time, by less than a millisecond
  (`RedisDelivery.DeliveryCanBeEarly`).
- Distinct slugs need not give distinct backend names (`Naming.SlugsCanCollide`), and two versions of
  an app whose name is long share one managed Secret (`Naming.LongNameSharesItsSecret`), which deleting
  either of them removes. `Naming.SecretNamesAgree` and `KubernetesBackend.DeletingRemovesSecretOf` say
  exactly when.
- Calls that overlap on a deployment can leave a record its log does not explain
  (`Interleaving.RepairRoundsAreMiscounted`) or take its start and its backend object away
  (`Interleaving.StartIsForgotten`). `Interleaving.WriteIsExplainedExactly` and `WriteGrowsExactly` say
  exactly when; calls that do not overlap are safe (`UndisturbedCallsAreFresh`).
- A provider key with surrounding white space, or a Secret name that is only white space, leaves
  environment variables that refer to a Secret key nobody writes (`EnvAssembly.EnvAgreesWithSecret`
  says exactly when).

## Model

| member | source | states |
|---|---|---|
| `QueueSpec.BoundedPassIsStablePartition` | internal/queue/memory/client.go:168-185 | a bounded pass takes the first `limit` matching jobs in order and keeps all others in order: it is the filter of the list cut at the limit-th match, plus what follows |
| `QueueSpec.FilterSplitsIntoTakenAndKept` | internal/queue/memory/client.go:168-185 | the matching jobs are those taken followed by the matching ones kept: none is skipped, duplicated or overtaken |
| `QueueSpec.PassByIndex` | internal/queue/memory/client.go:168-185 | the pass by read index, as the loop makes it, equals the recursive definition |
| `QueueSpec.PromoteConserves` | internal/queue/memory/client.go:168-185 | promotion changes no job's number of entries |
| `QueueSpec.ReclaimConserves` | internal/queue/memory/client.go:87-111 | reclaiming stale leases changes no job's number of entries |
| `QueueSpec.LeaseConserves` | internal/queue/memory/client.go:37-60 | leasing the head changes no job's number of entries |
| `QueueSpec.ReplayConserves` | internal/queue/memory/client.go:134-151 | replaying a dead letter changes no job's number of entries |
| `QueueSpec.AckRemovesAtMostOne` | internal/queue/memory/client.go:187-199 | an ack removes exactly one entry of its job if the processing list has one, and nothing else |
| `QueueSpec.PromotionDrains` | internal/queue/memory/client.go:81-85 | at a fixed time, ceil(n / limit) promotions move all n due jobs to the ready list, in order |
| `QueueSpec.PromotionNeedsThatManyCalls` | internal/queue/memory/client.go:81-85 | and fewer do not |
| `MemoryQueue.Client.Enqueue` | internal/queue/memory/client.go:23-35 | appends the job at the end of ready, behind all others, without a lease, with its creation and availability times filled in; that it is handed out after them is `QueueLaws.FirstInFirstOut` |
| `MemoryQueue.Client.EnqueueAfter` | internal/queue/memory/client.go:69-79 | appends the job to the delayed slice, available after the delay |
| `MemoryQueue.Client.PromoteDue` | internal/queue/memory/client.go:81-85 | promotes due jobs up to the limit (100 by default) and counts them |
| `MemoryQueue.CompactDue` | internal/queue/memory/client.go:168-185 | the compaction over the slice's own array yields the stable partition: what is kept in place, what is taken appended to ready |
| `MemoryQueue.Client.ReclaimStale` | internal/queue/memory/client.go:87-111 | returns stale leases to ready up to the limit and counts them |
| `MemoryQueue.CompactStale` | internal/queue/memory/client.go:94-110 | the same compaction over leases, each taken job losing its lease on the way |
| `MemoryQueue.Client.Dequeue` | internal/queue/memory/client.go:37-60 | one poll: promotes up to 100 due jobs, then leases the head of ready, if any, at the present instant |
| `MemoryQueue.Client.Ack` | internal/queue/memory/client.go:62-67 | removes the exact lease if it is there, else the first entry of the job, else nothing |
| `MemoryQueue.Client.DeadLetter` | internal/queue/memory/client.go:113-121 | prepends the dead letter, its failure time filled in |
| `MemoryQueue.Client.ReplayDeadLetter` | internal/queue/memory/client.go:134-151 | moves the dead letter's job back to ready with no attempts and no lease; fails exactly if there is none with that id |
| `Backoff.ComputeRetryDelay` | internal/worker/consumer.go:131-143 | the doubling loop computes min(base * 2^(attempt-1), 30 s) and never leaves 64 bits |
| `Backoff.RetryDelayIsMonotoneAndBounded` | internal/worker/consumer.go:131-143 | the delay grows with the attempt and lies in (0, 30 s] |
| `Backoff.RetryDelayDoubles` | internal/worker/consumer.go:131-143 | the first wait is the base, each further one twice the one before, cut at 30 s |
| `Consumer.Consumer.constructor` | internal/worker/consumer.go:23-38 | at least one attempt, a positive backoff (2 s by default) |
| `Consumer.Consumer.RunMaintenance` | internal/worker/consumer.go:167-190 | at most once a second: promote up to 100, then reclaim up to 100 leases of ten minutes |
| `Consumer.Consumer.RetryJob` | internal/worker/consumer.go:87-110 | re-enqueues with backoff or, with attempts used up, dead-letters; then acks the lease it was run under |
| `Consumer.Consumer.RunOnce` | internal/worker/consumer.go:54-84 | one iteration, whose handler may schedule jobs, leaves the queue as the protocol's moves for it do |
| `Consumer.IterationIsProtocolMoves` | internal/worker/consumer.go:54-84 | one iteration of the loop, with the jobs its handler schedules, is a path of enabled protocol moves that leaves the worker idle and the queue as the code does |
| `WorkerProtocol.TotalAfter` | internal/worker/consumer.go:64-110 | how each move changes a job's number of entries |
| `WorkerProtocol.StepKeepsAccounted` | internal/worker/consumer.go:64-110 | every move keeps a job that is not done at one entry more than the acks owed for it |
| `WorkerProtocol.NoJobIsLost` | internal/worker/consumer.go:74-110 | in every state of every run each submitted job is done or has entries >= 1 + acks owed |
| `Delivery.EntriesAreWellFormed` | internal/queue/memory/client.go:23-111 | in every state: leased entries carry a lease, waiting ones none; nothing is ready or leased before it is available; live jobs have 0 <= attempts < maximum, dead letters the maximum unless unhandled |
| `Delivery.NoDeliveryBeforeBound` | internal/queue/memory/client.go:37-60 | a job whose entries are all leased or delayed up to a bound is not handed out before it |
| `Delivery.LeaseIsExclusive` | internal/queue/memory/client.go:87-111 | once its only entry is leased, a job is not handed out again for staleAfter |
| `Delivery.RetryWaitsForBackoff` | internal/worker/consumer.go:100-110 | a failed job put back is not handed out before its backoff is over |
| `QueueLaws.FirstInFirstOut` | internal/queue/memory/client.go:23-60 | from any state of any run on, the ready jobs are handed out in their order, and nothing that comes later is handed out before them |
| `QueueLaws.NoMoveOvertakes` | internal/queue/memory/client.go:23-185 | whatever the move, the ready list without the entry handed out is a prefix of the new ready list |
| `QueueLaws.LeaseOutcome` | internal/queue/memory/client.go:37-60 | a lease hands out the first ready job, with none ready the first delayed one that is due, with none due nothing |
| `QueueLaws.CallOutcomes` | internal/queue/memory/client.go:23-121 | for any job and dead letter: where enqueueing, delaying and dead-lettering put it, what they fill in and what they leave |
| `QueueLaws.SubmitOutcome` | internal/queue/memory/client.go:23-35 | a submitted job is the last ready or the last delayed, every field given |
| `QueueLaws.FailureOutcome` | internal/worker/consumer.go:87-110 | a failed job has one attempt more and its error, and is the last delayed, by the backoff of that attempt, or a dead letter exactly at the limit |
| `QueueLaws.UnhandledOutcome` | internal/worker/consumer.go:63-73 | a job nobody handles becomes a dead letter as it is |
| `QueueLaws.PromoteOutcome` | internal/queue/memory/client.go:168-185 | promotion takes due jobs only, unchanged, behind those that are ready, and leaves a due one only at its limit |
| `QueueLaws.ReclaimOutcome` | internal/queue/memory/client.go:87-111 | reclaim takes stale leases only, up to its limit; each comes back ready, without its lease, available now and otherwise as it was |
| `QueueLaws.ReclaimLeaves` | internal/queue/memory/client.go:87-111 | it leaves the leases that are not stale, and a stale one only at its limit |
| `QueueLaws.ReplayOutcome` | internal/queue/memory/client.go:134-151 | a replay revives the first dead letter of that id at the end of ready, with no attempts, error or lease; without one nothing changes |
| `Leases.LeaseStands` | internal/queue/memory/client.go:87-111 | entry by entry, whatever others its job has: a lease leaves the processing list only by an ack that takes it or by a reclaim staleAfter or more after it was taken |
| `Leases.DelayStands` | internal/queue/memory/client.go:168-185 | no delayed entry leaves the delayed list before the clock reaches its availability |
| `Leases.RetryIsDelayed` | internal/worker/consumer.go:100-110 | a failed job with attempts left is put back as an entry that then waits out the backoff of its new attempt count |
| `RetryBudget.StepBudget` | internal/worker/consumer.go:87-110 | the attempts left, counted over all entries and holders, pay for every hand-out |
| `RetryBudget.BudgetHolds` | internal/worker/consumer.go:87-110 | over any stretch of any run: hand-outs + attempts left at its end <= attempts left at its start + maxAttempts per submission, replay or expired lease within |
| `RetryBudget.AttemptsAreBounded` | internal/worker/consumer.go:87-98 | from a submission, or a replay of the only entry, until the next submission, replay or expired lease, a job is handed out at most maxAttempts times |
| `RetryBudget.DeliveriesAreBounded` | internal/worker/consumer.go:87-98 | from the start of a run, at most maxAttempts times per submission, replay or expired lease |
| `Acknowledgement.AckTakesAnotherLease` | internal/queue/memory/client.go:187-199 | an ack takes an entry of its job other than the worker's lease if and only if the first entry with the lease's instant, or failing that the first of the job, is another; it takes its own if and only if that is its own |
| `Acknowledgement.AckTakesItsOwnLease` | internal/queue/memory/client.go:187-199 | over every run whose leases are taken at different instants an ack takes exactly the worker's own lease, unless since it was written another ack took it or a reclaim found it stale |
| `Acknowledgement.InstantsDiffer` | internal/queue/memory/client.go:37-60 | if every lease reads a later clock, no two leases in the processing list have one instant |
| `Acknowledgement.AckCanTakeAnotherLease` | internal/queue/memory/client.go:187-199 | a run, with the lease timeout and limit the program uses, that ends with worker 0 acking away the lease worker 1 holds |
| `Acknowledgement.TwinLeasesAreConfused` | internal/queue/memory/client.go:187-199 | a run in which two leases of a job have one instant and worker 1's ack takes worker 0's, though none was stale or taken |
| `Acknowledgement.AckIsPaidFor` | internal/worker/consumer.go:87-110 | at every ack of every run the job is done, or the worker has put it back and an entry of it remains after the ack |
| `Acknowledgement.UnfinishedJobsAreAcked` | internal/worker/consumer.go:87-110 | a run in which the lease of a job that has not succeeded is acknowledged |
| `RedisProtocol.NoJobIsLost` | internal/queue/redis/client.go:183-261 | any interleaving, workers crashing anywhere: a job that is not done has copies (stored, carried or dropped) >= 1 + removals owed, if retries add new members |
| `RedisProtocol.RetriesAddMembers` | internal/queue/redis/client.go:249-261 | with distinct clock readings every retry's ZADD does add a member |
| `RedisProtocol.AttemptsStayBelowTheLimit` | internal/worker/consumer.go:87-110 | in every state of every run on Redis, on the server and in everybody's hands, a job has fewer attempts than allowed, and a dead letter used them up or is of a kind nobody handles |
| `RedisProtocol.OnlyDroppedJobsAreLost` | internal/queue/redis/client.go:183-362 | with distinct clock readings a job can only be missing if a mover died carrying it or an unhandled job's dead-lettering failed |
| `RedisProtocol.MoverDeathCanLoseAJob` | internal/queue/redis/client.go:331-358 | a run in which a reclaimer dies between LREM and RPUSH and the job is gone |
| `RedisMovers.MoverLosesExactlyByDying` | internal/queue/redis/client.go:263-421 | a mover's command lowers the copies stored and carried if and only if it is the mover's death and the mover carries one |
| `RedisMovers.ReclaimTakesExactlyTheStale` | internal/queue/redis/client.go:329-346 | a reclaim takes a scanned entry, whoever holds it, if and only if it is still there and its lease is unwritten or as old as the cutoff |
| `RedisOrder.LastInFirstOut` | internal/queue/redis/client.go:145-239 | over every run, the entry at place p of ready is handed out by the pop that first brings the list down to p entries: after all that were, and were put, on top of it |
| `RedisOrder.OlderJobsStarve` | internal/queue/redis/client.go:145-239 | every run with a worker at rest can go on with any number of hand-outs, all of jobs submitted later, and the ready list as it was |
| `RedisOrder.ReadyIsAStack` | internal/queue/redis/client.go:145-415 | every command pushes one entry on the ready list, pops the one pushed last, or leaves the list alone |
| `RedisOrder.PushesAndPops` | internal/queue/redis/client.go:145-239 | in every state the ready list holds as many entries as were pushed and not popped |
| `RedisLaws.SubmitOutcome` | internal/queue/redis/client.go:145-181 | a new job goes on the ready list or joins the delayed set, every field given |
| `RedisLaws.LeaseOutcome` | internal/queue/redis/client.go:183-239 | the lease is the popped job with the instant, and replaces it in the processing list |
| `RedisLaws.FailureOutcome` | internal/worker/consumer.go:87-110 | the retry's payload has one attempt more, no lease and the backoff of that attempt; the dead letter comes exactly at the limit |
| `RedisLaws.SettleOutcome` | internal/queue/redis/client.go:241-261 | the retry joins the delayed set, the dead letter is put first, and the lease is removed once |
| `RedisLaws.ScanOutcome` | internal/queue/redis/client.go:318-329 | a reclaim sees the first `limit` entries of the processing list only, where the leases written last are |
| `RedisLaws.TakeOutcome` | internal/queue/redis/client.go:282-421 | what a promotion, a reclaim and a replay carry, field by field, and what they remove |
| `RedisDelivery.EarlyByLessThanAMillisecond` | internal/queue/redis/client.go:254-275 | no worker ever holds a job under a lease a millisecond or more ahead of its availability |
| `RedisDelivery.EarlyExactlyWithinTheMillisecond` | internal/queue/redis/client.go:254-275 | a scan returns a job ahead of its time if and only if the clock is in the job's millisecond and before its instant |
| `RedisDelivery.DeliveryCanBeEarly` | internal/queue/redis/client.go:254-275 | a run in which a worker holds a job under a lease ahead of its availability |
| `Resp.BulkRoundTrip` | internal/queue/redis/client.go:565-585 | a bulk string of any bytes, followed by anything, is read back exactly, leaving exactly the rest |
| `Resp.ArrayRoundTrip` | internal/queue/redis/client.go:548-611 | so is a command frame |
| `Resp.FramesRoundTrip` | internal/queue/redis/client.go:548-611 | concatenated frames decode in order |
| `Resp.FramesArePrefixFree` | internal/queue/redis/client.go:548-555 | the bytes on the wire determine the command and what follows it |
| `Resp.IntegerRoundTrip` | internal/queue/redis/client.go:613-629 | every 64-bit integer reply is read back, leaving the rest |
| `RespLaws.BulkIsRead` | internal/queue/redis/client.go:565-585 | every outcome of reading a bulk string from any bytes: a string exactly if a header line announces its length and the string, two more bytes and the rest follow; nil exactly for a negative length |
| `RespLaws.NilBulkIsRead` | internal/queue/redis/client.go:577-579 | every negative length reads as nil and leaves the rest |
| `RespLaws.NilBulkOfTheServer` | internal/queue/redis/client.go:577-579 | in particular `$-1`, the server's answer when there is nothing to pop |
| `RespLaws.ArrayIsRead` | internal/queue/redis/client.go:587-611 | an array header followed by its items: as many as it announces, none for a negative number |
| `RespLaws.ItemsAreRead` | internal/queue/redis/client.go:602-610 | if items are read, each is a bulk string read from what the one before left, and the rest is what the last left |
| `RespLaws.ArrayIsAnnounced` | internal/queue/redis/client.go:587-598 | no array is read without a header line that announces it |
| `RespLaws.NegativeArrayIsEmpty` | internal/queue/redis/client.go:599-601 | a negative count gives no items and leaves the rest |
| `RespLaws.ServerErrorIsRead` | internal/queue/redis/client.go:613-629 | an integer reply is the server's error if and only if its line begins with a minus |
| `RespLaws.NumberIsRead` | internal/queue/redis/client.go:573-576 | which strings read as a number, and as which |
| `RespLaws.LineIsRead` | internal/queue/redis/client.go:557-563 | a line is what comes before the first line feed, less one carriage return |
| `RespLaws.PingFrame` | internal/queue/redis/client.go:548-555 | the bytes of a frame, written out |
| `RespReader.BuildArray` | internal/queue/redis/client.go:548-555 | the builder loop writes the frame |
| `RespReader.Reader.ReadLine` | internal/queue/redis/client.go:557-563 | consumes up to the line feed and drops one CR LF, or fails at the end of input |
| `RespReader.Reader.ReadBulkString` | internal/queue/redis/client.go:565-585 | consumes what `Resp.ParseBulk` does and returns its outcome; which outcome that is for which bytes is `RespLaws.BulkIsRead` |
| `RespReader.Reader.ReadBulkStringArray` | internal/queue/redis/client.go:587-611 | consumes exactly an array; a negative count gives no items |
| `RespReader.Reader.ReadInteger` | internal/queue/redis/client.go:613-629 | consumes one integer reply or reports the server's error |
| `Policy.NormalizeIsIdempotent` | internal/services/app_service.go:151-170 | normalising twice is normalising once, and the repair limit (at least one) does not change |
| `Policy.RepairPolicy` | internal/services/app_service.go:151-157 | a positive limit is the limit, else three; auto-repair that is off stays off unless nothing at all is set |
| `Policy.NormalizeFills` | internal/services/app_service.go:158-170 | what is set stays, what is not gets its default, provider by provider |
| `Policy.NormalizeReliability` | internal/services/app_service.go:151-170 | the loop fills the shared provider slice in place and returns the normalised policy |
| `MemoryStore.State.CreateApp` | internal/repositories/memory/store.go:302-313 | stores the app exactly if no app of the tenant has its slug |
| `MemoryStore.State.UpdateApp` | internal/repositories/memory/store.go:315-324 | replaces a stored app, or reports that there is none |
| `MemoryStore.State.UpdateDeployment` | internal/repositories/memory/store.go:358-367 | replaces a stored deployment, or reports that there is none |
| `MemoryStore.State.FindDeployment` | internal/repositories/memory/store.go:369-378 | finds a deployment of the tenant only |
| `MemoryStore.State.NextVersion` | internal/repositories/memory/store.go:418-424 | increments the app's counter and returns it |
| `MemoryStore.State.CreateEvent` | internal/repositories/memory/store.go:426-431 | appends to the deployment's log |
| `MemoryStore.State.ListActive` | internal/repositories/memory/store.go:393-416 | whatever the map's order: active deployments only, each once, oldest update first, at most the limit, and none left out is older than one listed |
| `MemoryStore.SortByAge` | internal/repositories/memory/store.go:411-411 | the same deployments, each once, ordered by their last update |
| `Services.Scheduler.ScheduleDeployment` | internal/services/scheduler_service.go:19-29 | enqueues a create job that names the deployment |
| `Services.Scheduler.ScheduleDelete` | internal/services/scheduler_service.go:31-41 | enqueues a delete job that names the deployment |
| `Services.Scheduler.ScheduleSync` | internal/services/scheduler_service.go:43-57 | enqueues a sync job two seconds ahead |
| `Services.DeploymentService.Create` | internal/services/deployment_service.go:62-103 | takes the next version, stores the queued deployment with its event and schedules its create job; nothing changes if the app is not found |
| `Services.DeploymentService.Retry` | internal/services/deployment_service.go:117-147 | from failed or cancelled only: queued again, counters cleared, event and job written |
| `Services.DeploymentService.QueueRepair` | internal/services/deployment_service.go:149-181 | refuses without auto-repair, fails the deployment at the limit, else opens one repair round; reports a deployment that is not stored and changes nothing |
| `Services.DeploymentService.Cancel` | internal/services/deployment_service.go:183-197 | from queued or provisioning only |
| `Services.DeploymentService.Delete` | internal/services/deployment_service.go:199-214 | marks as deleting and schedules a delete job, unless deleted or deleting already |
| `Services.DeploymentService.MarkDeploymentStatus` | internal/services/deployment_service.go:216-240 | writes status, start and finish times and repair count together with one event, or nothing if the deployment is not stored |
| `Services.ReliabilityService.ScheduleReconcile` | internal/services/reliability_service.go:115-132 | the queue gains exactly one job: a delete job if deleting, a create job if queued or without namespace or deployment name, else a sync job two seconds ahead; nothing for failed, cancelled and deleted |
| `Services.ReliabilityService.ReconcileOnce` | internal/services/reliability_service.go:74-96 | scanned = scheduled, skipped = 0, and the queue gains the jobs of the oldest active deployments in order |
| `Handlers.JobHandlers.Create` | internal/worker/handlers/deployment_create.go:28-65 | store, queue, backend calls and error are those of the create handler's function, on every path |
| `Handlers.JobHandlers.Sync` | internal/worker/handlers/deployment_sync.go:33-73 | the same for the sync handler |
| `Handlers.JobHandlers.Delete` | internal/worker/handlers/deployment_delete.go:29-48 | the same for the delete handler |
| `DeploymentLaws.MarkOutcome` | internal/services/deployment_service.go:216-240 | a mark starts a deployment once, finishes it exactly when running, failed, cancelled or deleted, clears the repair count exactly when running, and touches nothing else |
| `DeploymentLaws.CreateOutcome` | internal/services/deployment_service.go:62-103 | a created deployment is queued and logged, and one create job is ordered |
| `DeploymentLaws.RetryOutcome` | internal/services/deployment_service.go:117-147 | failed and cancelled deployments start over with one create job, all others are refused |
| `DeploymentLaws.CancelOutcome` | internal/services/deployment_service.go:183-197 | queued and provisioning deployments are cancelled, all others are refused; nothing is ordered |
| `DeploymentLaws.RemoveOutcome` | internal/services/deployment_service.go:199-214 | a deployment is marked deleting with one delete job, unless that was done |
| `DeploymentLaws.CreateIsRefused` | internal/worker/handlers/deployment_create.go:28-40 | the create handler does nothing for a deployment that is over, and fails without its records |
| `DeploymentLaws.Submission` | internal/worker/handlers/deployment_create.go:41-63 | a submission leaves status and reference, one sync job two seconds ahead and, if running, the app pointing at it |
| `DeploymentLaws.FailedSubmission` | internal/worker/handlers/deployment_create.go:41-52 | a failed one leaves a failed deployment and no job |
| `DeploymentLaws.RunningReport` | internal/worker/handlers/deployment_sync.go:58-73 | a running report leaves status running, repair count 0, no job, and the app pointing at the deployment |
| `DeploymentLaws.PendingReport` | internal/worker/handlers/deployment_sync.go:58-66 | a provisioning or degraded report leaves that status and exactly one sync job, two seconds ahead |
| `DeploymentLaws.FailingReport` | internal/worker/handlers/deployment_sync.go:49-58 | a failing report leaves a repair round and a create job below the limit, and else a failed deployment |
| `DeploymentLaws.SyncIsRefused` | internal/worker/handlers/deployment_sync.go:33-47 | the sync handler does nothing for a deployment that is over, and changes nothing if the query fails |
| `DeploymentLaws.Deletion` | internal/worker/handlers/deployment_delete.go:41-48 | a deletion leaves a deleted deployment and the app's pointer cleared if it was at it |
| `DeploymentLaws.FailedDeletion` | internal/worker/handlers/deployment_delete.go:34-40 | a refused deletion leaves a failed deployment |
| `KubernetesBackend.MapDeploymentStatus` | internal/backends/kubernetes/backend.go:171-215 | failed, running, degraded and provisioning, each exactly when, and the reason given with each |
| `KubernetesBackend.ReportMeans` | internal/backends/kubernetes/backend.go:171-215 | what each reported status says about generations, conditions and replica counts, on the rollout's own fields |
| `KubernetesBackend.GetStatus` | internal/backends/kubernetes/backend.go:151-169 | an object that is there is reported as its rollout is, status and reason; a missing one is failed; the reference is echoed, the service filled in where the object was found without one |
| `KubernetesBackend.Submit` | internal/backends/kubernetes/backend.go:84-130 | succeeds exactly if every object was applied, provisioning under a named reference; else fails with the first that was not, named in the error |
| `KubernetesBackend.Delete` | internal/backends/kubernetes/backend.go:132-149 | fails exactly if there is a reference, the object exists and the cluster refuses; asks for the ingress, service and deployment, and once that is gone for the config map and the managed Secret to be removed |
| `KubernetesBackend.DeletionUndoesSubmission` | internal/backends/kubernetes/backend.go:132-149 | deleting what a submission made removes its objects, by name and in the tenant's namespace |
| `KubernetesBackend.DeletingRemovesSecretOf` | internal/backends/kubernetes/backend.go:145-148 | deleting one version removes the Secret of another if and only if the digits of their numbers that fit agree |
| `EventLog.RoundsAreCounted` | internal/services/deployment_service.go:149-181 | over a stretch of events without a reset the folded repair count grows by one per repair round |
| `StoreInvariants.HandleCreateIsSound` | internal/worker/handlers/deployment_create.go:28-65 | the create handler keeps records good, growing and explained by their events, and orders only jobs that make sense |
| `StoreInvariants.HandleSyncIsSound` | internal/worker/handlers/deployment_sync.go:33-73 | so does the sync handler, and it queries the status of named objects only |
| `StoreInvariants.HandleDeleteIsSound` | internal/worker/handlers/deployment_delete.go:29-48 | so does the delete handler |
| `StoreInvariants.RepairIsSound` | internal/services/deployment_service.go:149-181 | so does auto-repair, within its limit |
| `CurrentDeployment.DeleteKeepsCurrent` | internal/worker/handlers/deployment_delete.go:29-48 | deleting leaves no app pointing at the deleted deployment |
| `CurrentDeployment.SyncKeepsCurrent` | internal/worker/handlers/deployment_sync.go:33-73 | a sync points the app at its own live deployment only |
| `CurrentDeployment.CreateKeepsCurrent` | internal/worker/handlers/deployment_create.go:28-65 | so does a creation |
| `JobNames.StepKeepsNames` | internal/worker/consumer.go:64-110 | no move of workers or queue changes what a job is about |
| `QueueProjection.PlacingIsSubmitting` | internal/services/scheduler_service.go:19-57 | scheduling is the protocol's Submit |
| `QueueProjection.StepsAreMild` | internal/worker/handlers/deployment_create.go:28-65 | apart from the queue's own steps, the steps of the system only submit jobs and end handlers, at their own instant |
| `QueueProjection.OneRun` | internal/worker/consumer.go:44-110 | every run of the whole system projects to one protocol run that is at the queue of each world in its place |
| `QueueProjection.WorldsKeepJobs` | internal/worker/consumer.go:44-110 | so in the whole system, too, no job is lost and all entries are well formed |
| `SystemQueue.LeaseStands` | internal/queue/memory/client.go:87-111 | in the whole system a lease leaves the processing list only by an ack that takes it or a reclaim that finds it stale |
| `SystemQueue.DelayStands` | internal/queue/memory/client.go:168-185 | in the whole system a delayed entry stays delayed until it is due |
| `SystemQueue.BudgetHolds` | internal/worker/consumer.go:87-110 | over any stretch of any run of the whole system hand-outs are paid for by attempts left and entries made ready anew |
| `SystemQueue.DeliveriesAreBounded` | internal/worker/consumer.go:87-98 | in the whole system a job is handed out at most maxAttempts times per scheduling, replay or expired lease |
| `SystemQueue.AttemptsAreBounded` | internal/worker/consumer.go:87-98 | in the whole system, from the scheduling of a job or the replay of its only entry until its next replay or expired lease, it is handed out at most maxAttempts times |
| `WorldInvariants.StepKeepsInv` | internal/worker/handlers/deployment_sync.go:33-73 | every step of the whole system keeps the invariant over store, event log, queue, workers and backend calls |
| `WorldInvariants.InvHolds` | internal/services/deployment_service.go:62-240 | the invariant holds in every world of every run |
| `LifecycleTheorems.EventLogGivesTheRecord` | internal/services/deployment_service.go:216-240 | folding a deployment's events gives its status, reason, repair count, start and finish times |
| `LifecycleTheorems.JobsNameDeployments` | internal/services/scheduler_service.go:19-57 | every job anywhere names a stored deployment of its tenant and app, a sync job one that was started and has a backend object |
| `LifecycleTheorems.StatusQueriesNameObjects` | internal/worker/handlers/deployment_sync.go:44-47 | no status query is made without a reference |
| `LifecycleTheorems.RunningWasStarted` | internal/worker/handlers/deployment_create.go:41-55 | running, degraded, recovering or provisioning implies started |
| `LifecycleTheorems.CurrentDeploymentIsLive` | internal/worker/handlers/deployment_delete.go:29-48 | an app's current deployment is empty or its own, of its tenant, and not deleted |
| `Pointers.PointerFollowsReports` | internal/worker/handlers/deployment_sync.go:68-72 | over every run: from a running report of a deployment until another of the app is reported running or this one's deletion completes, the app points at it |
| `Pointers.PointerMoves` | internal/worker/handlers/deployment_delete.go:41-48 | an app's pointer moves to a deployment reported running, away from one whose deletion completes, and otherwise not at all |
| `DeleteJobs.DeleteJobsAreLogged` | internal/services/reliability_service.go:115-132 | over every run: wherever a delete job is, its deployment's log says that it is being deleted |
| `DeleteJobs.DeleteJobsWereAskedFor` | internal/services/deployment_service.go:199-214 | over every run: for every delete job a user's delete call for its deployment came before it |
| `LifecycleTheorems.RepairsAreBounded` | internal/services/deployment_service.go:149-181 | repair count and repair rounds per stretch without a running report or retry stay within the limit |
| `LifecycleTheorems.FailingSync` | internal/worker/handlers/deployment_sync.go:49-56 | a failing report opens a round if and only if the policy repairs and the count is below the limit; else the deployment is failed and nothing is scheduled |
| `LifecycleTheorems.RepairEnds` | internal/services/deployment_service.go:149-181 | after that many rounds the next failing report marks the deployment failed |
| `LifecycleTheorems.RecordsOnlyGrow` | internal/services/deployment_service.go:62-240 | tenant, app, version, snapshot, start time and having a backend object never change once set |
| `Exits.StepTouches` | internal/services/deployment_service.go:117-240 | a step changes at most the record it is for, and stamps it with its instant |
| `Exits.DeletedExits` | internal/worker/handlers/deployment_delete.go:34-40 | `deleted` is left if and only if the step is a delete job whose backend call fails |
| `Exits.CancelledExits` | internal/services/deployment_service.go:117-125 | `cancelled` is left if and only if the step is a user's retry, a user's delete or a delete job; no step submits a cancelled deployment |
| `Exits.CancelledStays` | internal/worker/handlers/deployment_create.go:33-36 | until such a step the deployment is cancelled in every world, and its number of submissions does not change |
| `Exits.DeletedStays` | internal/worker/handlers/deployment_sync.go:39-42 | the same for `deleted` |
| `Interleaving.IdentitiesSurvive` | internal/repositories/memory/store.go:350-378 | however the store operations of calls interleave, no deployment disappears or changes tenant, app, version or snapshot, and every copy is of a stored one |
| `Interleaving.JobsFromCopiesAreNamed` | internal/services/scheduler_service.go:19-57 | so a job scheduled from any copy names a stored deployment of its tenant and app |
| `Interleaving.WriteIsExplainedExactly` | internal/services/deployment_service.go:216-240 | a change made on a copy, written and logged, leaves a record its log explains if and only if copy and stored record agree in start time, repair count and finish time, as far as the change does not reset them |
| `Interleaving.WriteGrowsExactly` | internal/repositories/memory/store.go:358-367 | a write keeps start and backend object if and only if the copy has them or the change brings them |
| `Interleaving.UndisturbedCallsAreFresh` | internal/repositories/memory/store.go:358-378 | a call nobody interferes with writes onto the record it read |
| `Interleaving.RepairRoundsAreMiscounted` | internal/worker/handlers/deployment_sync.go:33-56 | a run of two overlapping sync handlers whose two logged repair rounds the record counts as one |
| `Interleaving.StartIsForgotten` | internal/services/deployment_service.go:183-197 | a run in which a cancellation overlapping a submission takes start time and backend reference away |
| `Versions.VersionsAreDistinct` | internal/repositories/memory/store.go:418-424 | two deployments of one app never have the same version, though numbering and storing interleave |
| `Naming.ResourceNamesAgree` | internal/backends/kubernetes/backend.go:620-622 | two resource names are equal if and only if the trimmed slugs and the versions are |
| `Naming.BackendNamesDiffer` | internal/backends/kubernetes/backend.go:620-622 | in every world two deployments of one app have different backend names |
| `Naming.SlugsCanCollide` | internal/backends/kubernetes/backend.go:643-651 | different slugs with one name |
| `Naming.KubeNameIs` | internal/backends/kubernetes/backend.go:643-651 | a name has at most 40 characters, no capitals, underscores or dots, and no dash at either end |
| `Naming.GoodNamesStay` | internal/backends/kubernetes/backend.go:643-651 | and a string that is so already is its own name |
| `Naming.CharsAre` | internal/backends/kubernetes/backend.go:643-646 | capitals become small, underscores and dots dashes, all others stay |
| `Naming.SecretNamesAgree` | internal/backends/kubernetes/backend.go:635-637 | two versions share the managed Secret if and only if the digits of their numbers that fit agree |
| `Naming.SecretNamesByLength` | internal/backends/kubernetes/backend.go:635-651 | so always for names of 38 characters or more, never where both resource names fit into 40 |
| `Naming.LongNameSharesItsSecret` | internal/backends/kubernetes/backend.go:635-651 | 38 letters: versions 1 and 2 share one Secret |
| `Naming.OneDigitFits` | internal/backends/kubernetes/backend.go:635-651 | 37 letters: versions 1 and 10 share one Secret, versions 1 and 2 do not |
| `Reconciliation.NothingIsSkipped` | internal/services/reliability_service.go:115-132 | the orders are one for one those of the listed deployments: delete exactly if deleting, create exactly if queued or without a backend object, else sync in two seconds |
| `Reconciliation.ActiveIs` | internal/repositories/memory/store.go:393-416 | active is everything but failed, cancelled and deleted |
| `Reconciliation.PassIsComplete` | internal/services/reliability_service.go:74-96 | after a pass each listed deployment has one new job, the only entry with its id: of kind delete if and only if it is deleting, create if and only if it is queued or lacks a namespace or deployment name, both ready; sync if and only if neither, delayed by two seconds |
| `Reconciliation.NoDeploymentStarves` | internal/repositories/memory/store.go:393-416 | with a strictly increasing clock, and listed records written before the next pass, an active deployment with p active ones not updated after it is listed or written within p / limit + 1 passes |
| `Text.ListIsUnique` | internal/backends/kubernetes/backend.go:798-805 | the sorted list of a map's keys is unique |
| `Text.SortedKeys` | internal/backends/kubernetes/backend.go:798-805 | the keys come out in that order, whatever order the map gives them in |
| `Text.LessIs` | internal/backends/kubernetes/backend.go:798-805 | that order is lexicographic: smaller at the first difference, or a proper prefix |
| `Text.TrimSplits` | internal/backends/kubernetes/backend.go:475-489 | trimming takes the white space off both ends, all of it and nothing else |
| `EnvAssembly.UpsertLookup` | internal/backends/kubernetes/backend.go:772-796 | an upsert changes one variable and keeps names distinct |
| `EnvAssembly.AssembledLookup` | internal/backends/kubernetes/backend.go:242-255 | for every configuration, with the runtime on or off: names are distinct, and each variable is what the configuration's own fields say, by who sets it last |
| `EnvAssembly.ReferencesAre` | internal/backends/kubernetes/backend.go:475-494 | exactly which variables are references and into which Secret, on the configuration's own fields |
| `EnvAssembly.OneSecretIsUsed` | internal/backends/kubernetes/backend.go:475-481 | all references point into the Secret the configuration names, and into the managed one if it names none |
| `EnvAssembly.OwnSecretAgrees` | internal/backends/kubernetes/backend.go:425-498 | with a Secret name of its own no reference is into the managed Secret, so none dangles there |
| `EnvAssembly.EnvAgreesWithSecret` | internal/backends/kubernetes/backend.go:425-498 | every reference into the managed Secret has its key there if and only if the configuration fits |
| `EnvAssembly.PaddedKeyDangles` | internal/backends/kubernetes/backend.go:481-489 | a provider key with a leading blank gives a dangling reference |
| `EnvAssembly.BlankNameDangles` | internal/backends/kubernetes/backend.go:472-480 | so does a blank Secret name |
| `Container.Container.Upsert` | internal/backends/kubernetes/backend.go:772-796 | overwrites the first variable of that name in place, or appends |
| `Container.Container.AppendSorted` | internal/backends/kubernetes/backend.go:762-770 | upserts a map's entries in sorted order, skipping blank names |
| `Container.Container.ConfigureRuntime` | internal/backends/kubernetes/backend.go:460-498 | the upserts of the runtime settings, in order; each variable afterwards is what the configuration's fields say, or what it was |
| `Container.Container.Assemble` | internal/backends/kubernetes/backend.go:242-255 | the container's environment, a function of the configuration alone: each variable is what the configuration's fields say |
| `Container.SecretData` | internal/backends/kubernetes/backend.go:425-443 | the Secret's keys do not depend on the map's order, and each holds a value that was configured for it |

## Left out

- HTTP, authentication, API keys, audit, health, configuration loading and the frontend: request plumbing and user interface.
- The Postgres repositories: SQL is not visible here, and the in-memory store has the same contracts.
- Calls to the Kubernetes API and their order within a submission; they are the backend's reply.
- The manifest preview (`manifests.go`), probes, volumes, services, ingress and labels.
- Redis connections, deadlines and the pool; a failed command is a crash between two commands.
- JSON encoding of jobs and dead letters: a payload is the job it encodes. A payload that cannot be decoded does not occur.
- Waiting: Dequeue is one poll without its ticker, and the consumer's sleeps are not there.
- Queues without delayed scheduling, acks or dead letters (`internal/worker/consumer.go:112-128`): both queues offer all of them.
- Stats and ListDeadLetters of the queues, ListByApp and ListByTenant of the store: read-only listings.
- Store failures: the in-memory store reports none but "not found" and "conflict", which are modelled.
- The order and limit of a Redis promotion scan: it may return any due members.
- Event ids, app names, desired states, replica counts, resource requests and image references: carried along, never decided upon.
- The preview of a plan also takes a version number; in the lifecycle that is a creation that is begun and never finished.
- Slug normalisation; a slug is any string.
- Naming.ResourceNamesAgree: is exact for slugs in ASCII, where a character is a byte. The code cuts names by bytes and lower-cases all of Unicode; a slug outside ASCII makes a name Kubernetes does not accept.
- Naming.SecretNamesAgree: the same.
- Naming.SecretNamesByLength: the same.
- KubernetesBackend.DeletingRemovesSecretOf: the same.
- Naming.KubeNameIs: the same.
- Naming.GoodNamesStay: the same.
- Naming.CharsAre: the same.
- Allocation limits: a bulk string is read whatever its announced size.
- Interleaved read-modify-write cycles in `Lifecycle`, beyond version numbers: its theorems are about calls and handler runs that do not overlap on a deployment; `Interleaving` is about the others.
