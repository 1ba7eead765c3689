/** The consumer: one worker's loop body over the in-memory queue, its retry path and its
    periodic maintenance, and the link from that code to the worker protocol. */
module Consumer {
  import opened Domain
  import opened Backoff
  import P = WorkerProtocol
  import Q = QueueSpec
  import opened Deployments
  import opened Lifecycle
  import opened MemoryQueue
  import opened QueueProjection
  import opened Scheduling

  const LEASE_TIMEOUT: Time := 10 * MINUTE
  const MAINTENANCE_LIMIT := 100

  /** What running a job's handler gives: an outcome, and the jobs it scheduled on the way, under the
      given ids. NotRegistered if the job's kind has no handler. */
  datatype HandlerResult =
    | NotRegistered
    | Handled(orders: seq<Order>, jobIds: seq<string>)
    | HandlerError(cause: string, orders: seq<Order>, jobIds: seq<string>)

  predicate Supplied(r: HandlerResult) {
    r.NotRegistered? || |r.orders| <= |r.jobIds|
  }

  class Consumer {
    const queue: Client
    const maxAttempts: int
    const retryBackoff: Int64
    var lastMaintenance: Time

    ghost predicate Valid()
      reads this, queue
    {
      maxAttempts >= 1 && retryBackoff > 0 && queue.Valid()
    }

    ghost function Config(): P.Config {
      P.Config(maxAttempts, retryBackoff as int)
    }

    constructor (queue: Client, maxAttempts: int, retryBackoff: Int64)
      requires queue.Valid()
      ensures Valid() && this.queue == queue && lastMaintenance == 0
      ensures this.maxAttempts == if maxAttempts < 1 then 1 else maxAttempts
      ensures this.retryBackoff == if retryBackoff <= 0 then 2_000_000_000 else retryBackoff
    {
      this.queue := queue;
      this.maxAttempts := if maxAttempts < 1 then 1 else maxAttempts;
      this.retryBackoff := if retryBackoff <= 0 then 2_000_000_000 else retryBackoff;
      lastMaintenance := 0;
    }

    /** At most once a second: promote due jobs, then reclaim stale leases. */
    method RunMaintenance(now: Time)
      requires Valid()
      modifies `lastMaintenance, queue, queue.processing, queue.delayed
      ensures Valid()
      ensures var skipped := old(lastMaintenance) != 0 && now - old(lastMaintenance) < 1_000_000_000;
              && lastMaintenance == (if skipped then old(lastMaintenance) else now)
              && queue.Contents() ==
                 if skipped then old(queue.Contents())
                 else Q.ReclaimStale(Q.PromoteDue(old(queue.Contents()), 100, now), 600_000_000_000, 100, now)
    {
      if lastMaintenance != 0 && now - lastMaintenance < SECOND {
        return;
      }
      lastMaintenance := now;
      var _ := queue.PromoteDue(MAINTENANCE_LIMIT, now);
      var _ := queue.ReclaimStale(LEASE_TIMEOUT, MAINTENANCE_LIMIT, now);
    }

    /** Re-enqueues the failed job with its backoff, or dead-letters it once its attempts are
        used up, and then acks the lease it was run under. */
    method RetryJob(job: Job, cause: string, deadId: string, now: Time)
      requires Valid()
      modifies queue, queue.processing, queue.delayed
      ensures Valid()
      ensures queue.Contents() ==
              Q.Ack(P.SettleQueue(Config(), old(queue.Contents()), P.Failing(job, cause), deadId, now), job)
    {
      var leasedJob := job;
      var j := job.(attempts := job.attempts + 1, lastError := cause);
      if j.attempts >= maxAttempts {
        queue.DeadLetter(DeadLetter(deadId, j, cause, now, j.attempts), now);
      } else {
        var delay := ComputeRetryDelay(retryBackoff, j.attempts);
        queue.EnqueueAfter(j, delay as int, now);
      }
      queue.Ack(leasedJob);
    }

    /** What a handler's scheduling does to the queue. */
    method Schedule(orders: seq<Order>, jobIds: seq<string>, now: Time)
      requires Valid() && |orders| <= |jobIds|
      modifies queue, queue.delayed
      ensures Valid() && queue.processing == old(queue.processing)
      ensures queue.delayed == old(queue.delayed) || fresh(queue.delayed)
      ensures queue.Contents() == PlaceAll(old(queue.Contents()), orders, jobIds, now)
    {
      ghost var before := queue.Contents();
      for i := 0 to |orders|
        invariant Valid() && queue.processing == old(queue.processing)
        invariant queue.delayed == old(queue.delayed) || fresh(queue.delayed)
        invariant queue.Contents() == PlaceAll(before, orders[..i], jobIds, now)
      {
        assert orders[..i + 1][..i] == orders[..i];
        var job := NewJob(jobIds[i], orders[i].name, now);
        if orders[i].delay.Some? {
          queue.EnqueueAfter(job, orders[i].delay.value, now);
        } else {
          queue.Enqueue(job, now);
        }
      }
      assert orders[..|orders|] == orders;
    }

    /** One iteration of the loop after maintenance: lease, run the handler, and settle. */
    method RunOnce(handle: Job -> HandlerResult, deadId: string, now: Time)
      requires Valid() && forall job :: Supplied(handle(job))
      modifies queue, queue.processing, queue.delayed
      ensures Valid()
      ensures queue.Contents() == Iteration(Config(), old(queue.Contents()), handle, deadId, now)
    {
      var leased := queue.Dequeue(now);
      if leased == None {
        return;
      }
      var job := leased.value;
      assert Supplied(handle(job));
      match handle(job)
      case NotRegistered =>
        queue.DeadLetter(DeadLetter(deadId, job, P.NO_HANDLER, now, job.attempts), now);
        queue.Ack(job);
      case HandlerError(cause, orders, jobIds) =>
        Schedule(orders, jobIds, now);
        RetryJob(job, cause, deadId, now);
      case Handled(orders, jobIds) =>
        Schedule(orders, jobIds, now);
        queue.Ack(job);
    }
  }

  /** The queue after one undisturbed iteration. */
  ghost function Iteration(c: P.Config, q: Q.Queue, handle: Job -> HandlerResult, deadId: string, now: Time): Q.Queue
    requires forall job :: Supplied(handle(job))
  {
    var polled := Q.Polled(q, now);
    if polled.ready == [] then polled else
      var job := polled.ready[0].(leasedAt := now);
      AfterHandler(c, Q.LeaseHead(polled, now), job, handle(job), deadId, now)
  }

  function AfterHandler(c: P.Config, leased: Q.Queue, job: Job, r: HandlerResult, deadId: string, now: Time): Q.Queue
    requires Supplied(r)
  {
    var scheduled := if r.NotRegistered? then leased else PlaceAll(leased, r.orders, r.jobIds, now);
    AfterOutcome(c, scheduled, job, r, deadId, now)
  }

  /** The queue after the outcome, once the handler's scheduling is done. */
  function AfterOutcome(c: P.Config, q: Q.Queue, job: Job, r: HandlerResult, deadId: string, now: Time): Q.Queue {
    match r
    case Handled(_, _) => Q.Ack(q, job)
    case NotRegistered => Q.Ack(P.SettleQueue(c, q, P.Unhandled(job), deadId, now), job)
    case HandlerError(cause, _, _) => Q.Ack(P.SettleQueue(c, q, P.Failing(job, cause), deadId, now), job)
  }

  /** The moves of the worker protocol that one undisturbed iteration makes. */
  ghost function IterationMoves(q: Q.Queue, w: nat, handle: Job -> HandlerResult, deadId: string, now: Time)
    : seq<P.Move>
    requires forall job :: Supplied(handle(job))
  {
    var polled := Q.Polled(q, now);
    [P.Move(P.Lease(w), now)] +
    if polled.ready == [] then [] else HandlerMoves(w, handle(polled.ready[0].(leasedAt := now)), deadId, now)
  }

  /** Scheduling, then the outcome. */
  function HandlerMoves(w: nat, r: HandlerResult, deadId: string, now: Time): seq<P.Move>
    requires Supplied(r)
  {
    (if r.NotRegistered? then [] else Submissions(r.orders, r.jobIds, now)) + OutcomeMoves(w, r, deadId, now)
  }

  function OutcomeMoves(w: nat, r: HandlerResult, deadId: string, now: Time): seq<P.Move> {
    match r
    case Handled(_, _) => [P.Move(P.Succeed(w), now), P.Move(P.Ack(w), now)]
    case NotRegistered => [P.Move(P.NoHandler(w), now), P.Move(P.Settle(w, deadId), now), P.Move(P.Ack(w), now)]
    case HandlerError(cause, _, _) =>
      [P.Move(P.Fail(w, cause), now), P.Move(P.Settle(w, deadId), now), P.Move(P.Ack(w), now)]
  }

  /** The ids of the jobs a handler schedules are new, and no delay is negative. */
  ghost predicate Schedulable(s: P.State, r: HandlerResult) {
    Supplied(r) && (r.NotRegistered? || (FreshIds(s, r.jobIds) && DelaysOk(r.orders)))
  }

  /** The loop body is a sequence of protocol moves: they are all enabled, they leave the worker idle
      again, and they change the queue exactly as the code does. */
  lemma IterationIsProtocolMoves(c: P.Config, s: P.State, w: nat, handle: Job -> HandlerResult,
                                 deadId: string, now: Time)
    returns (states: seq<P.State>, after: P.State)
    requires w < |s.workers| && s.workers[w].Idle? && s.clock <= now && 0 < now
    requires forall job :: Supplied(handle(job))
    requires var ready := Q.Polled(s.queue, now).ready;
             ready != [] ==> Schedulable(s, handle(ready[0].(leasedAt := now)))
    ensures Path(c, states, IterationMoves(s.queue, w, handle, deadId, now), s, after)
    ensures after.queue == Iteration(c, s.queue, handle, deadId, now) && after.workers == s.workers
  {
    var lease, polled := P.Move(P.Lease(w), now), Q.Polled(s.queue, now);
    var s1 := P.Apply(c, s, lease);
    OneMove(c, s, lease);
    if polled.ready == [] {
      states, after := [s, s1], s1;
      assert [lease] + [] == [lease];
    } else {
      var job := polled.ready[0].(leasedAt := now);
      var more, s2 := HandlerIsProtocolMoves(c, s1, w, job, handle(job), deadId, now);
      Join(c, [s, s1], [lease], more, HandlerMoves(w, handle(job), deadId, now), s, s1, s2);
      states, after := [s, s1] + more[1..], s2;
      assert s1.workers[w := P.Idle] == s.workers;
    }
  }

  lemma HandlerIsProtocolMoves(c: P.Config, s: P.State, w: nat, job: Job, r: HandlerResult, deadId: string, now: Time)
    returns (states: seq<P.State>, after: P.State)
    requires w < |s.workers| && s.workers[w] == P.Leased(job) && s.clock <= now && 0 < now && Schedulable(s, r)
    ensures Path(c, states, HandlerMoves(w, r, deadId, now), s, after)
    ensures after.queue == AfterHandler(c, s.queue, job, r, deadId, now) && after.workers == s.workers[w := P.Idle]
  {
    if r.NotRegistered? {
      states, after := OutcomeIsProtocolMoves(c, s, w, job, r, deadId, now);
      assert [] + OutcomeMoves(w, r, deadId, now) == OutcomeMoves(w, r, deadId, now);
    } else {
      var mid := PlaceJobs(s, r.orders, r.jobIds, now);
      states := PlacingPath(c, s, r.orders, r.jobIds, now);
      var more;
      more, after := OutcomeIsProtocolMoves(c, mid, w, job, r, deadId, now);
      Join(c, states, Submissions(r.orders, r.jobIds, now), more, OutcomeMoves(w, r, deadId, now), s, mid, after);
      states := states + more[1..];
    }
  }

  lemma OutcomeIsProtocolMoves(c: P.Config, s: P.State, w: nat, job: Job, r: HandlerResult, deadId: string, now: Time)
    returns (states: seq<P.State>, after: P.State)
    requires w < |s.workers| && s.workers[w] == P.Leased(job) && s.clock <= now && 0 < now
    ensures Path(c, states, OutcomeMoves(w, r, deadId, now), s, after)
    ensures after.queue == AfterOutcome(c, s.queue, job, r, deadId, now) && after.workers == s.workers[w := P.Idle]
  {
    var moves := OutcomeMoves(w, r, deadId, now);
    var s1 := P.Apply(c, s, moves[0]);
    var s2 := P.Apply(c, s1, moves[1]);
    if r.Handled? {
      states, after := [s, s1, s2], s2;
    } else {
      var s3 := P.Apply(c, s2, moves[2]);
      states, after := [s, s1, s2, s3], s3;
    }
    assert after.workers == s.workers[w := P.Idle];
  }
}
