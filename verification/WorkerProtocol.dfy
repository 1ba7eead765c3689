/** Any number of workers running the consumer loop over one in-memory queue, interleaved with
    promotion, lease reclaim, dead-letter replay and worker crashes. Every queue operation is
    atomic (it holds the queue's lock); anything may happen between two operations. */
module WorkerProtocol {
  import opened Domain
  import opened Backoff
  import Q = QueueSpec

  datatype Config = Config(maxAttempts: int, backoff: Time)

  /** What the consumer's constructor guarantees. */
  predicate ValidConfig(c: Config) {
    c.maxAttempts >= 1 && c.backoff > 0
  }

  const NO_HANDLER := "no handler registered"

  /** Where a worker stands in one iteration of the consumer loop. */
  datatype Phase =
    | Idle
    | Leased(job: Job)                  // dequeued; the handler has not returned
    | Succeeded(job: Job)               // the handler succeeded; the lease is to be acked
    | Failing(job: Job, cause: string)  // the handler failed; to be re-enqueued or dead-lettered
    | Unhandled(job: Job)               // no handler; to be dead-lettered
    | Settled(job: Job)                 // re-enqueued or dead-lettered; the lease is to be acked

  datatype State = State(
    queue: Q.Queue, workers: seq<Phase>, known: set<string>, done: set<string>, clock: Time)

  datatype Step =
    | Submit(id: string, name: JobName, delay: Option<Time>)
    | Lease(w: nat)
    | Succeed(w: nat)
    | Fail(w: nat, cause: string)
    | NoHandler(w: nat)
    | Settle(w: nat, deadId: string)
    | Ack(w: nat)
    | Crash(w: nat)
    | Promote(limit: int)
    | Reclaim(staleAfter: Time, limit: int)
    | Replay(deadId: string)

  datatype Move = Move(step: Step, now: Time)

  predicate Enabled(s: State, m: Move) {
    && s.clock <= m.now && 0 < m.now
    && match m.step
       case Submit(id, _, delay) => id !in s.known && (delay.Some? ==> delay.value >= 0)
       case Lease(w) => w < |s.workers| && s.workers[w].Idle?
       case Succeed(w) => w < |s.workers| && s.workers[w].Leased?
       case Fail(w, _) => w < |s.workers| && s.workers[w].Leased?
       case NoHandler(w) => w < |s.workers| && s.workers[w].Leased?
       case Settle(w, _) => w < |s.workers| && (s.workers[w].Failing? || s.workers[w].Unhandled?)
       case Ack(w) => w < |s.workers| && (s.workers[w].Succeeded? || s.workers[w].Settled?)
       case Crash(w) => w < |s.workers|
       case Promote(_) => true
       case Reclaim(_, _) => true
       case Replay(_) => true
  }

  /** The job as the retry re-enqueues it. */
  function Retried(job: Job, cause: string): Job {
    job.(attempts := job.attempts + 1, lastError := cause)
  }

  predicate Exhausted(c: Config, job: Job) {
    job.attempts + 1 >= c.maxAttempts
  }

  /** The queue after a failed or unhandled job has been put back or given up. */
  function SettleQueue(c: Config, q: Q.Queue, p: Phase, deadId: string, now: Time): Q.Queue
    requires p.Failing? || p.Unhandled?
  {
    if p.Unhandled? then
      Q.AddDead(q, DeadLetter(deadId, p.job, NO_HANDLER, now, p.job.attempts), now)
    else
      var retried := Retried(p.job, p.cause);
      if Exhausted(c, p.job) then
        Q.AddDead(q, DeadLetter(deadId, retried, p.cause, now, retried.attempts), now)
      else
        Q.EnqueueAfter(q, retried, RetryDelay(c.backoff, retried.attempts), now)
  }

  function Apply(c: Config, s: State, m: Move): State
    requires Enabled(s, m)
  {
    var t := s.(clock := m.now);
    match m.step
    case Submit(id, name, delay) =>
      var job := NewJob(id, name, m.now);
      t.(known := s.known + {id},
         queue := if delay.Some? then Q.EnqueueAfter(s.queue, job, delay.value, m.now)
                  else Q.Enqueue(s.queue, job, m.now))
    case Lease(w) =>
      var q := Q.Polled(s.queue, m.now);
      if q.ready == [] then t.(queue := q)
      else t.(queue := Q.LeaseHead(q, m.now),
              workers := s.workers[w := Leased(q.ready[0].(leasedAt := m.now))])
    case Succeed(w) =>
      var job := s.workers[w].job;
      t.(workers := s.workers[w := Succeeded(job)], done := s.done + {job.id})
    case Fail(w, cause) => t.(workers := s.workers[w := Failing(s.workers[w].job, cause)])
    case NoHandler(w) => t.(workers := s.workers[w := Unhandled(s.workers[w].job)])
    case Settle(w, deadId) =>
      t.(queue := SettleQueue(c, s.queue, s.workers[w], deadId, m.now),
         workers := s.workers[w := Settled(s.workers[w].job)])
    case Ack(w) =>
      t.(queue := Q.Ack(s.queue, s.workers[w].job), workers := s.workers[w := Idle])
    case Crash(w) => t.(workers := s.workers[w := Idle])
    case Promote(limit) => t.(queue := Q.PromoteDue(s.queue, limit, m.now))
    case Reclaim(staleAfter, limit) => t.(queue := Q.ReclaimStale(s.queue, staleAfter, limit, m.now))
    case Replay(deadId) => t.(queue := Q.ReplayDeadLetter(s.queue, deadId, m.now))
  }

  ghost predicate Init(s: State) {
    && s.queue == Q.EMPTY && s.known == {} && s.done == {} && s.clock > 0
    && forall w :: 0 <= w < |s.workers| ==> s.workers[w].Idle?
  }

  /** A run: states linked by enabled moves, of any length and any interleaving. */
  ghost predicate IsRun(c: Config, states: seq<State>, moves: seq<Move>) {
    && ValidConfig(c)
    && |states| == |moves| + 1
    && Init(states[0])
    && forall i :: 0 <= i < |moves| ==> Linked(c, states[i], moves[i], states[i + 1])
  }

  ghost predicate Linked(c: Config, s: State, m: Move, s': State) {
    Enabled(s, m) && s' == Apply(c, s, m)
  }

  // ----- No job is lost

  /** Whether the worker has put the job back but still owes the ack of its lease. */
  function Owes(p: Phase, id: string): nat {
    if p.Settled? && p.job.id == id then 1 else 0
  }

  function OwedAcks(ws: seq<Phase>, id: string): nat {
    if ws == [] then 0 else OwedAcks(ws[..|ws| - 1], id) + Owes(ws[|ws| - 1], id)
  }

  lemma {:induction false} OwedAcksUpdate(ws: seq<Phase>, w: nat, p: Phase, id: string)
    requires w < |ws|
    ensures OwedAcks(ws[w := p], id) == OwedAcks(ws, id) - Owes(ws[w], id) + Owes(p, id)
  {
    var n := |ws| - 1;
    if w < n {
      assert ws[w := p][..n] == ws[..n][w := p];
      OwedAcksUpdate(ws[..n], w, p, id);
    } else {
      assert ws[w := p][..n] == ws[..n];
    }
  }

  lemma {:induction false} NothingOwed(ws: seq<Phase>, id: string)
    requires forall w :: 0 <= w < |ws| ==> Owes(ws[w], id) == 0
    ensures OwedAcks(ws, id) == 0
  {
    if ws != [] {
      NothingOwed(ws[..|ws| - 1], id);
    }
  }

  predicate Holds(p: Phase, id: string) {
    !p.Idle? && p.job.id == id
  }

  /** A known job is done, or has an entry more than there are acks owed for it. */
  ghost predicate Accounted(s: State, id: string) {
    && (id in s.known && id !in s.done ==>
          && Q.Total(s.queue, id) >= 1 + OwedAcks(s.workers, id)
          && forall w :: 0 <= w < |s.workers| && s.workers[w].Succeeded? ==> s.workers[w].job.id != id)
    && (id !in s.known ==>
          && id !in s.done && Q.Total(s.queue, id) == 0
          && forall w :: 0 <= w < |s.workers| ==> !Holds(s.workers[w], id))
  }

  lemma SettleAddsOne(c: Config, q: Q.Queue, p: Phase, deadId: string, now: Time, id: string)
    requires p.Failing? || p.Unhandled?
    ensures Q.Total(SettleQueue(c, q, p, deadId, now), id) ==
            Q.Total(q, id) + if p.job.id == id then 1 else 0
  {
    if p.Unhandled? {
      Q.AddDeadAddsOne(q, DeadLetter(deadId, p.job, NO_HANDLER, now, p.job.attempts), now, id);
    } else {
      var retried := Retried(p.job, p.cause);
      Q.AddDeadAddsOne(q, DeadLetter(deadId, retried, p.cause, now, retried.attempts), now, id);
      Q.EnqueueAfterAddsOne(q, retried, RetryDelay(c.backoff, retried.attempts), now, id);
    }
  }

  /** The entry count of a job after any move. */
  lemma TotalAfter(c: Config, s: State, m: Move, id: string)
    requires Enabled(s, m)
    ensures var total := Q.Total(Apply(c, s, m).queue, id);
            match m.step
            case Submit(i, _, _) => total == Q.Total(s.queue, id) + if i == id then 1 else 0
            case Settle(w, _) =>
              total == Q.Total(s.queue, id) + if s.workers[w].job.id == id then 1 else 0
            case Ack(w) =>
              && total <= Q.Total(s.queue, id)
              && total >= Q.Total(s.queue, id) - if s.workers[w].job.id == id then 1 else 0
            case _ => total == Q.Total(s.queue, id)
  {
    match m.step
    case Submit(i, name, delay) =>
      var job := NewJob(i, name, m.now);
      if delay.Some? {
        Q.EnqueueAfterAddsOne(s.queue, job, delay.value, m.now, id);
      } else {
        Q.EnqueueAddsOne(s.queue, job, m.now, id);
      }
    case Lease(_) =>
      Q.PromoteConserves(s.queue, Q.DEQUEUE_PROMOTE_LIMIT, m.now, id);
      var q := Q.Polled(s.queue, m.now);
      if q.ready != [] {
        Q.LeaseConserves(q, m.now, id);
      }
    case Settle(w, deadId) => SettleAddsOne(c, s.queue, s.workers[w], deadId, m.now, id);
    case Ack(w) => Q.AckRemovesAtMostOne(s.queue, s.workers[w].job, id);
    case Promote(limit) => Q.PromoteConserves(s.queue, limit, m.now, id);
    case Reclaim(staleAfter, limit) => Q.ReclaimConserves(s.queue, staleAfter, limit, m.now, id);
    case Replay(deadId) => Q.ReplayConserves(s.queue, deadId, m.now, id);
    case _ =>
  }

  lemma LeasedJobHasEntry(q: Q.Queue)
    requires q.ready != []
    ensures Q.Total(q, q.ready[0].id) > 0
  {
    Q.CountPositive(q.ready, q.ready[0].id);
  }

  /** A worker's change of phase keeps a job accounted for if it pays for the acks it owes. */
  lemma PhaseChangeKeepsAccounted(s: State, s': State, w: nat, p: Phase, id: string)
    requires Accounted(s, id) && w < |s.workers|
    requires s'.known == s.known && s.done <= s'.done
    requires id in s'.done ==> id in s.done || id in s.known
    requires s'.workers == s.workers[w := p]
    requires Q.Total(s'.queue, id) + Owes(s.workers[w], id) >= Q.Total(s.queue, id) + Owes(p, id) || id in s'.done
    requires Holds(p, id) ==> id in s.known
    requires p.Succeeded? ==> p.job.id in s'.done
    requires id !in s.known ==> Q.Total(s'.queue, id) == 0
    ensures Accounted(s', id)
  {
    OwedAcksUpdate(s.workers, w, p, id);
  }

  lemma LeaseKeepsAccounted(c: Config, s: State, m: Move, id: string)
    requires Enabled(s, m) && m.step.Lease? && Accounted(s, id)
    ensures Accounted(Apply(c, s, m), id)
  {
    TotalAfter(c, s, m, id);
    var q := Q.Polled(s.queue, m.now);
    if q.ready != [] {
      var s' := Apply(c, s, m);
      Q.PromoteConserves(s.queue, Q.DEQUEUE_PROMOTE_LIMIT, m.now, id);
      LeasedJobHasEntry(q);
      PhaseChangeKeepsAccounted(s, s', m.step.w, s'.workers[m.step.w], id);
    }
  }

  lemma StepKeepsAccounted(c: Config, s: State, m: Move, id: string)
    requires Enabled(s, m) && Accounted(s, id)
    ensures Accounted(Apply(c, s, m), id)
  {
    TotalAfter(c, s, m, id);
    var s' := Apply(c, s, m);
    if m.step.Lease? {
      LeaseKeepsAccounted(c, s, m, id);
    } else if m.step.Submit? {
      if m.step.id == id {
        NothingOwed(s.workers, id);
      }
    } else if !(m.step.Promote? || m.step.Reclaim? || m.step.Replay?) {
      PhaseChangeKeepsAccounted(s, s', m.step.w, s'.workers[m.step.w], id);
    }
  }

  /** No job is ever lost: in every state of every run, each submitted job either has had a
      successful handler run or is still in one of the four lists, with one entry to spare over
      the acks that may yet remove one. */
  lemma {:induction false} NoJobIsLost(c: Config, states: seq<State>, moves: seq<Move>, i: nat, id: string)
    requires IsRun(c, states, moves) && i < |states|
    ensures Accounted(states[i], id)
  {
    if i > 0 {
      NoJobIsLost(c, states, moves, i - 1, id);
      assert Linked(c, states[i - 1], moves[i - 1], states[i]);
      StepKeepsAccounted(c, states[i - 1], moves[i - 1], id);
    }
  }
}
