/** When a job may be handed out, and how often: over every run of the workers. */
module Delivery {
  import opened Domain
  import opened Backoff
  import opened WorkerProtocol
  import Q = QueueSpec

  // ----- What holds of every entry in every reachable state

  predicate AttemptsLeft(c: Config, job: Job) {
    0 <= job.attempts < c.maxAttempts
  }

  /** Waiting entries carry no lease, leased entries do; nothing is ready or leased before it
      is available; a live job has an attempt left. */
  predicate ReadyOk(c: Config, now: Time, job: Job) {
    job.leasedAt == 0 && job.availableAt <= now && AttemptsLeft(c, job)
  }

  predicate DelayedOk(c: Config, job: Job) {
    job.leasedAt == 0 && AttemptsLeft(c, job)
  }

  predicate ProcessingOk(c: Config, now: Time, job: Job) {
    0 < job.leasedAt <= now && job.availableAt <= job.leasedAt && AttemptsLeft(c, job)
  }

  /** A dead letter records the attempts of its job: the maximum, unless nothing handles it. */
  predicate DeadOk(c: Config, d: DeadLetter) {
    && d.finalAttempt == d.job.attempts
    && (d.finalAttempt == c.maxAttempts || (d.reason == NO_HANDLER && AttemptsLeft(c, d.job)))
  }

  predicate PhaseOk(c: Config, p: Phase) {
    p.Idle? || AttemptsLeft(c, p.job)
  }

  /** The entry conditions of a whole queue, at a given instant. */
  ghost predicate QueueOk(c: Config, q: Q.Queue, now: Time) {
    && (forall j :: j in q.ready ==> ReadyOk(c, now, j))
    && (forall j :: j in q.delayed ==> DelayedOk(c, j))
    && (forall j :: j in q.processing ==> ProcessingOk(c, now, j))
    && (forall d :: d in q.dead ==> DeadOk(c, d))
  }

  ghost predicate WellFormed(c: Config, s: State) {
    && s.clock > 0 && QueueOk(c, s.queue, s.clock)
    && (forall w :: 0 <= w < |s.workers| ==> PhaseOk(c, s.workers[w]))
  }

  lemma PromoteMembers(q: Q.Queue, limit: int, now: Time)
    ensures var q' := Q.PromoteDue(q, limit, now);
            && (forall j :: j in q'.ready ==> j in q.ready || (j in q.delayed && Q.Due(now).Picks(j)))
            && (forall j :: j in q'.delayed ==> j in q.delayed)
  {
    forall j {
      Q.MembersOfPass(Q.Due(now), q.delayed, EffectiveLimit(limit), j);
    }
  }

  lemma ReclaimMembers(q: Q.Queue, staleAfter: Time, limit: int, now: Time)
    ensures var q' := Q.ReclaimStale(q, staleAfter, limit, now);
            var sel := Q.Stale(now - Q.EffectiveStaleAfter(staleAfter));
            && (forall j :: j in q'.ready ==>
                  j in q.ready || exists o :: o in q.processing && sel.Picks(o) && j == Q.Release(o, now))
            && (forall j :: j in q'.processing ==> j in q.processing)
  {
    var sel := Q.Stale(now - Q.EffectiveStaleAfter(staleAfter));
    var taken := Q.Taken(sel, q.processing, EffectiveLimit(limit));
    forall j {
      Q.MembersOfPass(sel, q.processing, EffectiveLimit(limit), j);
    }
    forall j | j in Q.ReleaseAll(taken, now)
      ensures exists o :: o in q.processing && sel.Picks(o) && j == Q.Release(o, now)
    {
      var i :| 0 <= i < |taken| && j == Q.Release(taken[i], now);
      assert taken[i] in q.processing;
    }
  }

  lemma PromoteKeepsQueueOk(c: Config, q: Q.Queue, limit: int, now: Time)
    requires QueueOk(c, q, now) && now > 0
    ensures QueueOk(c, Q.PromoteDue(q, limit, now), now)
  {
    PromoteMembers(q, limit, now);
  }

  lemma ReclaimKeepsQueueOk(c: Config, q: Q.Queue, staleAfter: Time, limit: int, now: Time)
    requires QueueOk(c, q, now) && now > 0
    ensures QueueOk(c, Q.ReclaimStale(q, staleAfter, limit, now), now)
  {
    ReclaimMembers(q, staleAfter, limit, now);
  }

  lemma SettleKeepsQueueOk(c: Config, q: Q.Queue, p: Phase, deadId: string, now: Time)
    requires ValidConfig(c) && QueueOk(c, q, now) && (p.Failing? || p.Unhandled?) && PhaseOk(c, p)
    ensures QueueOk(c, SettleQueue(c, q, p, deadId, now), now)
  {
    var q' := SettleQueue(c, q, p, deadId, now);
    assert forall j :: j in q'.delayed ==> j in q.delayed || j == q'.delayed[|q'.delayed| - 1];
    assert forall d :: d in q'.dead ==> d in q.dead || d == q'.dead[0];
  }

  lemma AckKeepsQueueOk(c: Config, q: Q.Queue, job: Job, now: Time)
    requires QueueOk(c, q, now)
    ensures QueueOk(c, Q.Ack(q, job), now)
  {
    var i := Q.AckIndex(q.processing, job);
    if i >= 0 {
      assert forall j :: j in Q.RemoveAt(q.processing, i) ==> j in q.processing;
    }
  }

  lemma ReplayKeepsQueueOk(c: Config, q: Q.Queue, deadId: string, now: Time)
    requires ValidConfig(c) && QueueOk(c, q, now)
    ensures QueueOk(c, Q.ReplayDeadLetter(q, deadId, now), now)
  {
    var i := Q.FindDead(q.dead, deadId);
    if i >= 0 {
      assert forall d :: d in Q.RemoveAt(q.dead, i) ==> d in q.dead;
    }
  }

  lemma SubmitKeepsQueueOk(c: Config, s: State, m: Move)
    requires ValidConfig(c) && Enabled(s, m) && QueueOk(c, s.queue, m.now) && m.step.Submit?
    ensures QueueOk(c, Apply(c, s, m).queue, m.now)
  {
    var q' := Apply(c, s, m).queue;
    assert forall j :: j in q'.ready ==> j in s.queue.ready || j == q'.ready[|q'.ready| - 1];
    assert forall j :: j in q'.delayed ==> j in s.queue.delayed || j == q'.delayed[|q'.delayed| - 1];
  }

  lemma LeaseKeepsWellFormed(c: Config, s: State, m: Move)
    requires ValidConfig(c) && Enabled(s, m) && WellFormed(c, s) && m.step.Lease?
    ensures WellFormed(c, Apply(c, s, m))
  {
    PromoteKeepsQueueOk(c, s.queue, Q.DEQUEUE_PROMOTE_LIMIT, m.now);
    var q := Q.Polled(s.queue, m.now);
    if q.ready != [] {
      assert q.ready[0] in q.ready;
      assert forall j :: j in q.ready[1..] ==> j in q.ready;
    }
  }

  lemma StepKeepsWellFormed(c: Config, s: State, m: Move)
    requires ValidConfig(c) && Enabled(s, m) && WellFormed(c, s)
    ensures WellFormed(c, Apply(c, s, m))
  {
    assert QueueOk(c, s.queue, m.now);
    match m.step
    case Lease(_) => LeaseKeepsWellFormed(c, s, m);
    case Submit(_, _, _) => SubmitKeepsQueueOk(c, s, m);
    case Settle(w, deadId) => SettleKeepsQueueOk(c, s.queue, s.workers[w], deadId, m.now);
    case Ack(w) => AckKeepsQueueOk(c, s.queue, s.workers[w].job, m.now);
    case Promote(limit) => PromoteKeepsQueueOk(c, s.queue, limit, m.now);
    case Reclaim(staleAfter, limit) => ReclaimKeepsQueueOk(c, s.queue, staleAfter, limit, m.now);
    case Replay(deadId) => ReplayKeepsQueueOk(c, s.queue, deadId, m.now);
    case _ =>
  }

  /** In every state of every run the entry conditions hold; in particular every live job has
      an attempt left and every exhausted dead letter has used them all. */
  lemma {:induction false} EntriesAreWellFormed(c: Config, states: seq<State>, moves: seq<Move>, i: nat)
    requires IsRun(c, states, moves) && i < |states|
    ensures WellFormed(c, states[i])
  {
    if i > 0 {
      EntriesAreWellFormed(c, states, moves, i - 1);
      assert Linked(c, states[i - 1], moves[i - 1], states[i]);
      StepKeepsWellFormed(c, states[i - 1], moves[i - 1]);
    }
  }

  // ----- No delivery before a bound

  /** No entry of the job can be handed out before the bound: it is leased and the lease is not
      stale before then, or it is delayed until then. */
  ghost predicate Blocked(s: State, id: string, bound: Time, staleAfter: Time) {
    && (forall j :: j in s.queue.ready ==> j.id != id)
    && (forall j :: j in s.queue.processing && j.id == id ==> j.leasedAt != 0 && j.leasedAt + staleAfter >= bound)
    && (forall j :: j in s.queue.delayed && j.id == id ==> j.availableAt != 0 && j.availableAt >= bound)
  }

  /** The moves that may bring the job back sooner: a new submission, a replay, a retry that
      becomes available earlier, or a reclaim with a shorter lease. */
  predicate Feeds(c: Config, s: State, m: Move, id: string, bound: Time, staleAfter: Time) {
    Enabled(s, m) && match m.step
    case Submit(i, _, _) => i == id
    case Replay(deadId) =>
      var i := Q.FindDead(s.queue.dead, deadId);
      i >= 0 && s.queue.dead[i].job.id == id
    case Settle(w, _) =>
      && s.workers[w].job.id == id && s.workers[w].Failing? && !Exhausted(c, s.workers[w].job)
      && m.now + RetryDelay(c.backoff, s.workers[w].job.attempts + 1) < bound
    case Reclaim(stale, _) => Q.EffectiveStaleAfter(stale) < staleAfter
    case _ => false
  }

  /** Whether the move hands out an entry of the job. */
  predicate HandsOut(s: State, m: Move, id: string) {
    Enabled(s, m) && m.step.Lease? && var q := Q.Polled(s.queue, m.now); q.ready != [] && q.ready[0].id == id
  }

  lemma StepKeepsBlocked(c: Config, s: State, m: Move, id: string, bound: Time, staleAfter: Time)
    requires ValidConfig(c) && Enabled(s, m) && WellFormed(c, s)
    requires Blocked(s, id, bound, staleAfter) && !Feeds(c, s, m, id, bound, staleAfter)
    requires m.now < bound
    ensures Blocked(Apply(c, s, m), id, bound, staleAfter) && !HandsOut(s, m, id)
  {
    match m.step
    case Lease(w) =>
      PromoteMembers(s.queue, Q.DEQUEUE_PROMOTE_LIMIT, m.now);
      var q := Q.Polled(s.queue, m.now);
      if q.ready != [] {
        assert q.ready[0] in q.ready;
      }
    case Settle(w, _) =>
      RetryDelayIsMonotoneAndBounded(c.backoff, 0, s.workers[w].job.attempts + 1);
    case Promote(limit) => PromoteMembers(s.queue, limit, m.now);
    case Reclaim(stale, limit) => ReclaimMembers(s.queue, stale, limit, m.now);
    case _ =>
  }

  /** The job is not fed between moves k and n of the run. */
  ghost predicate Unfed(c: Config, states: seq<State>, moves: seq<Move>, k: nat, n: nat,
                        id: string, bound: Time, staleAfter: Time)
    requires IsRun(c, states, moves) && n <= |moves|
  {
    forall i :: k <= i < n ==> !Feeds(c, states[i], moves[i], id, bound, staleAfter)
  }

  lemma {:induction false} BlockedUntilBound(c: Config, states: seq<State>, moves: seq<Move>, k: nat, n: nat,
                                             id: string, bound: Time, staleAfter: Time)
    requires IsRun(c, states, moves) && k <= n <= |moves|
    requires Blocked(states[k], id, bound, staleAfter)
    requires Unfed(c, states, moves, k, n, id, bound, staleAfter)
    ensures Blocked(states[n], id, bound, staleAfter) || states[n].clock >= bound
  {
    if k < n {
      BlockedUntilBound(c, states, moves, k, n - 1, id, bound, staleAfter);
      assert Linked(c, states[n - 1], moves[n - 1], states[n]);
      if moves[n - 1].now < bound {
        EntriesAreWellFormed(c, states, moves, n - 1);
        StepKeepsBlocked(c, states[n - 1], moves[n - 1], id, bound, staleAfter);
      }
    }
  }

  /** A blocked job is not handed out before its bound, whatever the workers, promotion,
      reclaim and crashes do meanwhile, unless something feeds it. */
  lemma NoDeliveryBeforeBound(c: Config, states: seq<State>, moves: seq<Move>, k: nat, n: nat,
                              id: string, bound: Time, staleAfter: Time)
    requires IsRun(c, states, moves) && k <= n < |moves|
    requires Blocked(states[k], id, bound, staleAfter)
    requires Unfed(c, states, moves, k, n, id, bound, staleAfter)
    requires HandsOut(states[n], moves[n], id)
    ensures moves[n].now >= bound
  {
    BlockedUntilBound(c, states, moves, k, n, id, bound, staleAfter);
    if moves[n].now < bound {
      EntriesAreWellFormed(c, states, moves, n);
      StepKeepsBlocked(c, states[n], moves[n], id, bound, staleAfter);
    }
  }

  lemma TwoEntries(jobs: seq<Job>, id: string, a: nat, b: nat)
    requires a < b < |jobs| && jobs[a].id == jobs[b].id == id
    ensures Q.Count(jobs, id) >= 2
  {
    var front, back := jobs[..b], jobs[b..];
    assert jobs == front + back && front[a].id == id && back[0].id == id;
    Q.CountConcat(front, back, id);
    Q.CountPositive(front, id);
    Q.CountPositive(back, id);
  }

  lemma LeaseBlocks(c: Config, s: State, m: Move, id: string, staleAfter: Time)
    requires HandsOut(s, m, id) && Q.Total(s.queue, id) == 1
    ensures Blocked(Apply(c, s, m), id, m.now + staleAfter, staleAfter)
  {
    var q := Apply(c, s, m).queue;
    TotalAfter(c, s, m, id);
    var leased := q.processing[|q.processing| - 1];
    OnlyEntry(q, id, leased);
  }

  lemma RetryBlocks(c: Config, s: State, m: Move, job: Job, bound: Time, staleAfter: Time)
    requires ValidConfig(c) && Enabled(s, m) && WellFormed(c, s) && m.step.Settle?
    requires s.workers[m.step.w].Failing? && s.workers[m.step.w].job == job && !Exhausted(c, job)
    requires Q.Total(s.queue, job.id) == 1 && job in s.queue.processing
    requires bound <= m.now + RetryDelay(c.backoff, job.attempts + 1)
    requires bound <= job.leasedAt + staleAfter
    ensures Blocked(Apply(c, s, m), job.id, bound, staleAfter)
  {
    OnlyEntry(s.queue, job.id, job);
    RetryDelayIsMonotoneAndBounded(c.backoff, 0, job.attempts + 1);
  }

  /** Leases are exclusive: once the only entry of a job has been leased, the job is not handed
      out again for staleAfter, unless something feeds it. */
  lemma LeaseIsExclusive(c: Config, states: seq<State>, moves: seq<Move>, k: nat, n: nat,
                         id: string, staleAfter: Time)
    requires IsRun(c, states, moves) && k < n < |moves|
    requires HandsOut(states[k], moves[k], id)
    requires Q.Total(states[k].queue, id) == 1
    requires Unfed(c, states, moves, k + 1, n, id, moves[k].now + staleAfter, staleAfter)
    requires HandsOut(states[n], moves[n], id)
    ensures moves[n].now >= moves[k].now + staleAfter
  {
    assert Linked(c, states[k], moves[k], states[k + 1]);
    LeaseBlocks(c, states[k], moves[k], id, staleAfter);
    NoDeliveryBeforeBound(c, states, moves, k + 1, n, id, moves[k].now + staleAfter, staleAfter);
  }

  lemma OnlyEntry(q: Q.Queue, id: string, job: Job)
    requires Q.Total(q, id) == 1 && job in q.processing && job.id == id
    ensures forall j :: j in q.ready || j in q.delayed ==> j.id != id
    ensures forall j :: j in q.processing && j.id == id ==> j == job
  {
    var a :| 0 <= a < |q.processing| && q.processing[a] == job;
    Q.CountPositive(q.processing, id);
    Q.CountPositive(q.ready, id);
    Q.CountPositive(q.delayed, id);
    forall j | j in q.processing && j.id == id
      ensures j == job
    {
      var b :| 0 <= b < |q.processing| && q.processing[b] == j;
      if a < b {
        TwoEntries(q.processing, id, a, b);
      } else if b < a {
        TwoEntries(q.processing, id, b, a);
      }
    }
  }

  /** A failed job waits out its backoff: when the holder of its only entry puts it back, the
      job is not handed out again for RetryDelay of its new attempt count (nor, should the
      holder crash before its ack, before that lease is stale), unless something feeds it. */
  lemma RetryWaitsForBackoff(c: Config, states: seq<State>, moves: seq<Move>, k: nat, n: nat,
                             job: Job, bound: Time, staleAfter: Time)
    requires IsRun(c, states, moves) && k < n < |moves|
    requires moves[k].step.Settle? && Linked(c, states[k], moves[k], states[k + 1])
    requires states[k].workers[moves[k].step.w].Failing? && states[k].workers[moves[k].step.w].job == job
    requires !Exhausted(c, job)
    requires Q.Total(states[k].queue, job.id) == 1 && job in states[k].queue.processing
    requires bound <= moves[k].now + RetryDelay(c.backoff, job.attempts + 1)
    requires bound <= job.leasedAt + staleAfter
    requires Unfed(c, states, moves, k + 1, n, job.id, bound, staleAfter)
    requires HandsOut(states[n], moves[n], job.id)
    ensures moves[n].now >= bound
  {
    EntriesAreWellFormed(c, states, moves, k);
    RetryBlocks(c, states[k], moves[k], job, bound, staleAfter);
    NoDeliveryBeforeBound(c, states, moves, k + 1, n, job.id, bound, staleAfter);
  }
}
