/** What becomes of one queue entry, however many others its job has: a lease stays where it is
    until an ack takes it or it is stale, and a delayed entry until it is due. */
module Leases {
  import opened Domain
  import opened Backoff
  import opened WorkerProtocol
  import Q = QueueSpec

  /** How many such entries the list has. */
  ghost function Copies(jobs: seq<Job>, e: Job): nat {
    multiset(jobs)[e]
  }

  lemma {:induction false} UnpickedAreKept(sel: Q.Selector, jobs: seq<Job>, limit: nat, e: Job)
    requires !sel.Picks(e)
    ensures Copies(Q.Kept(sel, jobs, limit), e) == Copies(jobs, e)
  {
    if jobs != [] {
      var n := |jobs| - 1;
      UnpickedAreKept(sel, jobs[..n], limit, e);
      assert jobs == jobs[..n] + [jobs[n]];
    }
  }

  lemma OthersAreKept(jobs: seq<Job>, i: nat, e: Job)
    requires i < |jobs| && jobs[i] != e
    ensures Copies(Q.RemoveAt(jobs, i), e) == Copies(jobs, e)
  {
    assert jobs == jobs[..i] + [jobs[i]] + jobs[i + 1..];
  }

  /** The move takes such a lease out of the processing list by acknowledging it. */
  predicate Acks(s: State, m: Move, e: Job) {
    && Enabled(s, m) && m.step.Ack?
    && var i := Q.AckIndex(s.queue.processing, s.workers[m.step.w].job);
       i >= 0 && s.queue.processing[i] == e
  }

  /** The move is a reclaim for which the lease is stale. */
  predicate Expires(m: Move, e: Job) {
    m.step.Reclaim? && e.leasedAt + Q.EffectiveStaleAfter(m.step.staleAfter) <= m.now
  }

  /** A lease is only ever ended by an ack that takes it or a reclaim for which it is stale. */
  lemma StepKeepsLease(c: Config, s: State, m: Move, e: Job)
    requires Enabled(s, m) && e.leasedAt != 0 && !Acks(s, m, e) && !Expires(m, e)
    ensures Copies(Apply(c, s, m).queue.processing, e) >= Copies(s.queue.processing, e)
  {
    match m.step
    case Lease(_) =>
      var q := Q.Polled(s.queue, m.now);
      if q.ready != [] {
        assert multiset(q.processing + [q.ready[0].(leasedAt := m.now)]) ==
               multiset(q.processing) + multiset{q.ready[0].(leasedAt := m.now)};
      }
    case Ack(w) =>
      var i := Q.AckIndex(s.queue.processing, s.workers[w].job);
      if i >= 0 {
        OthersAreKept(s.queue.processing, i, e);
      }
    case Reclaim(stale, limit) =>
      UnpickedAreKept(Q.Stale(m.now - Q.EffectiveStaleAfter(stale)), s.queue.processing, EffectiveLimit(limit), e);
    case _ =>
  }

  /** A delayed entry stays delayed until it is due. */
  lemma StepKeepsDelayed(c: Config, s: State, m: Move, e: Job)
    requires Enabled(s, m) && m.now < e.availableAt
    ensures Copies(Apply(c, s, m).queue.delayed, e) >= Copies(s.queue.delayed, e)
  {
    match m.step
    case Submit(_, _, _) => GrowsByOne(s.queue.delayed, Apply(c, s, m).queue.delayed, e);
    case Settle(_, _) => GrowsByOne(s.queue.delayed, Apply(c, s, m).queue.delayed, e);
    case Lease(_) => UnpickedAreKept(Q.Due(m.now), s.queue.delayed, EffectiveLimit(Q.DEQUEUE_PROMOTE_LIMIT), e);
    case Promote(limit) => UnpickedAreKept(Q.Due(m.now), s.queue.delayed, EffectiveLimit(limit), e);
    case _ =>
  }

  lemma GrowsByOne(jobs: seq<Job>, jobs': seq<Job>, e: Job)
    requires jobs' == jobs || (|jobs'| == |jobs| + 1 && jobs' == jobs + [jobs'[|jobs|]])
    ensures Copies(jobs', e) >= Copies(jobs, e)
  {
    if jobs' != jobs {
      assert multiset(jobs') == multiset(jobs) + multiset{jobs'[|jobs|]};
    }
  }

  /** Every lease stands: from any state on, no copy of it leaves the processing list before an ack
      takes it or a reclaim comes staleAfter or more after it was taken. So the entry is not
      handed out again meanwhile, whatever other entries the job has. */
  lemma {:induction false} LeaseStands(c: Config, states: seq<State>, moves: seq<Move>, k: nat, n: nat, e: Job)
    requires IsRun(c, states, moves) && k <= n <= |moves| && e.leasedAt != 0
    requires forall i :: k <= i < n ==> !Acks(states[i], moves[i], e) && !Expires(moves[i], e)
    ensures Copies(states[n].queue.processing, e) >= Copies(states[k].queue.processing, e)
  {
    if k < n {
      LeaseStands(c, states, moves, k, n - 1, e);
      var s, m, s' := states[n - 1], moves[n - 1], states[n];
      assert Linked(c, s, m, s');
      StepKeepsLease(c, s, m, e);
    }
  }

  /** Every delay is waited out: no copy of a delayed entry leaves the delayed list before the
      clock reaches its availability. */
  lemma {:induction false} DelayStands(c: Config, states: seq<State>, moves: seq<Move>, k: nat, n: nat, e: Job)
    requires IsRun(c, states, moves) && k <= n <= |moves|
    requires forall i :: k <= i < n ==> moves[i].now < e.availableAt
    ensures Copies(states[n].queue.delayed, e) >= Copies(states[k].queue.delayed, e)
  {
    if k < n {
      DelayStands(c, states, moves, k, n - 1, e);
      var s, m, s' := states[n - 1], moves[n - 1], states[n];
      assert Linked(c, s, m, s');
      StepKeepsDelayed(c, s, m, e);
    }
  }

  /** The entry a failed job is put back as. */
  function RetryEntry(c: Config, job: Job, cause: string, now: Time): Job {
    Retried(job, cause).(leasedAt := 0, createdAt := Q.OrNow(job.createdAt, now),
                         availableAt := now + RetryDelay(c.backoff, job.attempts + 1))
  }

  /** A failed job with attempts left is put back, and that entry then waits out the backoff of its
      new attempt count, whatever other entries the job has. */
  lemma RetryIsDelayed(c: Config, states: seq<State>, moves: seq<Move>, k: nat, n: nat)
    requires IsRun(c, states, moves) && k < n <= |moves| && moves[k].step.Settle?
    requires moves[k].step.w < |states[k].workers|
    requires var p := states[k].workers[moves[k].step.w]; p.Failing? && !Exhausted(c, p.job)
    requires var p := states[k].workers[moves[k].step.w];
             forall i :: k < i < n ==> moves[i].now < moves[k].now + RetryDelay(c.backoff, p.job.attempts + 1)
    ensures var p := states[k].workers[moves[k].step.w];
            Copies(states[n].queue.delayed, RetryEntry(c, p.job, p.cause, moves[k].now)) >= 1
  {
    var s, m, s' := states[k], moves[k], states[k + 1];
    assert Linked(c, s, m, s');
    var p := s.workers[m.step.w];
    var e := RetryEntry(c, p.job, p.cause, m.now);
    assert s'.queue.delayed[|s.queue.delayed|] == e;
    assert e in multiset(s'.queue.delayed);
    DelayStands(c, states, moves, k + 1, n, e);
  }
}
