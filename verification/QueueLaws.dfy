/** The order in which jobs are handed out, and what each move leaves in the queue, entry by entry:
    over the moves of the protocol, in terms of the entries' own fields. */
module QueueLaws {
  import opened Backoff
  import opened Delivery
  import opened Domain
  import opened Leases
  import opened WorkerProtocol
  import Q = QueueSpec

  // ----- What is due and what is stale

  predicate IsDue(e: Job, now: Time) {
    e.availableAt == 0 || e.availableAt <= now
  }

  predicate IsStale(e: Job, staleAfter: Time, now: Time) {
    e.leasedAt == 0 || e.leasedAt + (if staleAfter <= 0 then 600_000_000_000 else staleAfter) <= now
  }

  function AtMostOf(limit: int): nat {
    if limit <= 0 then 100 else limit
  }

  /** What a bounded pass takes: only what is picked, the first of it first, and unless it stops at its
      limit all of it. */
  lemma {:induction false} PassTakes(sel: Q.Selector, jobs: seq<Job>, limit: nat)
    requires limit > 0
    ensures var taken := Q.Taken(sel, jobs, limit);
            && |taken| <= limit
            && (taken == [] ==> forall i :: 0 <= i < |jobs| ==> !sel.Picks(jobs[i]))
            && (taken != [] ==> exists i :: 0 <= i < |jobs| && sel.Picks(jobs[i]) && taken[0] == jobs[i]
                                            && forall k :: 0 <= k < i ==> !sel.Picks(jobs[k]))
            && (|taken| < limit ==> forall e :: e in Q.Kept(sel, jobs, limit) ==> !sel.Picks(e))
  {
    if jobs != [] {
      var n := |jobs| - 1;
      PassTakes(sel, jobs[..n], limit);
      if Q.Taken(sel, jobs[..n], limit) != [] {
        var i :| 0 <= i < n && sel.Picks(jobs[..n][i]) && Q.Taken(sel, jobs[..n], limit)[0] == jobs[..n][i]
                 && forall k :: 0 <= k < i ==> !sel.Picks(jobs[..n][k]);
        assert jobs[i] == jobs[..n][i] && forall k :: 0 <= k < i ==> jobs[k] == jobs[..n][k];
      } else {
        assert forall k :: 0 <= k < n ==> jobs[k] == jobs[..n][k];
      }
    }
  }

  // ----- Leases

  /** The worker has been handed a job by its Lease move. */
  predicate Given(s': State, m: Move) {
    m.step.Lease? && m.step.w < |s'.workers| && s'.workers[m.step.w].Leased?
  }

  /** A lease hands out the first ready job; with none ready the first delayed job that is due; and with
      none due nothing. The job is last among the leases, and the jobs behind it stay in order. */
  lemma LeaseOutcome(c: Config, s: State, m: Move)
    requires Enabled(s, m) && m.step.Lease?
    ensures var s', q := Apply(c, s, m), s.queue;
            && s.queue.dead == s'.queue.dead && (Given(s', m) || s'.workers == s.workers)
            && (Given(s', m) ==>
                  && s'.workers[m.step.w].job.leasedAt == m.now
                  && s'.queue.processing == q.processing + [s'.workers[m.step.w].job]
                  && s'.workers == s.workers[m.step.w := s'.workers[m.step.w]])
            && (q.ready != [] ==>
                  && Given(s', m) && s'.workers[m.step.w].job == q.ready[0].(leasedAt := m.now)
                  && q.ready[1..] <= s'.queue.ready)
            && (q.ready == [] && Given(s', m) ==>
                  exists i :: 0 <= i < |q.delayed| && IsDue(q.delayed[i], m.now)
                              && s'.workers[m.step.w].job == q.delayed[i].(leasedAt := m.now)
                              && forall k :: 0 <= k < i ==> !IsDue(q.delayed[k], m.now))
            && (!Given(s', m) ==> s'.queue.ready == [] && s'.queue.processing == q.processing
                                  && forall i :: 0 <= i < |q.delayed| ==> !IsDue(q.delayed[i], m.now))
            && (|s'.queue.ready| + |s'.queue.processing| < |q.ready| + |q.processing| + 100 ==>
                  forall e :: e in s'.queue.delayed ==> !IsDue(e, m.now))
  {
    var sel, limit := Q.Due(m.now), EffectiveLimit(Q.DEQUEUE_PROMOTE_LIMIT);
    PassTakes(sel, s.queue.delayed, limit);
    var taken := Q.Taken(sel, s.queue.delayed, limit);
    if s.queue.ready != [] {
      assert (s.queue.ready + taken)[1..] == s.queue.ready[1..] + taken;
    } else {
      assert [] + taken == taken;
      assert forall e :: sel.Picks(e) <==> IsDue(e, m.now);
    }
  }

  /** No move overtakes: what is ready stays ready, in order, at the front, but for the first job if the
      move hands it out. */
  lemma NoMoveOvertakes(c: Config, s: State, m: Move)
    requires Enabled(s, m)
    ensures var s' := Apply(c, s, m);
            (if Given(s', m) && s.queue.ready != [] then s.queue.ready[1..] else s.queue.ready) <= s'.queue.ready
  {
    if m.step.Lease? {
      LeaseOutcome(c, s, m);
    }
  }

  /** Nor do new entries get ahead in the other lists: delays queue up behind those that are there, */
  lemma DelaysQueueUp(c: Config, s: State, m: Move)
    requires Enabled(s, m) && !m.step.Lease? && !m.step.Promote?
    ensures s.queue.delayed <= Apply(c, s, m).queue.delayed
  {
  }

  /** so do leases, */
  lemma LeasesQueueUp(c: Config, s: State, m: Move)
    requires Enabled(s, m) && !m.step.Ack? && !m.step.Reclaim?
    ensures s.queue.processing <= Apply(c, s, m).queue.processing
  {
    if m.step.Lease? {
      LeaseOutcome(c, s, m);
    }
  }

  /** and dead letters are kept with the latest first. */
  lemma DeadLettersPileUp(c: Config, s: State, m: Move)
    requires Enabled(s, m) && !m.step.Replay?
    ensures var dead, dead' := s.queue.dead, Apply(c, s, m).queue.dead;
            |dead| <= |dead'| && dead'[|dead'| - |dead|..] == dead
  {
  }

  // ----- First in, first out

  /** The job a move hands out, as it was before its lease. */
  function HandedOut(s': State, m: Move): seq<Job> {
    if Given(s', m) then [s'.workers[m.step.w].job.(leasedAt := 0)] else []
  }

  /** The jobs handed out by the moves k to n - 1, in order. */
  function HandOuts(states: seq<State>, moves: seq<Move>, k: nat, n: nat): seq<Job>
    requires k <= n <= |moves| < |states|
  {
    if n == k then [] else HandOuts(states, moves, k, n - 1) + HandedOut(states[n], moves[n - 1])
  }

  /** The hand-outs follow the ready list: those that are left of it are still first in line. */
  ghost predicate InOrder(ready: seq<Job>, handed: seq<Job>, now: seq<Job>) {
    if |handed| <= |ready| then handed == ready[..|handed|] && ready[|handed|..] <= now
    else ready == handed[..|ready|]
  }

  lemma FirstOfTheRest(ready: seq<Job>, handed: seq<Job>, now: seq<Job>, later: seq<Job>, job: Job)
    requires InOrder(ready, handed, now) && |handed| < |ready| && job == now[0] && now[1..] <= later
    ensures InOrder(ready, handed + [job], later)
  {
    var n, left := |handed|, ready[|handed|..];
    assert now[0] == left[0] == ready[n];
    assert ready[..n + 1] == ready[..n] + [ready[n]];
    assert ready[n + 1..] == left[1..] && left[1..] <= now[1..];
  }

  lemma NoneOfTheRest(ready: seq<Job>, handed: seq<Job>, now: seq<Job>, later: seq<Job>, job: Job)
    requires InOrder(ready, handed, now) && |handed| >= |ready|
    ensures InOrder(ready, handed + [job], later)
  {
    assert (handed + [job])[..|ready|] == handed[..|ready|];
  }

  lemma HandOutKeepsOrder(c: Config, s: State, m: Move, ready: seq<Job>, handed: seq<Job>)
    requires Enabled(s, m) && WellFormed(c, s) && InOrder(ready, handed, s.queue.ready)
    ensures var s' := Apply(c, s, m); InOrder(ready, handed + HandedOut(s', m), s'.queue.ready)
  {
    var s' := Apply(c, s, m);
    NoMoveOvertakes(c, s, m);
    if !Given(s', m) {
      assert handed + HandedOut(s', m) == handed;
    } else if |handed| < |ready| {
      LeaseOutcome(c, s, m);
      assert s.queue.ready[0] in s.queue.ready;
      FirstOfTheRest(ready, handed, s.queue.ready, s'.queue.ready, s.queue.ready[0]);
    } else {
      NoneOfTheRest(ready, handed, s.queue.ready, s'.queue.ready, HandedOut(s', m)[0]);
    }
  }

  /** First in, first out: from any state of any run on, whatever is submitted, promoted, reclaimed,
      replayed, retried or acknowledged meanwhile, the ready jobs are handed out in their order, and
      nothing that comes later is handed out before them. */
  lemma {:induction false} FirstInFirstOut(c: Config, states: seq<State>, moves: seq<Move>, k: nat, n: nat)
    requires IsRun(c, states, moves) && k <= n <= |moves|
    ensures InOrder(states[k].queue.ready, HandOuts(states, moves, k, n), states[n].queue.ready)
    decreases n
  {
    if k < n {
      FirstInFirstOut(c, states, moves, k, n - 1);
      EntriesAreWellFormed(c, states, moves, n - 1);
      var s, m, s' := states[n - 1], moves[n - 1], states[n];
      assert Linked(c, s, m, s');
      HandOutKeepsOrder(c, s, m, states[k].queue.ready, HandOuts(states, moves, k, n - 1));
    }
  }

  // ----- What the queue's calls leave behind, for any job

  /** The times of a job, where it has them, and otherwise the present. */
  predicate TimeFilled(t: Time, t': Time, now: Time) {
    t' == if t != 0 then t else now
  }

  /** An enqueued job loses its lease, keeps or gets its times, and is the last ready; a delayed one is the last
      delayed; a dead letter is the first, with its failure time. Everything else stays. */
  lemma CallOutcomes(q: Q.Queue, job: Job, delay: Time, item: DeadLetter, now: Time)
    ensures var q', n := Q.Enqueue(q, job, now), |q.ready|;
            && |q'.ready| == n + 1 && q'.ready[..n] == q.ready && q' == q.(ready := q'.ready)
            && TimeFilled(job.createdAt, q'.ready[n].createdAt, now)
            && TimeFilled(job.availableAt, q'.ready[n].availableAt, now)
            && q'.ready[n] == job.(leasedAt := 0, createdAt := q'.ready[n].createdAt,
                                   availableAt := q'.ready[n].availableAt)
    ensures var q', n := Q.EnqueueAfter(q, job, delay, now), |q.delayed|;
            && |q'.delayed| == n + 1 && q'.delayed[..n] == q.delayed && q' == q.(delayed := q'.delayed)
            && TimeFilled(job.createdAt, q'.delayed[n].createdAt, now)
            && q'.delayed[n] == job.(leasedAt := 0, createdAt := q'.delayed[n].createdAt, availableAt := now + delay)
    ensures var q' := Q.AddDead(q, item, now);
            && |q'.dead| == |q.dead| + 1 && q'.dead[1..] == q.dead && q' == q.(dead := q'.dead)
            && TimeFilled(item.failedAt, q'.dead[0].failedAt, now)
            && q'.dead[0] == item.(failedAt := q'.dead[0].failedAt)
  {
  }

  // ----- What moves leave behind

  /** A submission puts a new job at the end: of the ready list, available at once, or of the delayed
      list, available after its delay. */
  lemma SubmitOutcome(c: Config, s: State, m: Move)
    requires Enabled(s, m) && m.step.Submit?
    ensures var q, q', n := s.queue, Apply(c, s, m).queue, m.step.name;
            var job := Job(m.step.id, n.kind, n.tenantId, n.appId, n.deploymentId, 0, m.now, m.now, 0, "");
            q' == if m.step.delay.Some?
                  then q.(delayed := q.delayed + [job.(availableAt := m.now + m.step.delay.value)])
                  else q.(ready := q.ready + [job])
  {
  }

  /** A failed job has one attempt more and its error on record. With attempts left it is delayed by the
      backoff of that attempt; without, it is the latest dead letter. */
  lemma FailureOutcome(c: Config, s: State, m: Move)
    requires Enabled(s, m) && m.step.Settle? && s.workers[m.step.w].Failing?
    ensures var p, q, q' := s.workers[m.step.w], s.queue, Apply(c, s, m).queue;
            var tried := p.job.(attempts := p.job.attempts + 1, lastError := p.cause);
            if tried.attempts < c.maxAttempts then
              var created := if p.job.createdAt == 0 then m.now else p.job.createdAt;
              q' == q.(delayed := q.delayed + [tried.(leasedAt := 0, createdAt := created,
                                                      availableAt := m.now + RetryDelay(c.backoff, tried.attempts))])
            else
              q' == q.(dead := [DeadLetter(m.step.deadId, tried, p.cause, m.now, tried.attempts)] + q.dead)
  {
  }

  /** A job nothing handles is the latest dead letter, as it was leased. */
  lemma UnhandledOutcome(c: Config, s: State, m: Move)
    requires Enabled(s, m) && m.step.Settle? && s.workers[m.step.w].Unhandled?
    ensures var job, q, q' := s.workers[m.step.w].job, s.queue, Apply(c, s, m).queue;
            q' == q.(dead := [DeadLetter(m.step.deadId, job, "no handler registered", m.now, job.attempts)] + q.dead)
  {
  }

  /** Running, ending and crashing leave the queue alone. */
  lemma QuietOutcome(c: Config, s: State, m: Move)
    requires Enabled(s, m) && (m.step.Succeed? || m.step.Fail? || m.step.NoHandler? || m.step.Crash?)
    ensures Apply(c, s, m).queue == s.queue
  {
  }

  /** Promotion makes due jobs ready, behind those that are, and changes none. It takes nothing that is
      not due, and leaves something due only at its limit (a hundred by default). */
  lemma PromoteOutcome(c: Config, s: State, m: Move)
    requires Enabled(s, m) && m.step.Promote?
    ensures var q, q' := s.queue, Apply(c, s, m).queue;
            var more := |q'.ready| - |q.ready|;
            && 0 <= more <= AtMostOf(m.step.limit) && q'.processing == q.processing && q'.dead == q.dead
            && (forall i :: |q.ready| <= i < |q'.ready| ==> q'.ready[i] in q.delayed && IsDue(q'.ready[i], m.now))
            && (forall e :: e in q'.delayed ==> e in q.delayed)
            && (forall e :: e in q.delayed && !IsDue(e, m.now) ==> Copies(q'.delayed, e) == Copies(q.delayed, e))
            && (more < AtMostOf(m.step.limit) ==> forall e :: e in q'.delayed ==> !IsDue(e, m.now))
  {
    var sel, limit := Q.Due(m.now), EffectiveLimit(m.step.limit);
    PassTakes(sel, s.queue.delayed, limit);
    forall e {
      Q.MembersOfPass(sel, s.queue.delayed, limit, e);
    }
    forall e | !sel.Picks(e)
      ensures Copies(Q.Kept(sel, s.queue.delayed, limit), e) == Copies(s.queue.delayed, e)
    {
      UnpickedAreKept(sel, s.queue.delayed, limit, e);
    }
    var taken := Q.Taken(sel, s.queue.delayed, limit);
    assert forall i :: 0 <= i < |taken| ==> taken[i] in taken;
  }

  /** Reclaim makes the jobs of stale leases ready, behind those that are, each as it was but for its lease
      and its availability. It takes nothing that is not stale (after ten minutes by default), and no more
      than its limit (a hundred by default). */
  lemma ReclaimOutcome(c: Config, s: State, m: Move)
    requires Enabled(s, m) && m.step.Reclaim?
    ensures var q, q', stale := s.queue, Apply(c, s, m).queue, m.step.staleAfter;
            && |q.ready| <= |q'.ready| <= |q.ready| + AtMostOf(m.step.limit)
            && q'.delayed == q.delayed && q'.dead == q.dead
            && (forall i :: |q.ready| <= i < |q'.ready| ==>
                  exists o :: o in q.processing && IsStale(o, stale, m.now)
                              && q'.ready[i] == o.(leasedAt := 0, availableAt := m.now))
  {
    var sel, limit := Q.Stale(m.now - Q.EffectiveStaleAfter(m.step.staleAfter)), EffectiveLimit(m.step.limit);
    PassTakes(sel, s.queue.processing, limit);
    var taken := Q.Taken(sel, s.queue.processing, limit);
    forall i | 0 <= i < |taken|
      ensures taken[i] in s.queue.processing && IsStale(taken[i], m.step.staleAfter, m.now)
    {
      Q.MembersOfPass(sel, s.queue.processing, limit, taken[i]);
      assert taken[i] in taken;
    }
  }

  /** Leases that are not stale stay, and stale ones are left only at the limit. */
  lemma ReclaimLeaves(c: Config, s: State, m: Move)
    requires Enabled(s, m) && m.step.Reclaim?
    ensures var q, q', stale := s.queue, Apply(c, s, m).queue, m.step.staleAfter;
            && (forall e :: e in q'.processing ==> e in q.processing)
            && (forall e :: e in q.processing && !IsStale(e, stale, m.now) ==>
                  Copies(q'.processing, e) == Copies(q.processing, e))
            && (|q'.ready| - |q.ready| < AtMostOf(m.step.limit) ==>
                  forall e :: e in q'.processing ==> !IsStale(e, stale, m.now))
  {
    var sel, limit := Q.Stale(m.now - Q.EffectiveStaleAfter(m.step.staleAfter)), EffectiveLimit(m.step.limit);
    PassTakes(sel, s.queue.processing, limit);
    forall e
      ensures e in Q.Kept(sel, s.queue.processing, limit) ==> e in s.queue.processing
    {
      Q.MembersOfPass(sel, s.queue.processing, limit, e);
    }
    forall e | !IsStale(e, m.step.staleAfter, m.now)
      ensures Copies(Q.Kept(sel, s.queue.processing, limit), e) == Copies(s.queue.processing, e)
    {
      UnpickedAreKept(sel, s.queue.processing, limit, e);
    }
  }

  /** A replay revives the first dead letter of that id: its job starts afresh at the end of the ready
      list. Without one nothing changes. */
  lemma ReplayOutcome(c: Config, s: State, m: Move) returns (i: int)
    requires Enabled(s, m) && m.step.Replay?
    ensures -1 <= i < |s.queue.dead|
    ensures forall k :: 0 <= k < (if i < 0 then |s.queue.dead| else i) ==> s.queue.dead[k].id != m.step.deadId
    ensures i < 0 ==> Apply(c, s, m).queue == s.queue
    ensures i >= 0 ==>
              var q, q', d := s.queue, Apply(c, s, m).queue, s.queue.dead[i];
              && d.id == m.step.deadId && q'.dead == q.dead[..i] + q.dead[i + 1..]
              && q'.ready == q.ready + [d.job.(attempts := 0, lastError := "", leasedAt := 0, availableAt := m.now)]
              && q'.delayed == q.delayed && q'.processing == q.processing
  {
    i := Q.FindDead(s.queue.dead, m.step.deadId);
  }
}
