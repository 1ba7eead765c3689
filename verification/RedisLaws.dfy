/** What each command of the Redis queue does to the lists on the server, field by field. */
module RedisLaws {
  import opened Domain
  import opened Backoff
  import opened RedisProtocol
  import opened RedisMovers

  // ----- Submissions

  /** A new job goes on top of the ready list, or into the delayed set with its time. */
  lemma SubmitOutcome(c: Config, s: State, m: Move)
    requires Enabled(s, m) && (m.step.Submit? || m.step.SubmitAfter?)
    ensures var v, v', name := s.server, Apply(c, s, m).server, m.step.name;
            var job := Job(m.step.id, name.kind, name.tenantId, name.appId, name.deploymentId, 0, m.now, m.now, 0, "");
            && v'.processing == v.processing && v'.dead == v.dead
            && (m.step.Submit? ==> v'.ready == v.ready + [job] && v'.delayed == v.delayed)
            && (m.step.SubmitAfter? ==>
                  v'.ready == v.ready && Joins(v.delayed, v'.delayed, job.(availableAt := m.now + m.step.delay)))
  {
    if m.step.SubmitAfter? {
      ZAddJoins(s.server.delayed, NewJob(m.step.id, m.step.name, m.now).(availableAt := m.now + m.step.delay));
    }
  }

  /** A set gains a member, once. */
  ghost predicate Joins(set0: seq<Job>, set1: seq<Job>, job: Job) {
    && (forall j :: j in set1 <==> j in set0 || j == job)
    && (job in set0 ==> set1 == set0)
    && (job !in set0 ==> multiset(set1) == multiset(set0) + multiset{job})
  }

  lemma ZAddJoins(items: seq<Job>, job: Job)
    ensures Joins(items, ZAdd(items, job), job)
  {
  }

  // ----- Workers

  /** A worker takes the top of the ready list; the lease it writes then is the job with the instant, on top
      of the processing list, and takes the place of the job without it. */
  lemma LeaseOutcome(c: Config, s: State, m: Move)
    requires Enabled(s, m) && m.step.ByWorker?
    ensures var v, v', p, p' := s.server, Apply(c, s, m).server, s.workers[m.step.w], Apply(c, s, m).workers[m.step.w];
            && (m.step.work.Pop? ==>
                  && p'.Popped? && v.ready == v'.ready + [p'.job] && v'.processing == [p'.job] + v.processing
                  && v'.delayed == v.delayed && v'.dead == v.dead)
            && (m.step.work.PushLease? && p.job.leasedAt != m.now ==>
                  p' == Pushed(p.job, p.job.(leasedAt := m.now))
                  && v' == v.(processing := [p.job.(leasedAt := m.now)] + v.processing))
            && (m.step.work.PushLease? && p.job.leasedAt == m.now ==> p' == Holding(p.job) && v' == v)
            && (m.step.work.RemoveOriginal? ==>
                  p' == Holding(p.leased) && v' == v.(processing := v'.processing)
                  && Loses(v.processing, v'.processing, p.job))
  {
    if m.step.work.RemoveOriginal? {
      LRemLoses(s.server.processing, s.workers[m.step.w].job);
    }
  }

  /** A list loses one occurrence, if it has one. */
  ghost predicate Loses<T>(list0: seq<T>, list1: seq<T>, x: T) {
    multiset(list1) == multiset(list0) - multiset{x}
  }

  lemma LRemLoses<T>(items: seq<T>, x: T)
    ensures Loses(items, LRem(items, x), x)
  {
    if x in items {
      LRemTakesOne(items, x);
    } else {
      assert multiset(items)[x] == 0;
    }
  }

  /** A failed job has one attempt more. With attempts left it will be delayed by the backoff of that attempt,
      without a lease; without, it will be a dead letter. A job nobody handles will be one as it is. */
  lemma FailureOutcome(c: Config, s: State, m: Move)
    requires Enabled(s, m) && m.step.ByWorker? && s.workers[m.step.w].Holding?
    ensures var job, p' := s.workers[m.step.w].job, Apply(c, s, m).workers[m.step.w];
            && Apply(c, s, m).server == s.server
            && (m.step.work.Succeed? ==> p' == Acking(job, false))
            && (m.step.work.NoHandler? ==>
                  p' == Burying(job, DeadLetter(m.step.work.deadId, job, "no handler registered", m.now, job.attempts),
                                false))
            && (m.step.work.Fail? ==>
                  var n, cause := job.attempts + 1, m.step.work.cause;
                  if n < c.maxAttempts then
                    && p'.Requeueing? && p'.job == job
                    && p'.payload == job.(attempts := n, lastError := cause, leasedAt := 0,
                                          createdAt := if job.createdAt == 0 then m.now else job.createdAt,
                                          availableAt := m.now + RetryDelay(c.backoff, n))
                  else
                    p' == Burying(job, DeadLetter(m.step.work.deadId, job.(attempts := n, lastError := cause), cause,
                                                  m.now, n), true))
  {
  }

  /** Then the retry joins the delayed set, the dead letter goes on top of its list, and last the lease is
      taken out of the processing list. */
  lemma SettleOutcome(c: Config, s: State, m: Move)
    requires Enabled(s, m) && m.step.ByWorker?
    ensures var v, v', p, p' := s.server, Apply(c, s, m).server, s.workers[m.step.w], Apply(c, s, m).workers[m.step.w];
            && (m.step.work.Requeue? ==>
                  p' == Acking(p.job, true) && v' == v.(delayed := v'.delayed)
                  && Joins(v.delayed, v'.delayed, p.payload))
            && (m.step.work.Bury? ==> p' == Acking(p.job, true) && v' == v.(dead := [p.item] + v.dead))
            && (m.step.work.AckLease? ==>
                  p' == Idle && v' == v.(processing := v'.processing) && Loses(v.processing, v'.processing, p.job))
  {
    match m.step.work
    case Requeue => ZAddJoins(s.server.delayed, s.workers[m.step.w].payload);
    case AckLease => LRemLoses(s.server.processing, s.workers[m.step.w].job);
    case _ =>
  }

  // ----- Movers

  /** A reclaim scans the top of the processing list only: the leases written last. */
  lemma ScanOutcome(c: Config, s: State, m: Move)
    requires Enabled(s, m) && m.step.ByMover? && m.step.action.ScanStale?
    ensures var task, limit := Apply(c, s, m).movers[m.step.v].task, m.step.action.limit;
            && Apply(c, s, m).server == s.server && task.Reclaiming?
            && task.cutoff == m.now - m.step.action.staleAfter
            && task.batch <= s.server.processing
            && |task.batch| == if limit < |s.server.processing| then limit else |s.server.processing|
  {
  }

  /** A promotion carries the next entry of its scan if it is still there, as it is; a reclaim carries it
      without its lease and available now; a replay carries the job of its dead letter, as if it had never
      run. */
  lemma TakeOutcome(c: Config, s: State, m: Move)
    requires Enabled(s, m) && m.step.ByMover?
    requires m.step.action.TakeDue? || m.step.action.TakeStale? ==> s.movers[m.step.v].task.batch != []
    ensures var v, v', p, p' := s.server, Apply(c, s, m).server, s.movers[m.step.v], Apply(c, s, m).movers[m.step.v];
            && (m.step.action.TakeDue? ==>
                  var job := p.task.batch[0];
                  && p'.carried == (if job in v.delayed then Some(job) else None)
                  && v' == v.(delayed := v'.delayed) && Loses(v.delayed, v'.delayed, job))
            && (m.step.action.TakeStale? ==>
                  var job := p.task.batch[0];
                  var stale := job in v.processing && (job.leasedAt == 0 || job.leasedAt <= p.task.cutoff);
                  && p'.carried == (if stale then Some(job.(leasedAt := 0, availableAt := m.now)) else None)
                  && v' == v.(processing := v'.processing)
                  && (if stale then Loses(v.processing, v'.processing, job) else v' == v))
            && (m.step.action.TakeDead? ==>
                  && v' == v.(dead := v'.dead) && Loses(v.dead, v'.dead, p.task.item)
                  && p'.carried == Some(p.task.item.job.(attempts := 0, lastError := "", leasedAt := 0,
                                                      availableAt := m.now)))
  {
    var v, p := s.server, s.movers[m.step.v];
    match m.step.action
    case TakeDue => LRemLoses(v.delayed, p.task.batch[0]);
    case TakeStale => LRemLoses(v.processing, p.task.batch[0]);
    case TakeDead => LRemLoses(v.dead, p.task.item);
    case _ =>
  }

  /** What a mover carries goes on top of the ready list. */
  lemma DeliverOutcome(c: Config, s: State, m: Move)
    requires Enabled(s, m) && m.step.ByMover? && m.step.action.Deliver?
    ensures var v, p, p' := s.server, s.movers[m.step.v], Apply(c, s, m).movers[m.step.v];
            p'.carried == None && p'.task == p.task
            && Apply(c, s, m).server == v.(ready := v.ready + [p.carried.value])
  {
  }
}
