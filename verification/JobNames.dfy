/** What a job is about never changes: whatever the workers and the queue do, every entry, dead
    letter and held job keeps a name that was once submitted. */
module JobNames {
  import opened Domain
  import opened WorkerProtocol
  import Delivery
  import Q = QueueSpec

  ghost predicate AllNamed(jobs: seq<Job>, names: iset<JobName>) {
    forall j :: j in jobs ==> NameOf(j) in names
  }

  ghost predicate QueueNamed(q: Q.Queue, names: iset<JobName>) {
    && AllNamed(q.ready, names) && AllNamed(q.delayed, names) && AllNamed(q.processing, names)
    && forall d :: d in q.dead ==> NameOf(d.job) in names
  }

  ghost predicate PhaseNamed(p: Phase, names: iset<JobName>) {
    p.Idle? || NameOf(p.job) in names
  }

  /** Every job in the four lists and every job a worker holds has a name in the set. */
  ghost predicate NamesIn(s: State, names: iset<JobName>) {
    && QueueNamed(s.queue, names)
    && forall w :: 0 <= w < |s.workers| ==> PhaseNamed(s.workers[w], names)
  }

  lemma MoreNames(s: State, names: iset<JobName>, names': iset<JobName>)
    requires NamesIn(s, names) && names <= names'
    ensures NamesIn(s, names')
  {
  }


  lemma SettledNamed(c: Config, q: Q.Queue, p: Phase, deadId: string, now: Time, names: iset<JobName>)
    requires QueueNamed(q, names) && (p.Failing? || p.Unhandled?) && PhaseNamed(p, names)
    ensures QueueNamed(SettleQueue(c, q, p, deadId, now), names)
  {
    var q' := SettleQueue(c, q, p, deadId, now);
    assert NameOf(Retried(p.job, if p.Failing? then p.cause else "")) == NameOf(p.job);
    assert forall j :: j in q'.delayed ==> j in q.delayed || j == q'.delayed[|q'.delayed| - 1];
    assert forall d :: d in q'.dead ==> d in q.dead || d == q'.dead[0];
  }

  lemma AckedNamed(q: Q.Queue, job: Job, names: iset<JobName>)
    requires QueueNamed(q, names)
    ensures QueueNamed(Q.Ack(q, job), names)
  {
    var i := Q.AckIndex(q.processing, job);
    if i >= 0 {
      assert forall j :: j in Q.RemoveAt(q.processing, i) ==> j in q.processing;
    }
  }

  lemma ReplayedNamed(q: Q.Queue, deadId: string, now: Time, names: iset<JobName>)
    requires QueueNamed(q, names)
    ensures QueueNamed(Q.ReplayDeadLetter(q, deadId, now), names)
  {
    var i := Q.FindDead(q.dead, deadId);
    if i >= 0 {
      assert forall d :: d in Q.RemoveAt(q.dead, i) ==> d in q.dead;
      assert q.dead[i] in q.dead;
    }
  }

  lemma LeasedNamed(c: Config, s: State, m: Move, names: iset<JobName>)
    requires Enabled(s, m) && NamesIn(s, names) && m.step.Lease?
    ensures NamesIn(Apply(c, s, m), names)
  {
    Delivery.PromoteMembers(s.queue, Q.DEQUEUE_PROMOTE_LIMIT, m.now);
    var q := Q.Polled(s.queue, m.now);
    if q.ready != [] {
      assert q.ready[0] in q.ready;
      assert forall j :: j in q.ready[1..] ==> j in q.ready;
    }
  }

  lemma StepKeepsNames(c: Config, s: State, m: Move, names: iset<JobName>)
    requires Enabled(s, m) && NamesIn(s, names) && (m.step.Submit? ==> m.step.name in names)
    ensures NamesIn(Apply(c, s, m), names)
  {
    match m.step
    case Submit(id, name, delay) =>
      var q' := Apply(c, s, m).queue;
      assert NameOf(NewJob(id, name, m.now)) == name;
      assert forall j :: j in q'.ready ==> j in s.queue.ready || j == q'.ready[|q'.ready| - 1];
      assert forall j :: j in q'.delayed ==> j in s.queue.delayed || j == q'.delayed[|q'.delayed| - 1];
    case Lease(_) => LeasedNamed(c, s, m, names);
    case Settle(w, deadId) => SettledNamed(c, s.queue, s.workers[w], deadId, m.now, names);
    case Ack(w) => AckedNamed(s.queue, s.workers[w].job, names);
    case Promote(limit) => Delivery.PromoteMembers(s.queue, limit, m.now);
    case Reclaim(staleAfter, limit) => Delivery.ReclaimMembers(s.queue, staleAfter, limit, m.now);
    case Replay(deadId) => ReplayedNamed(s.queue, deadId, m.now, names);
    case _ =>
  }
}
