/** What an ack takes: its own lease, or another one of the same job, or nothing; exactly when, and
    what it leaves behind. */
module Acknowledgement {
  import opened Backoff
  import opened Delivery
  import opened Domain
  import opened Leases
  import opened WorkerProtocol
  import Q = QueueSpec

  // ----- Its own lease or another

  /** The move takes away an entry of the worker's job that is not the worker's lease. */
  ghost predicate TakesAnotherLease(c: Config, s: State, m: Move)
    requires Enabled(s, m) && m.step.Ack?
  {
    var job := s.workers[m.step.w].job;
    exists e :: Loses(s.queue.processing, Apply(c, s, m).queue.processing, e) && e.id == job.id && e != job
  }

  /** The move takes away the worker's own lease. */
  ghost predicate TakesItsOwnLease(c: Config, s: State, m: Move)
    requires Enabled(s, m) && m.step.Ack?
  {
    Loses(s.queue.processing, Apply(c, s, m).queue.processing, s.workers[m.step.w].job)
  }

  /** One copy of the entry is gone. */
  ghost predicate Loses(before: seq<Job>, after: seq<Job>, e: Job) {
    Copies(after, e) == Copies(before, e) - 1
  }

  lemma RemovedIsLost(jobs: seq<Job>, i: nat, e: Job)
    requires i < |jobs|
    ensures Loses(jobs, Q.RemoveAt(jobs, i), e) <==> jobs[i] == e
  {
    if jobs[i] == e {
      assert jobs == jobs[..i] + [e] + jobs[i + 1..];
    } else {
      OthersAreKept(jobs, i, e);
    }
  }

  /** An ack looks for the first entry of its job with the instant of its lease, and failing that for
      the first entry of its job. It takes another lease exactly if that entry is not its own, and its
      own exactly if it is. */
  lemma AckTakesAnotherLease(c: Config, s: State, m: Move)
    requires Enabled(s, m) && m.step.Ack?
    ensures var job, p := s.workers[m.step.w].job, s.queue.processing;
            var i := Q.AckIndex(p, job);
            && (TakesAnotherLease(c, s, m) <==> i >= 0 && p[i] != job)
            && (TakesItsOwnLease(c, s, m) <==> i >= 0 && p[i] == job)
  {
    var job, before := s.workers[m.step.w].job, s.queue.processing;
    var i := Q.AckIndex(before, job);
    if i >= 0 {
      RemovedIsLost(before, i, before[i]);
      RemovedIsLost(before, i, job);
      forall e | Loses(before, Apply(c, s, m).queue.processing, e)
        ensures e == before[i]
      {
        RemovedIsLost(before, i, e);
      }
    }
  }

  /** The worker takes no part in the moves between: it neither acks nor crashes. */
  ghost predicate Busy(moves: seq<Move>, w: nat, k: nat, n: nat)
    requires n <= |moves|
  {
    forall i :: k <= i < n ==> moves[i].step != Ack(w) && moves[i].step != Crash(w)
  }

  lemma {:induction false} JobStaysHeld(c: Config, states: seq<State>, moves: seq<Move>, w: nat, k: nat, n: nat)
    requires IsRun(c, states, moves) && k <= n <= |moves| && Busy(moves, w, k, n)
    requires w < |states[k].workers| && !states[k].workers[w].Idle?
    ensures w < |states[n].workers| && !states[n].workers[w].Idle?
    ensures states[n].workers[w].job == states[k].workers[w].job
  {
    if k < n {
      JobStaysHeld(c, states, moves, w, k, n - 1);
      var s, m, s' := states[n - 1], moves[n - 1], states[n];
      assert Linked(c, s, m, s');
    }
  }

  // ----- Leases of different instants

  /** Leases are taken at different instants. */
  ghost predicate DifferentInstants(jobs: seq<Job>) {
    forall a, b :: 0 <= a < b < |jobs| ==> jobs[a].leasedAt != jobs[b].leasedAt
  }

  lemma {:induction false} KeptInstants(sel: Q.Selector, jobs: seq<Job>, limit: nat)
    requires DifferentInstants(jobs)
    ensures DifferentInstants(Q.Kept(sel, jobs, limit))
  {
    if jobs != [] {
      var n := |jobs| - 1;
      KeptInstants(sel, jobs[..n], limit);
      var k := Q.Kept(sel, jobs[..n], limit);
      forall a | 0 <= a < |k|
        ensures k[a].leasedAt != jobs[n].leasedAt
      {
        assert k[a] in k;
        Q.MembersOfPass(sel, jobs[..n], limit, k[a]);
      }
    }
  }

  /** Every Lease move of the run reads a later clock than any move before it. */
  ghost predicate LeasesTick(states: seq<State>, moves: seq<Move>)
    requires |states| == |moves| + 1
  {
    forall i :: 0 <= i < |moves| && moves[i].step.Lease? ==> states[i].clock < moves[i].now
  }

  lemma StepKeepsInstants(c: Config, s: State, m: Move)
    requires Enabled(s, m) && WellFormed(c, s) && DifferentInstants(s.queue.processing)
    requires m.step.Lease? ==> s.clock < m.now
    ensures DifferentInstants(Apply(c, s, m).queue.processing)
  {
    var p := s.queue.processing;
    match m.step
    case Lease(_) =>
      forall a | 0 <= a < |p|
        ensures p[a].leasedAt != m.now
      {
        assert p[a] in p;
      }
    case Reclaim(stale, limit) => KeptInstants(Q.Stale(m.now - Q.EffectiveStaleAfter(stale)), p, EffectiveLimit(limit));
    case Ack(w) => RemovedInstants(p, Q.AckIndex(p, s.workers[w].job));
    case _ =>
  }

  lemma RemovedInstants(jobs: seq<Job>, i: int)
    requires DifferentInstants(jobs) && i < |jobs|
    ensures i >= 0 ==> DifferentInstants(Q.RemoveAt(jobs, i))
  {
  }

  lemma {:induction false} InstantsDiffer(c: Config, states: seq<State>, moves: seq<Move>, n: nat)
    requires IsRun(c, states, moves) && LeasesTick(states, moves) && n <= |moves|
    ensures DifferentInstants(states[n].queue.processing)
  {
    if n > 0 {
      InstantsDiffer(c, states, moves, n - 1);
      EntriesAreWellFormed(c, states, moves, n - 1);
      var s, m, s' := states[n - 1], moves[n - 1], states[n];
      assert Linked(c, s, m, s');
      StepKeepsInstants(c, s, m);
    }
  }

  /** With leases of different instants an ack takes exactly the worker's own lease, unless since the
      worker leased the job another ack took that lease or a reclaim found it stale. */
  lemma AckTakesItsOwnLease(c: Config, states: seq<State>, moves: seq<Move>, w: nat, k: nat, n: nat)
    requires IsRun(c, states, moves) && LeasesTick(states, moves) && k < n < |moves|
    requires moves[k].step == Lease(w) && w < |states[k + 1].workers| && !states[k + 1].workers[w].Idle?
    requires moves[n].step == Ack(w) && Busy(moves, w, k + 1, n)
    requires var job := states[k + 1].workers[w].job;
             forall i :: k < i < n ==> !Acks(states[i], moves[i], job) && !Expires(moves[i], job)
    ensures Enabled(states[n], moves[n])
    ensures TakesItsOwnLease(c, states[n], moves[n]) && !TakesAnotherLease(c, states[n], moves[n])
  {
    var s, m, s' := states[k], moves[k], states[k + 1];
    assert Linked(c, s, m, s') && Linked(c, states[n], moves[n], states[n + 1]);
    var job := s'.workers[w].job;
    LeaseIsWritten(c, s, m);
    LeaseStands(c, states, moves, k + 1, n, job);
    JobStaysHeld(c, states, moves, w, k + 1, n);
    InstantsDiffer(c, states, moves, n);
    OwnLeaseIsFound(states[n].queue.processing, job);
    AckTakesAnotherLease(c, states[n], moves[n]);
  }

  lemma OwnLeaseIsFound(p: seq<Job>, job: Job)
    requires DifferentInstants(p) && Copies(p, job) >= 1
    ensures Q.AckIndex(p, job) >= 0 && p[Q.AckIndex(p, job)] == job
  {
    assert job in multiset(p);
    var i :| 0 <= i < |p| && p[i] == job;
    assert Q.FindLease(p, job) == i;
  }

  lemma LeaseIsWritten(c: Config, s: State, m: Move)
    requires Enabled(s, m) && m.step.Lease? && !Apply(c, s, m).workers[m.step.w].Idle?
    ensures var s' := Apply(c, s, m);
            var job := s'.workers[m.step.w].job;
            job.leasedAt == m.now != 0 && Copies(s'.queue.processing, job) >= 1
  {
    var s' := Apply(c, s, m);
    var p := s'.queue.processing;
    assert p[|p| - 1] == s'.workers[m.step.w].job;
    assert p[|p| - 1] in multiset(p);
  }

  // ----- What an ack leaves behind

  /** An ack never gives a job up: its handler has succeeded, or the worker has put the job back and
      an entry of it remains after the ack. */
  lemma AckIsPaidFor(c: Config, states: seq<State>, moves: seq<Move>, n: nat)
    requires IsRun(c, states, moves) && n < |moves| && moves[n].step.Ack?
    ensures Enabled(states[n], moves[n])
    ensures var p := states[n].workers[moves[n].step.w];
            p.job.id in states[n].done || (p.Settled? && Q.Total(states[n + 1].queue, p.job.id) >= 1)
  {
    var s, m, s' := states[n], moves[n], states[n + 1];
    assert Linked(c, s, m, s');
    var w := m.step.w;
    var id := s.workers[w].job.id;
    NoJobIsLost(c, states, moves, n, id);
    assert Holds(s.workers[w], id);
    if id !in s.done {
      OwedIsCounted(s.workers, w, id);
      TotalAfter(c, s, m, id);
    }
  }

  lemma {:induction false} OwedIsCounted(ws: seq<Phase>, w: nat, id: string)
    requires w < |ws|
    ensures OwedAcks(ws, id) >= Owes(ws[w], id)
  {
    if w < |ws| - 1 {
      OwedIsCounted(ws[..|ws| - 1], w, id);
    }
  }

  // ----- Two runs in which an ack takes another worker's lease

  const RECLAIMED: Time := 2 + 10 * MINUTE

  /** Worker 0 leases the job; the lease is reclaimed when it is stale; worker 1 leases the job; worker
      0 succeeds and acks. */
  function TheftState(name: JobName, k: nat): State {
    var job := NewJob("a", name, 1).(availableAt := 1);
    var again := job.(availableAt := RECLAIMED);
    var first, second := job.(leasedAt := 2), again.(leasedAt := RECLAIMED + 1);
    var base := State(Q.EMPTY, [Idle, Idle], {"a"}, {}, if k <= 1 then 1 else if k == 2 then 2 else RECLAIMED + k - 3);
    match k
    case 0 => base.(known := {})
    case 1 => base.(queue := Q.EMPTY.(ready := [job]))
    case 2 => base.(queue := Q.EMPTY.(processing := [first]), workers := [Leased(first), Idle])
    case 3 => base.(queue := Q.EMPTY.(ready := [again]), workers := [Leased(first), Idle])
    case 4 => base.(queue := Q.EMPTY.(processing := [second]), workers := [Leased(first), Leased(second)])
    case 5 => base.(queue := Q.EMPTY.(processing := [second]), workers := [Succeeded(first), Leased(second)],
                    done := {"a"})
    case _ => base.(workers := [Idle, Leased(second)], done := {"a"})
  }

  function TheftMove(name: JobName, k: nat): Move {
    match k
    case 0 => Move(Submit("a", name, None), 1)
    case 1 => Move(Lease(0), 2)
    case 2 => Move(Reclaim(10 * MINUTE, 100), RECLAIMED)
    case 3 => Move(Lease(1), RECLAIMED + 1)
    case 4 => Move(Succeed(0), RECLAIMED + 2)
    case _ => Move(Ack(0), RECLAIMED + 3)
  }

  lemma LoneLeaseIsReclaimed(q: Q.Queue, e: Job, staleAfter: Time, limit: nat, now: Time)
    requires q.processing == [e] && staleAfter > 0 && limit > 0 && e.leasedAt + staleAfter <= now
    ensures Q.ReclaimStale(q, staleAfter, limit, now) == q.(ready := q.ready + [Q.Release(e, now)], processing := [])
  {
    var sel, jobs := Q.Stale(now - staleAfter), [e];
    assert jobs[..0] == [] && sel.Picks(jobs[0]);
    assert Q.Taken(sel, jobs[..0], limit) == [] && Q.Kept(sel, jobs[..0], limit) == [];
    assert Q.Taken(sel, jobs, limit) == [] + [jobs[0]] == jobs;
    assert Q.Kept(sel, jobs, limit) == [];
    assert Q.ReleaseAll(jobs, now) == [Q.Release(e, now)];
  }

  lemma TheftBegins(c: Config, name: JobName, k: nat)
    requires k < 3
    ensures Linked(c, TheftState(name, k), TheftMove(name, k), TheftState(name, k + 1))
  {
    var s, s' := TheftState(name, k), TheftState(name, k + 1);
    if k == 1 {
      assert Q.Polled(s.queue, 2) == s.queue && s.queue.ready[1..] == [];
      assert s.workers[0 := s'.workers[0]] == s'.workers;
    } else if k == 2 {
      LoneLeaseIsReclaimed(s.queue, s.queue.processing[0], 10 * MINUTE, 100, RECLAIMED);
    }
  }

  lemma TheftEnds(c: Config, name: JobName, k: nat)
    requires 3 <= k < 6
    ensures Linked(c, TheftState(name, k), TheftMove(name, k), TheftState(name, k + 1))
  {
    var s, s' := TheftState(name, k), TheftState(name, k + 1);
    if k == 3 {
      assert Q.Polled(s.queue, RECLAIMED + 1) == s.queue && s.queue.ready[1..] == [];
      assert s.workers[1 := s'.workers[1]] == s'.workers;
    } else if k == 4 {
      assert s.workers[0 := s'.workers[0]] == s'.workers;
    } else {
      var p := s.queue.processing;
      assert Q.FindLease(p, s.workers[0].job) == -1 && Q.FindId(p, "a") == 0;
      assert Q.RemoveAt(p, 0) == [] && s.workers[0 := Idle] == s'.workers;
    }
  }

  /** It happens where the lease has gone stale: a run, with leases of different instants, that ends with
      an ack taking the lease another worker still believes to hold. */
  lemma AckCanTakeAnotherLease(c: Config, name: JobName) returns (states: seq<State>, moves: seq<Move>)
    requires ValidConfig(c)
    ensures IsRun(c, states, moves) && LeasesTick(states, moves) && |moves| == 6 && moves[5].step == Ack(0)
    ensures Enabled(states[5], moves[5]) && TakesAnotherLease(c, states[5], moves[5])
    ensures |states[6].workers| == 2 && states[6].workers[1].Leased? && states[6].queue.processing == []
  {
    states, moves := TheftRun(c, name);
    Theft(c, name, states[5], moves[5], states[6]);
    TheftTicks(name, states, moves);
  }

  lemma TheftRun(c: Config, name: JobName) returns (states: seq<State>, moves: seq<Move>)
    requires ValidConfig(c)
    ensures IsRun(c, states, moves) && |moves| == 6
    ensures forall k :: 0 <= k <= 6 ==> states[k] == TheftState(name, k)
    ensures forall k :: 0 <= k < 6 ==> moves[k] == TheftMove(name, k)
  {
    states := seq(7, k requires 0 <= k => TheftState(name, k));
    moves := seq(6, k requires 0 <= k => TheftMove(name, k));
    forall k | 0 <= k < 6
      ensures Linked(c, states[k], moves[k], states[k + 1])
    {
      if k < 3 {
        TheftBegins(c, name, k);
      } else {
        TheftEnds(c, name, k);
      }
    }
  }

  lemma TheftTicks(name: JobName, states: seq<State>, moves: seq<Move>)
    requires |moves| == 6 && |states| == 7
    requires forall k :: 0 <= k <= 6 ==> states[k] == TheftState(name, k)
    requires forall k :: 0 <= k < 6 ==> moves[k] == TheftMove(name, k)
    ensures LeasesTick(states, moves)
  {
  }

  lemma Theft(c: Config, name: JobName, s: State, m: Move, s': State)
    requires s == TheftState(name, 5) && m == TheftMove(name, 5) && s' == TheftState(name, 6)
    ensures m.step == Ack(0) && Enabled(s, m) && TakesAnotherLease(c, s, m)
    ensures |s'.workers| == 2 && s'.workers[1].Leased? && s'.queue.processing == []
  {
    var p := s.queue.processing;
    assert Q.FindLease(p, s.workers[0].job) == -1 && Q.FindId(p, "a") == 0;
    AckTakesAnotherLease(c, s, m);
  }

  const LATER: Time := RECLAIMED + 3 + 30 * SECOND

  /** Worker 0's lease is reclaimed and then worker 0 fails: the job has two entries, which both workers
      lease at one instant. Worker 1 succeeds and acks. */
  function TwinState(c: Config, name: JobName, k: nat): State {
    var job := NewJob("a", name, 1).(availableAt := 1);
    var again, first := job.(availableAt := RECLAIMED), job.(leasedAt := 2);
    var retried := job.(attempts := 1, lastError := "x", availableAt := RECLAIMED + 2 + RetryDelay(c.backoff, 1));
    var mine, yours := again.(leasedAt := LATER), retried.(leasedAt := LATER);
    var both := Q.EMPTY.(ready := [again], delayed := [retried]);
    var base := State(Q.EMPTY, [Idle, Idle], {"a"}, {},
                      if k <= 1 then 1 else if k == 2 then 2 else if k <= 6 then RECLAIMED + k - 3 else LATER);
    match k
    case 0 => base.(known := {})
    case 1 => base.(queue := Q.EMPTY.(ready := [job]))
    case 2 => base.(queue := Q.EMPTY.(processing := [first]), workers := [Leased(first), Idle])
    case 3 => base.(queue := Q.EMPTY.(ready := [again]), workers := [Leased(first), Idle])
    case 4 => base.(queue := Q.EMPTY.(ready := [again]), workers := [Failing(first, "x"), Idle])
    case 5 => base.(queue := both, workers := [Settled(first), Idle])
    case 6 => base.(queue := both)
    case 7 => base.(queue := Q.EMPTY.(ready := [retried], processing := [mine]), workers := [Leased(mine), Idle])
    case 8 => base.(queue := Q.EMPTY.(processing := [mine, yours]), workers := [Leased(mine), Leased(yours)])
    case 9 => base.(queue := Q.EMPTY.(processing := [mine, yours]), workers := [Leased(mine), Succeeded(yours)],
                    done := {"a"})
    case _ => base.(queue := Q.EMPTY.(processing := [yours]), workers := [Leased(mine), Idle], done := {"a"})
  }

  function TwinMove(name: JobName, k: nat): Move {
    match k
    case 0 => Move(Submit("a", name, None), 1)
    case 1 => Move(Lease(0), 2)
    case 2 => Move(Reclaim(10 * MINUTE, 100), RECLAIMED)
    case 3 => Move(Fail(0, "x"), RECLAIMED + 1)
    case 4 => Move(Settle(0, "d"), RECLAIMED + 2)
    case 5 => Move(Ack(0), RECLAIMED + 3)
    case 6 => Move(Lease(0), LATER)
    case 7 => Move(Lease(1), LATER)
    case 8 => Move(Succeed(1), LATER)
    case _ => Move(Ack(1), LATER)
  }

  lemma TwinBegins(c: Config, name: JobName, k: nat)
    requires ValidConfig(c) && c.maxAttempts >= 2 && k < 3
    ensures Linked(c, TwinState(c, name, k), TwinMove(name, k), TwinState(c, name, k + 1))
  {
    assert TwinState(c, name, k) == TheftState(name, k) && TwinState(c, name, k + 1) == TheftState(name, k + 1);
    TheftBegins(c, name, k);
  }

  lemma TwinFails(c: Config, name: JobName, k: nat)
    requires ValidConfig(c) && c.maxAttempts >= 2 && 3 <= k < 6
    ensures Linked(c, TwinState(c, name, k), TwinMove(name, k), TwinState(c, name, k + 1))
  {
    var s, s' := TwinState(c, name, k), TwinState(c, name, k + 1);
    assert s.workers[0 := s'.workers[0]] == s'.workers;
    if k == 5 {
      assert Q.AckIndex(s.queue.processing, s.workers[0].job) == -1;
    }
  }

  lemma DueIsPromoted(q: Q.Queue, e: Job, now: Time)
    requires q.delayed == [e] && e.availableAt <= now
    ensures Q.Polled(q, now) == q.(ready := q.ready + [e], delayed := [])
  {
    var sel, jobs, limit := Q.Due(now), [e], EffectiveLimit(Q.DEQUEUE_PROMOTE_LIMIT);
    assert jobs[..0] == [] && sel.Picks(jobs[0]);
    assert Q.Taken(sel, jobs[..0], limit) == [] && Q.Kept(sel, jobs[..0], limit) == [];
    assert Q.Taken(sel, jobs, limit) == [] + [jobs[0]] == jobs;
    assert Q.Kept(sel, jobs, limit) == [];
  }

  lemma TwinLeases(c: Config, name: JobName, k: nat)
    requires ValidConfig(c) && c.maxAttempts >= 2 && 6 <= k < 8
    ensures Linked(c, TwinState(c, name, k), TwinMove(name, k), TwinState(c, name, k + 1))
  {
    var s, m, s' := TwinState(c, name, k), TwinMove(name, k), TwinState(c, name, k + 1);
    if k == 6 {
      RetryDelayIsMonotoneAndBounded(c.backoff, 0, 1);
      DueIsPromoted(s.queue, s.queue.delayed[0], LATER);
      LeaseLeads(c, s, m, s', s.queue.delayed);
    } else {
      assert Q.Polled(s.queue, LATER) == s.queue && s.queue.ready + [] == s.queue.ready;
      LeaseLeads(c, s, m, s', []);
    }
  }

  /** A lease that finds these jobs due. */
  lemma LeaseLeads(c: Config, s: State, m: Move, s': State, due: seq<Job>)
    requires Enabled(s, m) && m.step.Lease? && s.queue.ready != []
    requires Q.Polled(s.queue, m.now) == s.queue.(ready := s.queue.ready + due, delayed := [])
    requires var job := s.queue.ready[0].(leasedAt := m.now);
             && s'.workers == s.workers[m.step.w := Leased(job)] && s'.clock == m.now
             && s'.known == s.known && s'.done == s.done
             && s'.queue == Q.Queue(s.queue.ready[1..] + due, s.queue.processing + [job], [], s.queue.dead)
    ensures Linked(c, s, m, s')
  {
    assert (s.queue.ready + due)[1..] == s.queue.ready[1..] + due;
  }

  lemma TwinEnds(c: Config, name: JobName, k: nat)
    requires ValidConfig(c) && c.maxAttempts >= 2 && 8 <= k < 10
    ensures Linked(c, TwinState(c, name, k), TwinMove(name, k), TwinState(c, name, k + 1))
    ensures k == 9 ==> Q.AckIndex(TwinState(c, name, k).queue.processing, TwinState(c, name, k).workers[1].job) == 0
  {
    var s, s' := TwinState(c, name, k), TwinState(c, name, k + 1);
    assert s.workers[1 := s'.workers[1]] == s'.workers;
    if k == 9 {
      var p, job := s.queue.processing, s.workers[1].job;
      assert p[0].id == job.id && p[0].leasedAt == job.leasedAt;
      assert Q.FindLease(p, job) == 0;
      assert Q.RemoveAt(p, 0) == [p[1]];
    }
  }

  /** And it happens where two leases of the job have one instant: a run in which no lease of the second
      round is stale or taken, and yet worker 1's ack takes the lease worker 0 holds and leaves its own. */
  lemma TwinLeasesAreConfused(c: Config, name: JobName) returns (states: seq<State>, moves: seq<Move>)
    requires ValidConfig(c) && c.maxAttempts >= 2
    ensures IsRun(c, states, moves) && |moves| == 10
    ensures moves[7].step == Lease(1) && moves[8].step == Succeed(1) && moves[9].step == Ack(1)
    ensures Enabled(states[9], moves[9]) && TakesAnotherLease(c, states[9], moves[9])
    ensures |states[9].workers| == 2 && !states[9].workers[1].Idle?
    ensures |states[10].workers| == 2 && states[10].workers[0].Leased?
    ensures states[9].queue.processing == [states[10].workers[0].job, states[9].workers[1].job]
    ensures states[10].queue.processing == [states[9].workers[1].job]
  {
    states, moves := TwinRun(c, name);
    TwinTheft(c, name, states[9], moves[9], states[10]);
    TwinOutcome(name, moves[7], moves[8], moves[9]);
  }

  lemma TwinOutcome(name: JobName, lease: Move, succeed: Move, ack: Move)
    requires lease == TwinMove(name, 7) && succeed == TwinMove(name, 8) && ack == TwinMove(name, 9)
    ensures lease.step == Lease(1) && succeed.step == Succeed(1) && ack.step == Ack(1)
  {
  }

  lemma TwinRun(c: Config, name: JobName) returns (states: seq<State>, moves: seq<Move>)
    requires ValidConfig(c) && c.maxAttempts >= 2
    ensures IsRun(c, states, moves) && |moves| == 10
    ensures forall k :: 0 <= k <= 10 ==> states[k] == TwinState(c, name, k)
    ensures forall k :: 0 <= k < 10 ==> moves[k] == TwinMove(name, k)
  {
    states := seq(11, k requires 0 <= k => TwinState(c, name, k));
    moves := seq(10, k requires 0 <= k => TwinMove(name, k));
    forall k | 0 <= k < 10
      ensures Linked(c, states[k], moves[k], states[k + 1])
    {
      TwinStep(c, name, k);
    }
  }

  lemma TwinStep(c: Config, name: JobName, k: nat)
    requires ValidConfig(c) && c.maxAttempts >= 2 && k < 10
    ensures Linked(c, TwinState(c, name, k), TwinMove(name, k), TwinState(c, name, k + 1))
  {
    if k < 3 {
      TwinBegins(c, name, k);
    } else if k < 6 {
      TwinFails(c, name, k);
    } else if k < 8 {
      TwinLeases(c, name, k);
    } else {
      TwinEnds(c, name, k);
    }
  }

  lemma TwinTheft(c: Config, name: JobName, s: State, m: Move, s': State)
    requires ValidConfig(c) && c.maxAttempts >= 2
    requires s == TwinState(c, name, 9) && m == TwinMove(name, 9) && s' == TwinState(c, name, 10)
    ensures Enabled(s, m) && TakesAnotherLease(c, s, m)
    ensures |s.workers| == 2 && !s.workers[1].Idle? && |s'.workers| == 2 && s'.workers[0].Leased?
    ensures s.queue.processing == [s'.workers[0].job, s.workers[1].job]
    ensures s'.queue.processing == [s.workers[1].job]
  {
    TwinEnds(c, name, 9);
    AckTakesAnotherLease(c, s, m);
  }

  // ----- A run in which an unfinished job is acked

  function FailedState(c: Config, name: JobName, k: nat): State {
    var job := NewJob("a", name, 1).(availableAt := 1);
    var leased := job.(leasedAt := 2);
    var held, base := Q.EMPTY.(processing := [leased]), State(Q.EMPTY, [Idle], {"a"}, {}, if k == 0 then 1 else k);
    var settled := SettleQueue(c, held, Failing(leased, "x"), "d", 4);
    match k
    case 0 => base.(known := {})
    case 1 => base.(queue := Q.EMPTY.(ready := [job]))
    case 2 => base.(queue := held, workers := [Leased(leased)])
    case 3 => base.(queue := held, workers := [Failing(leased, "x")])
    case 4 => base.(queue := settled, workers := [Settled(leased)])
    case _ => base.(queue := settled.(processing := []))
  }

  function FailedMove(name: JobName, k: nat): Move {
    match k
    case 0 => Move(Submit("a", name, None), 1)
    case 1 => Move(Lease(0), 2)
    case 2 => Move(Fail(0, "x"), 3)
    case 3 => Move(Settle(0, "d"), 4)
    case _ => Move(Ack(0), 5)
  }

  lemma FailedStep(c: Config, name: JobName, k: nat)
    requires k < 5
    ensures Linked(c, FailedState(c, name, k), FailedMove(name, k), FailedState(c, name, k + 1))
  {
    var s, s' := FailedState(c, name, k), FailedState(c, name, k + 1);
    if k == 1 {
      assert Q.Polled(s.queue, 2) == s.queue && s.queue.ready[1..] == [];
    }
    if 1 <= k {
      assert s.workers[0 := s'.workers[0]] == s'.workers;
    }
    if k == 4 {
      var p := s.queue.processing;
      assert Q.FindLease(p, s.workers[0].job) == 0 && Q.RemoveAt(p, 0) == [];
    }
  }

  /** A lease is acknowledged without its job having succeeded: the job has been put back. */
  lemma UnfinishedJobsAreAcked(c: Config, name: JobName) returns (states: seq<State>, moves: seq<Move>)
    requires ValidConfig(c)
    ensures IsRun(c, states, moves) && |moves| == 5 && moves[4].step == Ack(0)
    ensures |states[4].workers| == 1 && states[4].workers[0].Settled? && states[4].workers[0].job.id == "a"
    ensures "a" in states[5].known && "a" !in states[5].done
    ensures Q.Count(states[4].queue.processing, "a") == 1 && Q.Count(states[5].queue.processing, "a") == 0
  {
    states := seq(6, k requires 0 <= k => FailedState(c, name, k));
    moves := seq(5, k requires 0 <= k => FailedMove(name, k));
    forall k | 0 <= k < 5
      ensures Linked(c, states[k], moves[k], states[k + 1])
    {
      FailedStep(c, name, k);
    }
    Q.CountOne(states[4].queue.processing[0], "a");
  }
}
