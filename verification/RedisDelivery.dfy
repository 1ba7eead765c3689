/** How early the Redis queue may hand out a delayed job: scores are whole milliseconds, so a
    promotion can be early, by less than one millisecond. */
module RedisDelivery {
  import opened Domain
  import opened RedisProtocol
  import W = WorkerProtocol

  predicate Soon(job: Job, now: Time) {
    job.availableAt < now + MILLISECOND
  }

  predicate WorkerPrompt(p: Worker, now: Time) {
    match p
    case Popped(job) => Soon(job, now)
    case Pushed(_, leased) => Soon(leased, leased.leasedAt)
    case Holding(job) => Soon(job, job.leasedAt)
    case _ => true
  }

  predicate MoverPrompt(p: Mover, now: Time) {
    && (p.carried.Some? ==> Soon(p.carried.value, now))
    && (p.task.Promoting? ==> forall j :: j in p.task.batch ==> Soon(j, now))
  }

  ghost predicate Prompt(s: State) {
    && (forall j :: j in s.server.ready ==> Soon(j, s.clock))
    && (forall w :: 0 <= w < |s.workers| ==> WorkerPrompt(s.workers[w], s.clock))
    && (forall v :: 0 <= v < |s.movers| ==> MoverPrompt(s.movers[v], s.clock))
  }

  lemma MilliOrder(a: Time, b: Time)
    requires UnixMilli(a) <= UnixMilli(b)
    ensures a < b + MILLISECOND
  {
  }

  lemma CarryKeepsPrompt(c: Config, s: State, m: Move)
    requires Enabled(s, m) && Prompt(s) && m.step.ByMover?
    ensures Prompt(Apply(c, s, m))
  {
    var p, p' := s.movers[m.step.v], Apply(c, s, m).movers[m.step.v];
    match m.step.action
    case ScanDue(batch) =>
      forall j | j in batch
        ensures Soon(j, m.now)
      {
        MilliOrder(j.availableAt, m.now);
      }
    case TakeDue =>
      if p.task.batch != [] {
        assert p.task.batch[0] in p.task.batch;
        assert forall j :: j in p.task.batch[1..] ==> j in p.task.batch;
      }
    case _ =>
  }

  lemma WorkKeepsPrompt(c: Config, s: State, m: Move)
    requires Enabled(s, m) && Prompt(s) && m.step.ByWorker?
    ensures Prompt(Apply(c, s, m))
  {
    var w, s' := m.step.w, Apply(c, s, m);
    assert s'.movers == s.movers;
    assert forall u :: 0 <= u < |s.workers| && u != w ==> s'.workers[u] == s.workers[u];
    PhaseStaysPrompt(c, s, m);
    if m.step.work.Pop? {
      assert forall j :: j in s'.server.ready ==> j in s.server.ready;
    } else {
      assert s'.server.ready == s.server.ready;
    }
  }

  lemma PhaseStaysPrompt(c: Config, s: State, m: Move)
    requires Enabled(s, m) && Prompt(s) && m.step.ByWorker?
    ensures WorkerPrompt(Apply(c, s, m).workers[m.step.w], m.now)
  {
    var p := s.workers[m.step.w];
    assert WorkerPrompt(p, s.clock);
    if m.step.work.Pop? {
      assert s.server.ready[|s.server.ready| - 1] in s.server.ready;
    }
  }

  lemma SubmitKeepsPrompt(c: Config, s: State, m: Move)
    requires Enabled(s, m) && Prompt(s) && (m.step.Submit? || m.step.SubmitAfter?)
    ensures Prompt(Apply(c, s, m))
  {
    var s' := Apply(c, s, m);
    assert s'.movers == s.movers && s'.workers == s.workers;
    assert forall j :: j in s'.server.ready ==> j in s.server.ready || j.availableAt == m.now;
  }

  lemma StepKeepsPrompt(c: Config, s: State, m: Move)
    requires Enabled(s, m) && Prompt(s)
    ensures Prompt(Apply(c, s, m))
  {
    match m.step
    case ByMover(_, _) => CarryKeepsPrompt(c, s, m);
    case ByWorker(_, _) => WorkKeepsPrompt(c, s, m);
    case _ => SubmitKeepsPrompt(c, s, m);
  }

  /** In every run, a worker never holds a job under a lease taken a millisecond or more before
      the job was available. */
  lemma {:induction false} EarlyByLessThanAMillisecond(c: Config, states: seq<State>, moves: seq<Move>, i: nat, w: nat)
    requires IsRun(c, states, moves) && i < |states| && w < |states[i].workers|
    ensures Prompt(states[i])
    ensures states[i].workers[w].Holding? ==>
              states[i].workers[w].job.availableAt < states[i].workers[w].job.leasedAt + MILLISECOND
  {
    if i > 0 {
      assert Linked(c, states[i - 1], moves[i - 1], states[i]);
      EarlyByLessThanAMillisecond(c, states, moves, i - 1, w);
      StepKeepsPrompt(c, states[i - 1], moves[i - 1]);
    }
    assert WorkerPrompt(states[i].workers[w], states[i].clock);
  }

  // ----- When it is early

  /** A scan returns a job ahead of its time exactly if the clock has entered the job's millisecond
      but not reached its instant. */
  lemma EarlyExactlyWithinTheMillisecond(job: Job, now: Time)
    ensures DueBatch([job], [job], now) && now < job.availableAt <==>
            UnixMilli(now) == UnixMilli(job.availableAt) && now < job.availableAt
  {
    assert DueBatch([job], [job], now) <==> UnixMilli(job.availableAt) <= UnixMilli(now) by {
      assert [job][0] in [job];
    }
  }

  /** A job delayed to half a millisecond, and the states on its way to a worker. */
  function EarlyState(name: JobName, k: nat): State {
    var job := NewJob("a", name, 1).(availableAt := 500_001);
    var leased, none := job.(leasedAt := 6), Server([], [], [], []);
    var base := State(none, [Idle], [Mover(Resting, None)], {"a"}, {}, multiset{}, k);
    match k
    case 0 => base.(known := {})
    case 1 => base.(server := none.(delayed := [job]))
    case 2 => base.(server := none.(delayed := [job]), movers := [Mover(Promoting([job]), None)])
    case 3 => base.(movers := [Mover(Promoting([]), Some(job))])
    case 4 => base.(server := none.(ready := [job]), movers := [Mover(Promoting([]), None)])
    case 5 => base.(server := none.(processing := [job]), movers := [Mover(Promoting([]), None)],
                    workers := [Popped(job)])
    case 6 => base.(server := none.(processing := [leased, job]), movers := [Mover(Promoting([]), None)],
                    workers := [Pushed(job, leased)])
    case _ => base.(server := none.(processing := [leased]), movers := [Mover(Promoting([]), None)],
                    workers := [Holding(leased)])
  }

  function EarlyMove(name: JobName, k: nat): Move {
    match k
    case 0 => Move(SubmitAfter("a", name, 500_000), 1)
    case 1 => Move(ByMover(0, ScanDue([NewJob("a", name, 1).(availableAt := 500_001)])), 2)
    case 2 => Move(ByMover(0, TakeDue), 3)
    case 3 => Move(ByMover(0, Deliver), 4)
    case 4 => Move(ByWorker(0, Pop), 5)
    case 5 => Move(ByWorker(0, PushLease), 6)
    case _ => Move(ByWorker(0, RemoveOriginal), 7)
  }

  lemma EarlyBegins(c: Config, name: JobName, k: nat)
    requires k < 4
    ensures Linked(c, EarlyState(name, k), EarlyMove(name, k), EarlyState(name, k + 1))
  {
    var s, s' := EarlyState(name, k), EarlyState(name, k + 1);
    if k == 1 {
      EarlyExactlyWithinTheMillisecond(s.server.delayed[0], 2);
      assert s.movers[0 := Mover(Promoting(s.server.delayed), None)] == s'.movers;
    } else if k == 2 {
      OneElement(s.server.delayed[0]);
      assert s.movers[0 := s'.movers[0]] == s'.movers;
    }
  }

  lemma EarlyEnds(c: Config, name: JobName, k: nat)
    requires 4 <= k < 7
    ensures Linked(c, EarlyState(name, k), EarlyMove(name, k), EarlyState(name, k + 1))
  {
    var s, s' := EarlyState(name, k), EarlyState(name, k + 1);
    if k == 4 {
      assert s.server.ready[..0] == [] && s.workers[0 := Popped(s.server.ready[0])] == s'.workers;
    } else if k == 5 {
      assert [s'.workers[0].leased] + s.server.processing == s'.server.processing;
    } else {
      var p := s.server.processing;
      assert Find(p[..1], p[1]) < 0 && Find(p, p[1]) == 1;
      assert LRem(p, p[1]) == s'.server.processing;
    }
  }

  /** And it happens: a run in which a worker holds a job under a lease ahead of its availability. */
  lemma DeliveryCanBeEarly(c: Config, name: JobName) returns (states: seq<State>, moves: seq<Move>)
    requires W.ValidConfig(c)
    ensures IsRun(c, states, moves)
    ensures var s := states[|moves|];
            |s.workers| > 0 && s.workers[0].Holding? && s.workers[0].job.leasedAt < s.workers[0].job.availableAt
  {
    states := seq(8, k requires 0 <= k => EarlyState(name, k));
    moves := seq(7, k requires 0 <= k => EarlyMove(name, k));
    forall k | 0 <= k < 7
      ensures Linked(c, states[k], moves[k], states[k + 1])
    {
      if k < 4 {
        EarlyBegins(c, name, k);
      } else {
        EarlyEnds(c, name, k);
      }
    }
  }
}
