/** The Redis queue at the granularity of single server commands. A payload is the job it
    encodes (the codec is injective). Workers dequeue, retry and ack in several commands;
    movers promote, reclaim and replay in several commands; any of them may die between any
    two, and all of them interleave freely. */
module RedisProtocol {
  import opened Domain
  import opened Backoff
  import Q = QueueSpec
  import W = WorkerProtocol

  type Config = W.Config

  /** The lists on the server; delayed is a sorted set, so it holds a payload at most once. */
  datatype Server = Server(
    ready: seq<Job>, processing: seq<Job>, delayed: seq<Job>, dead: seq<DeadLetter>)

  datatype Worker =
    | Idle
    | Popped(job: Job)                       // BRPOPLPUSH done, lease not written
    | Pushed(job: Job, leased: Job)          // lease written, LREM of the original to come
    | Holding(job: Job)                      // Dequeue returned
    | Requeueing(job: Job, payload: Job)     // ZADD of the retry to come
    | Burying(job: Job, item: DeadLetter, handled: bool)  // LPUSH to the dead list to come
    | Acking(job: Job, settled: bool)        // LREM of the lease to come

  datatype Task =
    | Resting
    | Promoting(batch: seq<Job>)
    | Reclaiming(batch: seq<Job>, cutoff: Time)
    | Replaying(item: DeadLetter)

  /** A mover has a task, and may carry a payload it has removed and not yet pushed. */
  datatype Mover = Mover(task: Task, carried: Option<Job>)

  /** dropped counts, per job, the payloads that died with a mover or whose dead-lettering
      failed before an unconditional ack. */
  datatype State = State(
    server: Server, workers: seq<Worker>, movers: seq<Mover>,
    known: set<string>, done: set<string>, dropped: multiset<string>, clock: Time)

  datatype WorkerAct =
    | Pop
    | PushLease
    | RemoveOriginal
    | Succeed
    | Fail(cause: string, deadId: string)
    | NoHandler(deadId: string)
    | Requeue
    | Bury
    | BuryFails
    | AckLease
    | CrashWorker

  datatype MoverAct =
    | ScanDue(batch: seq<Job>)
    | TakeDue
    | ScanStale(limit: nat, staleAfter: Time)
    | TakeStale
    | ScanDead(item: DeadLetter)
    | TakeDead
    | Deliver
    | CrashMover

  datatype Step =
    | Submit(id: string, name: JobName)
    | SubmitAfter(id: string, name: JobName, delay: Time)
    | ByWorker(w: nat, work: WorkerAct)
    | ByMover(v: nat, action: MoverAct)

  datatype Move = Move(step: Step, now: Time)

  // ----- Server commands

  function Find<T(==)>(items: seq<T>, x: T): (i: int)
    ensures -1 <= i < |items|
    ensures i >= 0 ==> items[i] == x
    ensures i < 0 ==> x !in items
  {
    if items == [] then -1 else
      var n := |items| - 1;
      var f := Find(items[..n], x);
      if f >= 0 then f else if items[n] == x then n else -1
  }

  /** LREM key 1 x: removes one occurrence, if there is one. */
  function LRem<T(==)>(items: seq<T>, x: T): seq<T> {
    if Find(items, x) < 0 then items else Q.RemoveAt(items, Find(items, x))
  }

  /** ZADD: a payload that is already a member adds nothing. */
  function ZAdd(items: seq<Job>, x: Job): seq<Job> {
    if x in items then items else items + [x]
  }

  function UnixMilli(t: Time): int {
    t / MILLISECOND
  }

  /** Members that ZRANGEBYSCORE -inf now may return. */
  predicate DueBatch(delayed: seq<Job>, batch: seq<Job>, now: Time) {
    forall i :: 0 <= i < |batch| ==>
      batch[i] in delayed && UnixMilli(batch[i].availableAt) <= UnixMilli(now)
  }

  // ----- Steps

  predicate CanWork(server: Server, p: Worker, work: WorkerAct) {
    match work
    case Pop => p.Idle? && server.ready != []
    case PushLease => p.Popped?
    case RemoveOriginal => p.Pushed?
    case Succeed => p.Holding?
    case Fail(_, _) => p.Holding?
    case NoHandler(_) => p.Holding?
    case Requeue => p.Requeueing?
    case Bury => p.Burying?
    case BuryFails => p.Burying? && !p.handled
    case AckLease => p.Acking?
    case CrashWorker => true
  }

  predicate CanMove(server: Server, p: Mover, action: MoverAct, now: Time) {
    match action
    case ScanDue(batch) => p == Mover(Resting, None) && DueBatch(server.delayed, batch, now)
    case TakeDue => p.task.Promoting? && p.carried == None
    case ScanStale(_, _) => p == Mover(Resting, None)
    case TakeStale => p.task.Reclaiming? && p.carried == None
    case ScanDead(item) => p == Mover(Resting, None) && item in server.dead
    case TakeDead => p.task.Replaying? && p.carried == None
    case Deliver => p.carried.Some?
    case CrashMover => true
  }

  predicate Enabled(s: State, m: Move) {
    && s.clock <= m.now && 0 < m.now
    && match m.step
       case Submit(id, _) => id !in s.known
       case SubmitAfter(id, _, _) => id !in s.known
       case ByWorker(w, work) => w < |s.workers| && CanWork(s.server, s.workers[w], work)
       case ByMover(v, action) => v < |s.movers| && CanMove(s.server, s.movers[v], action, m.now)
  }

  function AfterFail(c: Config, job: Job, cause: string, deadId: string, now: Time): Worker {
    var retried := job.(attempts := job.attempts + 1, lastError := cause);
    if retried.attempts >= c.maxAttempts then
      Burying(job, DeadLetter(deadId, retried, cause, now, retried.attempts), true)
    else
      Requeueing(job, retried.(leasedAt := 0, createdAt := Q.OrNow(job.createdAt, now),
                               availableAt := now + RetryDelay(c.backoff, retried.attempts)))
  }

  /** What a worker's next command does to the server and to the worker. */
  function Work(c: Config, v: Server, p: Worker, work: WorkerAct, now: Time): (Server, Worker)
    requires CanWork(v, p, work)
  {
    match work
    case Pop =>
      var n := |v.ready| - 1;
      (v.(ready := v.ready[..n], processing := [v.ready[n]] + v.processing), Popped(v.ready[n]))
    case PushLease =>
      var leased := p.job.(leasedAt := now);
      if leased == p.job then (v, Holding(leased))
      else (v.(processing := [leased] + v.processing), Pushed(p.job, leased))
    case RemoveOriginal => (v.(processing := LRem(v.processing, p.job)), Holding(p.leased))
    case Succeed => (v, Acking(p.job, false))
    case Fail(cause, deadId) => (v, AfterFail(c, p.job, cause, deadId, now))
    case NoHandler(deadId) =>
      (v, Burying(p.job, DeadLetter(deadId, p.job, W.NO_HANDLER, now, p.job.attempts), false))
    case Requeue => (v.(delayed := ZAdd(v.delayed, p.payload)), Acking(p.job, true))
    case Bury => (v.(dead := [p.item] + v.dead), Acking(p.job, true))
    case BuryFails => (v, Acking(p.job, true))
    case AckLease => (v.(processing := LRem(v.processing, p.job)), Idle)
    case CrashWorker => (v, Idle)
  }

  /** The same for a mover. */
  function Carry(v: Server, p: Mover, action: MoverAct, now: Time): (Server, Mover)
    requires CanMove(v, p, action, now)
  {
    match action
    case ScanDue(batch) => (v, Mover(Promoting(batch), None))
    case TakeDue =>
      if p.task.batch == [] then (v, Mover(Resting, None)) else
        var job, rest := p.task.batch[0], Promoting(p.task.batch[1..]);
        if job in v.delayed then (v.(delayed := LRem(v.delayed, job)), Mover(rest, Some(job)))
        else (v, Mover(rest, None))
    case ScanStale(limit, staleAfter) =>
      (v, Mover(Reclaiming(v.processing[..Q.AtMost(limit, |v.processing|)], now - staleAfter), None))
    case TakeStale =>
      if p.task.batch == [] then (v, Mover(Resting, None)) else
        var job, rest := p.task.batch[0], Reclaiming(p.task.batch[1..], p.task.cutoff);
        if Q.Stale(p.task.cutoff).Picks(job) && job in v.processing then
          (v.(processing := LRem(v.processing, job)), Mover(rest, Some(Q.Release(job, now))))
        else (v, Mover(rest, None))
    case ScanDead(item) => (v, Mover(Replaying(item), None))
    case TakeDead =>
      (v.(dead := LRem(v.dead, p.task.item)), Mover(Resting, Some(Q.Revived(p.task.item.job, now))))
    case Deliver => (v.(ready := v.ready + [p.carried.value]), p.(carried := None))
    case CrashMover => (v, Mover(Resting, None))
  }

  function Apply(c: Config, s: State, m: Move): State
    requires Enabled(s, m)
  {
    var t := s.(clock := m.now);
    match m.step
    case Submit(id, name) =>
      var job := NewJob(id, name, m.now).(availableAt := m.now);
      t.(known := s.known + {id}, server := s.server.(ready := s.server.ready + [job]))
    case SubmitAfter(id, name, delay) =>
      var job := NewJob(id, name, m.now).(availableAt := m.now + delay);
      t.(known := s.known + {id}, server := s.server.(delayed := ZAdd(s.server.delayed, job)))
    case ByWorker(w, work) =>
      var p := s.workers[w];
      var (server, p') := Work(c, s.server, p, work, m.now);
      t.(server := server, workers := s.workers[w := p'],
         done := if work.Succeed? then s.done + {p.job.id} else s.done,
         dropped := if work.BuryFails? then s.dropped + multiset{p.job.id} else s.dropped)
    case ByMover(v, action) =>
      var p := s.movers[v];
      var (server, p') := Carry(s.server, p, action, m.now);
      t.(server := server, movers := s.movers[v := p'],
         dropped := if action.CrashMover? && p.carried.Some? then s.dropped + multiset{p.carried.value.id}
                    else s.dropped)
  }

  ghost predicate Init(s: State) {
    && s.server == Server([], [], [], []) && s.known == {} && s.done == {} && s.dropped == multiset{}
    && (forall w :: 0 <= w < |s.workers| ==> s.workers[w].Idle?)
    && (forall v :: 0 <= v < |s.movers| ==> s.movers[v] == Mover(Resting, None))
  }

  ghost predicate Linked(c: Config, s: State, m: Move, s': State) {
    Enabled(s, m) && s' == Apply(c, s, m)
  }

  ghost predicate IsRun(c: Config, states: seq<State>, moves: seq<Move>) {
    && W.ValidConfig(c)
    && |states| == |moves| + 1 && Init(states[0])
    && forall i :: 0 <= i < |moves| ==> Linked(c, states[i], moves[i], states[i + 1])
  }

  // ----- Counting copies and debts

  /** A worker owes a removal: of the original it has replaced, or of a lease it has settled. */
  function Owes(p: Worker, id: string): nat {
    if (p.Pushed? || (p.Acking? && p.settled)) && p.job.id == id then 1 else 0
  }

  function Owed(ws: seq<Worker>, id: string): nat {
    if ws == [] then 0 else Owed(ws[..|ws| - 1], id) + Owes(ws[|ws| - 1], id)
  }

  function Carries(p: Mover, id: string): nat {
    if p.carried.Some? && p.carried.value.id == id then 1 else 0
  }

  function Carried(vs: seq<Mover>, id: string): nat {
    if vs == [] then 0 else Carried(vs[..|vs| - 1], id) + Carries(vs[|vs| - 1], id)
  }

  function Stored(v: Server, id: string): nat {
    Q.Count(v.ready, id) + Q.Count(v.processing, id) + Q.Count(v.delayed, id) + Q.CountDead(v.dead, id)
  }

  lemma {:induction false} OwedUpdate(ws: seq<Worker>, w: nat, p: Worker, id: string)
    requires w < |ws|
    ensures Owed(ws[w := p], id) == Owed(ws, id) - Owes(ws[w], id) + Owes(p, id)
  {
    var n := |ws| - 1;
    if w < n {
      assert ws[w := p][..n] == ws[..n][w := p];
      OwedUpdate(ws[..n], w, p, id);
    } else {
      assert ws[w := p][..n] == ws[..n];
    }
  }

  lemma {:induction false} CarriedUpdate(vs: seq<Mover>, v: nat, p: Mover, id: string)
    requires v < |vs|
    ensures Carried(vs[v := p], id) == Carried(vs, id) - Carries(vs[v], id) + Carries(p, id)
  {
    var n := |vs| - 1;
    if v < n {
      assert vs[v := p][..n] == vs[..n][v := p];
      CarriedUpdate(vs[..n], v, p, id);
    } else {
      assert vs[v := p][..n] == vs[..n];
    }
  }

  lemma {:induction false} NothingOwed(ws: seq<Worker>, id: string)
    requires forall w :: 0 <= w < |ws| ==> Owes(ws[w], id) == 0
    ensures Owed(ws, id) == 0
  {
    if ws != [] {
      NothingOwed(ws[..|ws| - 1], id);
    }
  }

  lemma {:induction false} NothingCarried(vs: seq<Mover>, id: string)
    requires forall v :: 0 <= v < |vs| ==> Carries(vs[v], id) == 0
    ensures Carried(vs, id) == 0
  {
    if vs != [] {
      NothingCarried(vs[..|vs| - 1], id);
    }
  }

  lemma CountPush(jobs: seq<Job>, job: Job, id: string)
    ensures Q.Count(jobs + [job], id) == Q.Count([job] + jobs, id) ==
            Q.Count(jobs, id) + if job.id == id then 1 else 0
  {
    Q.CountConcat(jobs, [job], id);
    Q.CountConcat([job], jobs, id);
    Q.CountOne(job, id);
  }

  lemma CountLRem(jobs: seq<Job>, job: Job, id: string)
    ensures Q.Count(LRem(jobs, job), id) ==
            Q.Count(jobs, id) - if job in jobs && job.id == id then 1 else 0
  {
    if Find(jobs, job) >= 0 {
      Q.CountRemoveAt(jobs, Find(jobs, job), id);
    }
  }

  lemma CountDeadLRem(dead: seq<DeadLetter>, item: DeadLetter, id: string)
    ensures Q.CountDead(LRem(dead, item), id) ==
            Q.CountDead(dead, id) - if item in dead && item.job.id == id then 1 else 0
  {
    if Find(dead, item) >= 0 {
      Q.CountDeadRemoveAt(dead, Find(dead, item), id);
    }
  }

  // ----- No job is lost

  /** The retry's ZADD adds a member: its payload is not in the delayed set yet. */
  ghost predicate AddsMember(s: State, m: Move) {
    m.step.ByWorker? && m.step.work.Requeue? && Enabled(s, m) ==>
      s.workers[m.step.w].payload !in s.server.delayed
  }

  /** The jobs named in a phase that its next commands may store or remove. */
  predicate WorkerNames(p: Worker, id: string) {
    match p
    case Idle => false
    case Pushed(job, leased) => job.id == id || leased.id == id
    case Requeueing(job, payload) => job.id == id || payload.id == id
    case Burying(job, item, _) => job.id == id || item.job.id == id
    case _ => p.job.id == id
  }

  predicate MoverNames(p: Mover, id: string) {
    (p.carried.Some? && p.carried.value.id == id) || (p.task.Replaying? && p.task.item.job.id == id)
  }

  /** A phase names one job only. */
  predicate WorkerCoherent(p: Worker) {
    match p
    case Pushed(job, leased) => leased.id == job.id
    case Requeueing(job, payload) => payload.id == job.id
    case Burying(job, item, _) => item.job.id == job.id
    case _ => true
  }

  /** A known job is done, or its copies (on the server, or carried by a mover) together with the
      copies that were dropped exceed the removals still owed. */
  ghost predicate Accounted(s: State, id: string) {
    && (forall w :: 0 <= w < |s.workers| ==> WorkerCoherent(s.workers[w]))
    && (id in s.known && id !in s.done ==>
          && Stored(s.server, id) + Carried(s.movers, id) + s.dropped[id] >= 1 + Owed(s.workers, id)
          && forall w :: 0 <= w < |s.workers| && s.workers[w].Acking? && !s.workers[w].settled ==>
               s.workers[w].job.id != id)
    && (id !in s.known ==>
          && id !in s.done && Stored(s.server, id) == 0
          && (forall w :: 0 <= w < |s.workers| ==> !WorkerNames(s.workers[w], id))
          && (forall v :: 0 <= v < |s.movers| ==> !MoverNames(s.movers[v], id)))
  }

  lemma PopConserves(v: Server, id: string)
    requires v.ready != []
    ensures var n := |v.ready| - 1;
            && Stored(v.(ready := v.ready[..n], processing := [v.ready[n]] + v.processing), id) == Stored(v, id)
            && (v.ready[n].id == id ==> Stored(v, id) > 0)
  {
    var n := |v.ready| - 1;
    assert v.ready == v.ready[..n] + [v.ready[n]];
    CountPush(v.ready[..n], v.ready[n], id);
    CountPush(v.processing, v.ready[n], id);
  }

  /** What a worker's command does to the number of stored copies and to its debt. */
  lemma WorkBalance(c: Config, v: Server, p: Worker, work: WorkerAct, now: Time, id: string)
    requires CanWork(v, p, work) && WorkerCoherent(p)
    requires work.Requeue? ==> p.payload !in v.delayed
    ensures var (v', p') := Work(c, v, p, work, now);
            && WorkerCoherent(p')
            && ((work.AckLease? && !p.settled && p.job.id == id)
                || Stored(v', id) + Owes(p, id) + (if work.BuryFails? && p.job.id == id then 1 else 0)
                   >= Stored(v, id) + Owes(p', id))
            && (!WorkerNames(p, id) && Stored(v, id) == 0 ==> !WorkerNames(p', id) && Stored(v', id) == 0)
  {
    match work
    case Pop => PopConserves(v, id);
    case PushLease => CountPush(v.processing, p.job.(leasedAt := now), id);
    case RemoveOriginal => CountLRem(v.processing, p.job, id);
    case Requeue => CountPush(v.delayed, p.payload, id);
    case Bury =>
      Q.CountDeadConcat([p.item], v.dead, id);
      Q.CountDeadOne(p.item, id);
    case AckLease => CountLRem(v.processing, p.job, id);
    case _ =>
  }

  /** A mover's command never reduces stored plus carried copies, except by its death. */
  lemma CarryBalance(v: Server, p: Mover, action: MoverAct, now: Time, id: string)
    requires CanMove(v, p, action, now)
    ensures var (v', p') := Carry(v, p, action, now);
            && Stored(v', id) + Carries(p', id) + (if action.CrashMover? then Carries(p, id) else 0)
               >= Stored(v, id) + Carries(p, id)
            && (!MoverNames(p, id) && Stored(v, id) == 0 ==> !MoverNames(p', id) && Stored(v', id) == 0)
  {
    match action
    case TakeDue =>
      if p.task.batch != [] {
        CountLRem(v.delayed, p.task.batch[0], id);
      }
    case TakeStale =>
      if p.task.batch != [] {
        CountLRem(v.processing, p.task.batch[0], id);
      }
    case ScanDead(item) =>
      var i :| 0 <= i < |v.dead| && v.dead[i] == item;
      Q.CountDeadRemoveAt(v.dead, i, id);
    case TakeDead => CountDeadLRem(v.dead, p.task.item, id);
    case Deliver => CountPush(v.ready, p.carried.value, id);
    case _ =>
  }

  lemma WorkKeepsAccounted(c: Config, s: State, m: Move, id: string)
    requires Enabled(s, m) && Accounted(s, id) && AddsMember(s, m) && m.step.ByWorker?
    ensures Accounted(Apply(c, s, m), id)
  {
    var w, p := m.step.w, s.workers[m.step.w];
    WorkBalance(c, s.server, p, m.step.work, m.now, id);
    OwedUpdate(s.workers, w, Apply(c, s, m).workers[w], id);
  }

  lemma CarryKeepsAccounted(c: Config, s: State, m: Move, id: string)
    requires Enabled(s, m) && Accounted(s, id) && m.step.ByMover?
    ensures Accounted(Apply(c, s, m), id)
  {
    var v, p := m.step.v, s.movers[m.step.v];
    CarryBalance(s.server, p, m.step.action, m.now, id);
    CarriedUpdate(s.movers, v, Apply(c, s, m).movers[v], id);
  }

  lemma SubmitKeepsAccounted(c: Config, s: State, m: Move, id: string)
    requires Enabled(s, m) && Accounted(s, id) && (m.step.Submit? || m.step.SubmitAfter?)
    ensures Accounted(Apply(c, s, m), id)
  {
    StoredAfterSubmit(c, s, m, id);
    NewJobIsAccounted(s, Apply(c, s, m), m.step.id, id);
  }

  lemma NewJobIsAccounted(s: State, s': State, newId: string, id: string)
    requires Accounted(s, id) && newId !in s.known
    requires s'.known == s.known + {newId} && s'.workers == s.workers && s'.movers == s.movers
    requires s'.done == s.done && s'.dropped == s.dropped
    requires Stored(s'.server, id) == Stored(s.server, id) + if id == newId then 1 else 0
    ensures Accounted(s', id)
  {
    if id == newId {
      NothingOwed(s.workers, id);
    }
  }

  lemma StoredAfterSubmit(c: Config, s: State, m: Move, id: string)
    requires Enabled(s, m) && (m.step.Submit? || m.step.SubmitAfter?)
    requires id == m.step.id ==> Stored(s.server, id) == 0
    ensures Stored(Apply(c, s, m).server, id) == Stored(s.server, id) + if id == m.step.id then 1 else 0
  {
    var job := NewJob(m.step.id, m.step.name, m.now);
    if m.step.Submit? {
      CountPush(s.server.ready, job.(availableAt := m.now), id);
    } else {
      CountZAdd(s.server.delayed, job.(availableAt := m.now + m.step.delay), id);
    }
  }

  lemma CountZAdd(items: seq<Job>, x: Job, id: string)
    requires x.id == id ==> Q.Count(items, id) == 0
    ensures Q.Count(ZAdd(items, x), id) == Q.Count(items, id) + if x.id == id then 1 else 0
  {
    Q.CountPositive(items, id);
    if x !in items {
      CountPush(items, x, id);
    }
  }

  lemma StepKeepsAccounted(c: Config, s: State, m: Move, id: string)
    requires Enabled(s, m) && Accounted(s, id) && AddsMember(s, m)
    ensures Accounted(Apply(c, s, m), id)
  {
    match m.step
    case ByWorker(_, _) => WorkKeepsAccounted(c, s, m, id);
    case ByMover(_, _) => CarryKeepsAccounted(c, s, m, id);
    case _ => SubmitKeepsAccounted(c, s, m, id);
  }

  /** Whatever the interleaving, and wherever workers crash: in every state of a run whose retries
      each add a member to the delayed set, a job that is not done is on the server, or carried by
      a mover, or was dropped, with copies to spare over the removals still owed. */
  lemma {:induction false} NoJobIsLost(c: Config, states: seq<State>, moves: seq<Move>, i: nat, id: string)
    requires IsRun(c, states, moves) && i < |states|
    requires forall k :: 0 <= k < i ==> AddsMember(states[k], moves[k])
    ensures Accounted(states[i], id)
  {
    if i == 0 {
      NothingOwed(states[0].workers, id);
    } else {
      NoJobIsLost(c, states, moves, i - 1, id);
      assert Linked(c, states[i - 1], moves[i - 1], states[i]);
      StepKeepsAccounted(c, states[i - 1], moves[i - 1], id);
    }
  }

  // ----- Distinct clock readings make every retry add a member

  /** A job that may still run: fewer attempts made than allowed. */
  predicate Sane(c: Config, job: Job) {
    0 <= job.attempts < c.maxAttempts
  }

  /** A dead letter: of a job whose attempts are used up, or of one nobody handles. */
  predicate DeadSane(c: Config, item: DeadLetter) {
    && 0 <= item.job.attempts == item.finalAttempt
    && (item.finalAttempt == c.maxAttempts || (item.reason == "no handler registered" && Sane(c, item.job)))
  }

  predicate WorkerSane(c: Config, p: Worker) {
    match p
    case Idle => true
    case Pushed(job, leased) => Sane(c, job) && Sane(c, leased)
    case Requeueing(job, payload) => Sane(c, job) && payload.attempts >= 1 && Sane(c, payload)
    case Burying(job, item, _) => Sane(c, job) && DeadSane(c, item)
    case _ => Sane(c, p.job)
  }

  predicate MoverSane(c: Config, p: Mover) {
    && (p.carried.Some? ==> Sane(c, p.carried.value))
    && (p.task.Replaying? ==> DeadSane(c, p.task.item))
  }

  /** The instant at which a retry payload was made. */
  function Birth(c: Config, job: Job): Time {
    job.availableAt - RetryDelay(c.backoff, job.attempts)
  }

  predicate BornBy(c: Config, job: Job, now: Time) {
    job.attempts >= 1 ==> Birth(c, job) <= now
  }

  ghost predicate AllSane(c: Config, s: State) {
    && (forall j :: j in s.server.ready || j in s.server.processing ==> Sane(c, j))
    && (forall j :: j in s.server.delayed ==> Sane(c, j))
    && (forall d :: d in s.server.dead ==> DeadSane(c, d))
    && (forall w :: 0 <= w < |s.workers| ==> WorkerSane(c, s.workers[w]))
    && (forall v :: 0 <= v < |s.movers| ==> MoverSane(c, s.movers[v]))
  }

  /** Retry payloads, waiting for their ZADD or already delayed, are pairwise distinct and were
      all made in the past. */
  ghost predicate Distinct(c: Config, s: State) {
    && (forall j :: j in s.server.delayed ==> BornBy(c, j, s.clock))
    && (forall w :: 0 <= w < |s.workers| && s.workers[w].Requeueing? ==>
          BornBy(c, s.workers[w].payload, s.clock) && s.workers[w].payload !in s.server.delayed)
    && (forall w, u :: 0 <= w < u < |s.workers| && s.workers[w].Requeueing? && s.workers[u].Requeueing? ==>
          s.workers[w].payload != s.workers[u].payload)
  }

  lemma LRemMembers<T>(items: seq<T>, x: T)
    ensures forall y :: y in LRem(items, x) ==> y in items
  {
  }

  lemma WorkKeepsSane(c: Config, s: State, m: Move)
    requires W.ValidConfig(c) && Enabled(s, m) && AllSane(c, s) && m.step.ByWorker?
    ensures AllSane(c, Apply(c, s, m))
  {
    var v, p := s.server, s.workers[m.step.w];
    match m.step.work
    case Pop => assert v.ready[|v.ready| - 1] in v.ready;
    case RemoveOriginal => LRemMembers(v.processing, p.job);
    case AckLease => LRemMembers(v.processing, p.job);
    case _ =>
  }

  lemma CarryKeepsSane(c: Config, s: State, m: Move)
    requires W.ValidConfig(c) && Enabled(s, m) && AllSane(c, s) && m.step.ByMover?
    ensures AllSane(c, Apply(c, s, m))
  {
    var v, p := s.server, s.movers[m.step.v];
    match m.step.action
    case TakeDue =>
      if p.task.batch != [] {
        LRemMembers(v.delayed, p.task.batch[0]);
      }
    case TakeStale =>
      if p.task.batch != [] {
        LRemMembers(v.processing, p.task.batch[0]);
      }
    case TakeDead => LRemMembers(v.dead, p.task.item);
    case _ =>
  }

  /** A retry payload made now is new: every other one is older. */
  lemma FailKeepsDistinct(c: Config, s: State, m: Move)
    requires Enabled(s, m) && AllSane(c, s) && Distinct(c, s) && s.clock < m.now
    requires m.step.ByWorker? && m.step.work.Fail?
    ensures Distinct(c, Apply(c, s, m))
  {
    var p := Apply(c, s, m).workers[m.step.w];
    if p.Requeueing? {
      assert Birth(c, p.payload) == m.now && p.payload.attempts >= 1;
    }
  }

  lemma WorkKeepsDistinct(c: Config, s: State, m: Move)
    requires Enabled(s, m) && Distinct(c, s) && s.clock < m.now
    requires m.step.ByWorker? && !m.step.work.Fail?
    ensures Distinct(c, Apply(c, s, m))
  {
    var s', w := Apply(c, s, m), m.step.w;
    assert !s'.workers[w].Requeueing?;
    if m.step.work.Requeue? {
      var x := s.workers[w].payload;
      assert s'.server.delayed == s.server.delayed + [x];
    } else {
      assert s'.server.delayed == s.server.delayed;
    }
  }

  lemma StepKeepsDistinct(c: Config, s: State, m: Move)
    requires Enabled(s, m) && AllSane(c, s) && Distinct(c, s) && s.clock < m.now
    ensures Distinct(c, Apply(c, s, m))
  {
    match m.step
    case ByWorker(_, work) =>
      if work.Fail? {
        FailKeepsDistinct(c, s, m);
      } else {
        WorkKeepsDistinct(c, s, m);
      }
    case _ => OthersKeepDistinct(c, s, m);
  }

  lemma OthersKeepDistinct(c: Config, s: State, m: Move)
    requires Enabled(s, m) && AllSane(c, s) && Distinct(c, s) && !m.step.ByWorker?
    ensures Distinct(c, Apply(c, s, m))
  {
    var s' := Apply(c, s, m);
    if m.step.ByMover? && m.step.action.TakeDue? && s.movers[m.step.v].task.batch != [] {
      LRemMembers(s.server.delayed, s.movers[m.step.v].task.batch[0]);
    }
    assert s'.workers == s.workers;
    assert forall j :: j in s'.server.delayed ==> j in s.server.delayed || (m.step.SubmitAfter? && j.attempts == 0);
  }

  lemma StepKeepsSane(c: Config, s: State, m: Move)
    requires W.ValidConfig(c) && Enabled(s, m) && AllSane(c, s)
    ensures AllSane(c, Apply(c, s, m))
  {
    match m.step
    case ByWorker(_, _) => WorkKeepsSane(c, s, m);
    case ByMover(_, _) => CarryKeepsSane(c, s, m);
    case _ =>
  }

  /** In every state of every run, on the server and in everybody's hands: a job has fewer attempts than are
      allowed, and a dead letter used them all up, or is of a kind nobody handles. */
  lemma {:induction false} AttemptsStayBelowTheLimit(c: Config, states: seq<State>, moves: seq<Move>, i: nat)
    requires IsRun(c, states, moves) && i < |states|
    ensures AllSane(c, states[i])
  {
    if i > 0 {
      AttemptsStayBelowTheLimit(c, states, moves, i - 1);
      assert Linked(c, states[i - 1], moves[i - 1], states[i]);
      StepKeepsSane(c, states[i - 1], moves[i - 1]);
    }
  }

  lemma {:induction false} RetriesAddMembers(c: Config, states: seq<State>, moves: seq<Move>, i: nat)
    requires IsRun(c, states, moves) && i < |states|
    requires forall k :: 0 <= k < |moves| ==> states[k].clock < moves[k].now
    ensures Distinct(c, states[i])
    ensures i < |moves| ==> AddsMember(states[i], moves[i])
  {
    if i > 0 {
      RetriesAddMembers(c, states, moves, i - 1);
      AttemptsStayBelowTheLimit(c, states, moves, i - 1);
      assert Linked(c, states[i - 1], moves[i - 1], states[i]);
      StepKeepsDistinct(c, states[i - 1], moves[i - 1]);
    }
  }

  /** With distinct clock readings no assumption on payloads is left: a job that is not done can
      be missing from the server and from every mover only if a payload of it was dropped, by a
      mover that died carrying it or by a failed dead-lettering of an unregistered kind. */
  lemma OnlyDroppedJobsAreLost(c: Config, states: seq<State>, moves: seq<Move>, i: nat, id: string)
    requires IsRun(c, states, moves) && i < |states|
    requires forall k :: 0 <= k < |moves| ==> states[k].clock < moves[k].now
    requires id in states[i].known && id !in states[i].done && states[i].dropped[id] == 0
    ensures Stored(states[i].server, id) + Carried(states[i].movers, id) >= 1 + Owed(states[i].workers, id)
  {
    forall k | 0 <= k < i
      ensures AddsMember(states[k], moves[k])
    {
      RetriesAddMembers(c, states, moves, k);
    }
    NoJobIsLost(c, states, moves, i, id);
  }

  // ----- What is not promised

  /** A run in which a popped job is reclaimed before its lease is written, and the reclaimer
      and the worker then die. */
  function LossState(name: JobName, k: nat): State {
    var job := NewJob("a", name, 1).(availableAt := 1);
    var resting, none := Mover(Resting, None), Server([], [], [], []);
    var base := State(none, [Idle], [resting], {"a"}, {}, multiset{}, k);
    match k
    case 0 => base.(known := {})
    case 1 => base.(server := none.(ready := [job]))
    case 2 => base.(server := none.(processing := [job]), workers := [Popped(job)])
    case 3 => base.(server := none.(processing := [job]), workers := [Popped(job)],
                    movers := [Mover(Reclaiming([job], 3 - MINUTE), None)])
    case 4 => base.(workers := [Popped(job)],
                    movers := [Mover(Reclaiming([], 3 - MINUTE), Some(Q.Release(job, 4)))])
    case 5 => base.(workers := [Popped(job)], dropped := multiset{"a"})
    case _ => base.(dropped := multiset{"a"})
  }

  function LossMove(name: JobName, k: nat): Move {
    match k
    case 0 => Move(Submit("a", name), 1)
    case 1 => Move(ByWorker(0, Pop), 2)
    case 2 => Move(ByMover(0, ScanStale(1, MINUTE)), 3)
    case 3 => Move(ByMover(0, TakeStale), 4)
    case 4 => Move(ByMover(0, CrashMover), 5)
    case _ => Move(ByWorker(0, CrashWorker), 6)
  }

  lemma LossBegins(c: Config, name: JobName, k: nat)
    requires k < 3
    ensures Linked(c, LossState(name, k), LossMove(name, k), LossState(name, k + 1))
  {
    var s, s' := LossState(name, k), LossState(name, k + 1);
    if k == 1 {
      assert s.server.ready[..0] == [] && s.workers[0 := Popped(s.server.ready[0])] == s'.workers;
    } else if k == 2 {
      assert s.server.processing[..1] == s.server.processing;
    }
  }

  lemma LossEnds(c: Config, name: JobName, k: nat)
    requires 3 <= k < 6
    ensures Linked(c, LossState(name, k), LossMove(name, k), LossState(name, k + 1))
  {
    if k == 3 {
      OneElement(LossState(name, k).server.processing[0]);
    }
  }

  lemma OneElement(job: Job)
    ensures LRem([job], job) == [] && [job][1..] == [] && job in [job]
  {
    assert [job][0] == job && Find([job], job) == 0;
  }

  /** A mover that dies between its removal and its push can lose a job: a run in which a
      submitted, unfinished job is nowhere, and no worker or mover holds it. */
  lemma MoverDeathCanLoseAJob(c: Config, name: JobName) returns (states: seq<State>, moves: seq<Move>)
    requires W.ValidConfig(c)
    ensures IsRun(c, states, moves)
    ensures var s := states[|moves|];
            && "a" in s.known && "a" !in s.done && s.dropped["a"] == 1
            && Stored(s.server, "a") == 0 && Carried(s.movers, "a") == 0
            && (forall w :: 0 <= w < |s.workers| ==> s.workers[w].Idle?)
  {
    states := seq(7, k requires 0 <= k => LossState(name, k));
    moves := seq(6, k requires 0 <= k => LossMove(name, k));
    forall k | 0 <= k < 6
      ensures Linked(c, states[k], moves[k], states[k + 1])
    {
      if k < 3 {
        LossBegins(c, name, k);
      } else {
        LossEnds(c, name, k);
      }
    }
    NothingCarried(states[6].movers, "a");
  }
}
