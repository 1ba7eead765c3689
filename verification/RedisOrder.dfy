/** In which order the Redis queue hands jobs out. It pushes and pops at the same end of the ready list, so the
    last in is the first out, and a job can wait for as long as others keep coming. */
module RedisOrder {
  import opened Domain
  import opened RedisProtocol
  import W = WorkerProtocol

  predicate Pops(m: Move) {
    m.step.ByWorker? && m.step.work.Pop?
  }

  predicate Pushes(m: Move) {
    m.step.Submit? || (m.step.ByMover? && m.step.action.Deliver?)
  }

  /** The job a pop has handed out. */
  function PoppedBy(s': State, m: Move): Option<Job> {
    if Pops(m) && m.step.w < |s'.workers| && s'.workers[m.step.w].Popped? then Some(s'.workers[m.step.w].job) else None
  }

  /** The ready list is a stack. */
  lemma ReadyIsAStack(c: Config, s: State, m: Move)
    requires Enabled(s, m)
    ensures var ready, ready' := s.server.ready, Apply(c, s, m).server.ready;
            && (Pops(m) ==> PoppedBy(Apply(c, s, m), m).Some?
                            && ready == ready' + [PoppedBy(Apply(c, s, m), m).value])
            && (Pushes(m) ==> |ready'| == |ready| + 1 && ready'[..|ready|] == ready)
            && (!Pops(m) && !Pushes(m) ==> ready' == ready)
  {
  }

  // ----- Last in, first out

  /** Entries that are not dug up stay where they are. */
  lemma {:induction false} EntriesStay(c: Config, states: seq<State>, moves: seq<Move>, i: nat, j: nat, n: nat)
    requires IsRun(c, states, moves) && i <= j < |states| && n <= |states[i].server.ready|
    requires forall k :: i <= k <= j ==> n <= |states[k].server.ready|
    ensures states[j].server.ready[..n] == states[i].server.ready[..n]
    decreases j
  {
    if i < j {
      EntriesStay(c, states, moves, i, j - 1, n);
      var s, m, s' := states[j - 1], moves[j - 1], states[j];
      assert Linked(c, s, m, s');
      ReadyIsAStack(c, s, m);
    }
  }

  /** Last in, first out: the entry at place p is handed out by the pop that first brings the list down to p
      entries, so after all that were on top of it and all that were put on top meanwhile. */
  lemma LastInFirstOut(c: Config, states: seq<State>, moves: seq<Move>, i: nat, j: nat, p: nat)
    requires IsRun(c, states, moves) && i < j < |states| && p < |states[i].server.ready|
    requires forall k :: i <= k < j ==> p < |states[k].server.ready|
    requires |states[j].server.ready| <= p
    ensures PoppedBy(states[j], moves[j - 1]) == Some(states[i].server.ready[p])
    ensures states[j].server.ready == states[i].server.ready[..p]
  {
    EntriesStay(c, states, moves, i, j - 1, p + 1);
    var s, m, s' := states[j - 1], moves[j - 1], states[j];
    assert Linked(c, s, m, s');
    ReadyIsAStack(c, s, m);
    assert s.server.ready == s.server.ready[..p + 1] == states[i].server.ready[..p + 1];
    assert s'.server.ready == s.server.ready[..p];
  }

  /** How many of the first n moves hand a job out, and how many put one on the ready list. */
  function PopCount(moves: seq<Move>): nat {
    if moves == [] then 0 else PopCount(moves[..|moves| - 1]) + if Pops(moves[|moves| - 1]) then 1 else 0
  }

  function PushCount(moves: seq<Move>): nat {
    if moves == [] then 0 else PushCount(moves[..|moves| - 1]) + if Pushes(moves[|moves| - 1]) then 1 else 0
  }

  /** The ready list holds what was pushed and not yet popped. */
  lemma {:induction false} PushesAndPops(c: Config, states: seq<State>, moves: seq<Move>, n: nat)
    requires IsRun(c, states, moves) && n <= |moves|
    ensures PushCount(moves[..n]) == PopCount(moves[..n]) + |states[n].server.ready|
  {
    if n > 0 {
      PushesAndPops(c, states, moves, n - 1);
      assert moves[..n][..n - 1] == moves[..n - 1];
      var s, m, s' := states[n - 1], moves[n - 1], states[n];
      assert Linked(c, s, m, s');
      ReadyIsAStack(c, s, m);
    }
  }

  // ----- Waiting for ever

  /** There is always an id that nobody has used. */
  lemma {:induction false} LengthBound(ids: set<string>) returns (n: nat)
    ensures forall id :: id in ids ==> |id| < n
    decreases |ids|
  {
    n := 0;
    if ids != {} {
      var id :| id in ids;
      n := LengthBound(ids - {id});
      n := n + |id| + 1;
    }
  }

  lemma NewId(ids: set<string>) returns (id: string)
    ensures id !in ids
  {
    var n := LengthBound(ids);
    id := seq(n, _ => 'a');
  }

  /** A run goes on with any move that is enabled. */
  lemma Extend(c: Config, states: seq<State>, moves: seq<Move>, m: Move)
    requires IsRun(c, states, moves) && Enabled(states[|moves|], m)
    ensures IsRun(c, states + [Apply(c, states[|moves|], m)], moves + [m])
    ensures PopCount(moves + [m]) == PopCount(moves) + if Pops(m) then 1 else 0
  {
    var states', moves' := states + [Apply(c, states[|moves|], m)], moves + [m];
    assert moves'[..|moves|] == moves;
    forall k | 0 <= k < |moves'|
      ensures Linked(c, states'[k], moves'[k], states'[k + 1])
    {
      if k < |moves| {
        assert Linked(c, states[k], moves[k], states[k + 1]);
      }
    }
  }

  /** The instant of the next moves. */
  function Next(s: State): Time {
    if s.clock < 1 then 1 else s.clock
  }

  /** The moves of one worker that take a new job through: submitted, handed out, leased, handled and
      acknowledged. */
  function RoundMove(w: nat, id: string, name: JobName, now: Time, k: nat): Move {
    match k
    case 0 => Move(Submit(id, name), now)
    case 1 => Move(ByWorker(w, Pop), now)
    case 2 => Move(ByWorker(w, PushLease), now)
    case 3 => Move(ByWorker(w, RemoveOriginal), now)
    case 4 => Move(ByWorker(w, Succeed), now)
    case _ => Move(ByWorker(w, AckLease), now)
  }

  /** How far the round has come after k moves. */
  ghost predicate InRound(s: State, ready: seq<Job>, w: nat, id: string, now: Time, k: nat) {
    && w < |s.workers| && s.clock <= now && 0 < now
    && (if k == 1 then |s.server.ready| == |ready| + 1 && s.server.ready[..|ready|] == ready
                       && s.server.ready[|ready|].id == id && s.server.ready[|ready|].leasedAt == 0
        else s.server.ready == ready)
    && match k
       case 0 => s.workers[w].Idle? && id !in s.known
       case 1 => s.workers[w].Idle?
       case 2 => s.workers[w].Popped? && s.workers[w].job.id == id && s.workers[w].job.leasedAt == 0
       case 3 => s.workers[w].Pushed?
       case 4 => s.workers[w].Holding?
       case 5 => s.workers[w].Acking?
       case _ => s.workers[w].Idle?
  }

  lemma RoundGoesOn(c: Config, s: State, ready: seq<Job>, w: nat, id: string, name: JobName, now: Time, k: nat)
    requires k < 6 && InRound(s, ready, w, id, now, k)
    ensures var m := RoundMove(w, id, name, now, k);
            && Enabled(s, m) && InRound(Apply(c, s, m), ready, w, id, now, k + 1)
            && s.known <= Apply(c, s, m).known && (k == 1 <==> Pops(m))
            && (Pops(m) ==> PoppedBy(Apply(c, s, m), m).Some? && PoppedBy(Apply(c, s, m), m).value.id == id)
  {
  }

  /** Every job handed out from some move on is new: none of those known before. */
  ghost predicate OnlyNew(states: seq<State>, moves: seq<Move>, n: nat, known: set<string>)
    requires |states| == |moves| + 1
  {
    forall k :: n <= k < |moves| && Pops(moves[k]) ==>
      PoppedBy(states[k + 1], moves[k]).Some? && PoppedBy(states[k + 1], moves[k]).value.id !in known
  }

  lemma StillOnlyNew(states: seq<State>, moves: seq<Move>, n: nat, known: set<string>, m: Move, s': State)
    requires |states| == |moves| + 1 && OnlyNew(states, moves, n, known)
    requires Pops(m) ==> PoppedBy(s', m).Some? && PoppedBy(s', m).value.id !in known
    ensures OnlyNew(states + [s'], moves + [m], n, known)
  {
  }

  lemma RoundStep(c: Config, states: seq<State>, moves: seq<Move>, n: nat, known: set<string>, ready: seq<Job>,
                  w: nat, id: string, name: JobName, now: Time, k: nat, s': State, m: Move)
    requires IsRun(c, states, moves) && OnlyNew(states, moves, n, known) && id !in known
    requires k < 6 && InRound(states[|moves|], ready, w, id, now, k)
    requires m == RoundMove(w, id, name, now, k) && Enabled(states[|moves|], m) && s' == Apply(c, states[|moves|], m)
    ensures IsRun(c, states + [s'], moves + [m]) && OnlyNew(states + [s'], moves + [m], n, known)
    ensures InRound(s', ready, w, id, now, k + 1) && states[|moves|].known <= s'.known
    ensures PopCount(moves + [m]) == PopCount(moves) + if k == 1 then 1 else 0
  {
    RoundGoesOn(c, states[|moves|], ready, w, id, name, now, k);
    Extend(c, states, moves, m);
    StillOnlyNew(states, moves, n, known, m, s');
  }

  /** A run goes on through k moves of a round. */
  lemma {:induction false} Round(c: Config, states: seq<State>, moves: seq<Move>, n: nat, known: set<string>,
                                 ready: seq<Job>, w: nat, id: string, name: JobName, now: Time, k: nat)
    returns (states': seq<State>, moves': seq<Move>)
    requires IsRun(c, states, moves) && k <= 6 && OnlyNew(states, moves, n, known) && id !in known
    requires InRound(states[|moves|], ready, w, id, now, 0)
    ensures IsRun(c, states', moves') && states <= states' && moves <= moves' && OnlyNew(states', moves', n, known)
    ensures InRound(states'[|moves'|], ready, w, id, now, k) && states[|moves|].known <= states'[|moves'|].known
    ensures PopCount(moves') == PopCount(moves) + if k >= 2 then 1 else 0
  {
    states', moves' := states, moves;
    if k > 0 {
      states', moves' := Round(c, states, moves, n, known, ready, w, id, name, now, k - 1);
      var s, m := states'[|moves'|], RoundMove(w, id, name, now, k - 1);
      RoundGoesOn(c, s, ready, w, id, name, now, k - 1);
      var s' := Apply(c, s, m);
      RoundStep(c, states', moves', n, known, ready, w, id, name, now, k - 1, s', m);
      states', moves' := states' + [s'], moves' + [m];
    }
  }

  /** On Redis a job can wait for ever: with one worker at rest, every run can go on with as many hand-outs as
      one likes, each of a job submitted later, and the ready list as it was. */
  lemma {:induction false} OlderJobsStarve(c: Config, states: seq<State>, moves: seq<Move>, w: nat, name: JobName,
                                           rounds: nat)
    returns (states': seq<State>, moves': seq<Move>)
    requires IsRun(c, states, moves) && w < |states[|moves|].workers| && states[|moves|].workers[w].Idle?
    ensures IsRun(c, states', moves') && states <= states' && moves <= moves'
    ensures PopCount(moves') == PopCount(moves) + rounds
    ensures OnlyNew(states', moves', |moves|, states[|moves|].known)
    ensures var s, s' := states[|moves|], states'[|moves'|];
            && s'.server.ready == s.server.ready && s.known <= s'.known
            && w < |s'.workers| && s'.workers[w].Idle?
  {
    states', moves' := states, moves;
    if rounds > 0 {
      states', moves' := OlderJobsStarve(c, states, moves, w, name, rounds - 1);
      var s := states'[|moves'|];
      var id := NewId(s.known);
      states', moves' :=
        Round(c, states', moves', |moves|, states[|moves|].known, s.server.ready, w, id, name, Next(s), 6);
    }
  }
}
