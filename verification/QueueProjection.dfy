/** The queue of the whole system is a queue of the worker protocol. Scheduling jobs is submitting
    them, and every run of the whole system projects to one protocol run that passes through the
    queue of each of its worlds in order. */
module QueueProjection {
  import opened Domain
  import opened Deployments
  import opened Lifecycle
  import D = Delivery
  import P = WorkerProtocol

  // ----- The protocol moves of one step

  /** The moves that schedule the orders. */
  function Submissions(orders: seq<Order>, jobIds: seq<string>, now: Time): seq<P.Move>
    requires |orders| <= |jobIds|
  {
    if orders == [] then [] else
      var n := |orders| - 1;
      Submissions(orders[..n], jobIds, now) + [P.Move(P.Submit(jobIds[n], orders[n].name, orders[n].delay), now)]
  }

  /** What a step of the whole system is to the workers and the queue. */
  ghost function StepsOf(w: World, m: Move): seq<P.Move>
    requires Enabled(w, m)
  {
    match m.step
    case Do(act, jobIds) =>
      Submissions(EffectOf(w, act, m.now).orders, jobIds, m.now) +
      if act.Handle? then [P.Move(HandlerMove(w, act, m.now), m.now)] else []
    case OnQueue(step) => [P.Move(step, m.now)]
    case _ => []
  }

  /** No step of the whole system but a queue step does more than submit jobs and end handlers; and
      every protocol move happens at the instant of its step. */
  lemma StepsAreMild(w: World, m: Move, j: nat)
    requires Enabled(w, m) && j < |StepsOf(w, m)|
    ensures var s := StepsOf(w, m)[j];
            s.now == m.now && (m.step.OnQueue? || s.step.Submit? || s.step.Succeed? || s.step.Fail?)
  {
    if m.step.Do? {
      var orders := EffectOf(w, m.step.act, m.now).orders;
      if j < |Submissions(orders, m.step.jobIds, m.now)| {
        SubmissionAt(orders, m.step.jobIds, m.now, j);
      }
    }
  }

  lemma {:induction false} SubmissionAt(orders: seq<Order>, jobIds: seq<string>, now: Time, j: nat)
    requires |orders| <= |jobIds| && j < |Submissions(orders, jobIds, now)|
    ensures |Submissions(orders, jobIds, now)| == |orders|
    ensures Submissions(orders, jobIds, now)[j] == P.Move(P.Submit(jobIds[j], orders[j].name, orders[j].delay), now)
  {
    var n := |orders| - 1;
    SubmissionCount(orders[..n], jobIds, now);
    if j < n {
      SubmissionAt(orders[..n], jobIds, now, j);
    }
  }

  lemma {:induction false} SubmissionCount(orders: seq<Order>, jobIds: seq<string>, now: Time)
    requires |orders| <= |jobIds|
    ensures |Submissions(orders, jobIds, now)| == |orders|
  {
    if orders != [] {
      SubmissionCount(orders[..|orders| - 1], jobIds, now);
    }
  }

  // ----- They are enabled and lead from one queue to the next

  ghost predicate DelaysOk(orders: seq<Order>) {
    forall i :: 0 <= i < |orders| ==> DelayOk(orders[i])
  }

  predicate DelayOk(o: Order) {
    o.delay.Some? ==> o.delay.value >= 0
  }

  /** Placing the last order is one Submit move after placing the others. */
  lemma PlacingIsSubmitting(c: P.Config, q: P.State, orders: seq<Order>, jobIds: seq<string>, now: Time)
    requires orders != [] && |orders| <= |jobIds| && FreshIds(q, jobIds) && q.clock <= now && 0 < now
    requires DelaysOk(orders)
    ensures var n := |orders| - 1;
            var mid := PlaceJobs(q, orders[..n], jobIds, now);
            var m := P.Move(P.Submit(jobIds[n], orders[n].name, orders[n].delay), now);
            P.Enabled(mid, m) && P.Apply(c, mid, m) == PlaceJobs(q, orders, jobIds, now)
  {
    var n := |orders| - 1;
    var ids := set i | 0 <= i < n :: jobIds[i];
    assert (set i | 0 <= i < n + 1 :: jobIds[i]) == ids + {jobIds[n]};
    assert jobIds[n] !in ids;
    assert DelayOk(orders[n]);
  }

  /** States linked by moves, from one state to another. */
  ghost predicate Path(c: P.Config, states: seq<P.State>, moves: seq<P.Move>, from: P.State, to: P.State) {
    && |states| == |moves| + 1 && states[0] == from && states[|moves|] == to
    && forall i :: 0 <= i < |moves| ==> P.Linked(c, states[i], moves[i], states[i + 1])
  }

  lemma Join(c: P.Config, a: seq<P.State>, before: seq<P.Move>, b: seq<P.State>, after: seq<P.Move>,
             from: P.State, mid: P.State, to: P.State)
    requires Path(c, a, before, from, mid) && Path(c, b, after, mid, to)
    ensures Path(c, a + b[1..], before + after, from, to)
    ensures (a + b[1..])[..|a|] == a
  {
    var states, moves := a + b[1..], before + after;
    forall i | 0 <= i < |moves|
      ensures P.Linked(c, states[i], moves[i], states[i + 1])
    {
      if i < |before| {
        assert P.Linked(c, a[i], before[i], a[i + 1]);
      } else {
        var j := i - |before|;
        assert P.Linked(c, b[j], after[j], b[j + 1]);
        assert states[i] == b[j];
      }
    }
  }

  lemma OneMove(c: P.Config, s: P.State, m: P.Move)
    requires P.Enabled(s, m)
    ensures Path(c, [s, P.Apply(c, s, m)], [m], s, P.Apply(c, s, m))
  {
  }

  lemma {:induction false} PlacingPath(c: P.Config, q: P.State, orders: seq<Order>, jobIds: seq<string>, now: Time)
    returns (states: seq<P.State>)
    requires |orders| <= |jobIds| && FreshIds(q, jobIds) && q.clock <= now && 0 < now && DelaysOk(orders)
    ensures Path(c, states, Submissions(orders, jobIds, now), q, PlaceJobs(q, orders, jobIds, now))
    decreases |orders|
  {
    if orders == [] {
      states := [q];
      assert PlaceJobs(q, orders, jobIds, now).known == q.known;
    } else {
      var n := |orders| - 1;
      states := PlacingPath(c, q, orders[..n], jobIds, now);
      PlacingIsSubmitting(c, q, orders, jobIds, now);
      var m := P.Move(P.Submit(jobIds[n], orders[n].name, orders[n].delay), now);
      var mid := PlaceJobs(q, orders[..n], jobIds, now);
      OneMove(c, mid, m);
      Join(c, states, Submissions(orders[..n], jobIds, now), [mid, P.Apply(c, mid, m)], [m],
           q, mid, PlaceJobs(q, orders, jobIds, now));
      states := states + [mid, P.Apply(c, mid, m)][1..];
    }
  }

  lemma {:induction false} ReconcileDelays(items: seq<Deployment>)
    ensures DelaysOk(ReconcileOrders(items))
  {
    if items != [] {
      ReconcileDelays(items[..|items| - 1]);
    }
  }

  lemma EffectDelays(w: World, act: Act, now: Time)
    requires CanDo(w, act)
    ensures DelaysOk(EffectOf(w, act, now).orders)
  {
    if act.Reconcile? {
      ReconcileDelays(act.items);
    }
  }

  lemma ActPath(c: P.Config, w: World, m: Move) returns (states: seq<P.State>)
    requires Enabled(w, m) && m.step.Do?
    ensures Path(c, states, StepsOf(w, m), w.queue, Apply(c, w, m).queue)
  {
    var act, jobIds := m.step.act, m.step.jobIds;
    var orders := EffectOf(w, act, m.now).orders;
    EffectDelays(w, act, m.now);
    states := PlacingPath(c, w.queue, orders, jobIds, m.now);
    var subs := Submissions(orders, jobIds, m.now);
    if act.Handle? {
      var q, h := PlaceJobs(w.queue, orders, jobIds, m.now), P.Move(HandlerMove(w, act, m.now), m.now);
      OneMove(c, q, h);
      Join(c, states, subs, [q, P.Apply(c, q, h)], [h], w.queue, q, P.Apply(c, q, h));
      states := states + [q, P.Apply(c, q, h)][1..];
    } else {
      assert subs + [] == subs;
    }
  }

  /** The protocol moves of a step lead from its queue to the next. */
  lemma StepPath(c: P.Config, w: World, m: Move) returns (states: seq<P.State>)
    requires Enabled(w, m)
    ensures Path(c, states, StepsOf(w, m), w.queue, Apply(c, w, m).queue)
  {
    match m.step
    case Do(_, _) => states := ActPath(c, w, m);
    case OnQueue(step) =>
      states := [w.queue, P.Apply(c, w.queue, P.Move(step, m.now))];
      OneMove(c, w.queue, P.Move(step, m.now));
    case _ => states := [w.queue];
  }

  // ----- One run for the whole run

  /** The protocol moves of the first n steps, in order. */
  ghost function AllSteps(c: P.Config, worlds: seq<World>, moves: seq<Move>, n: nat): seq<P.Move>
    requires IsRun(c, worlds, moves) && n <= |moves|
  {
    if n == 0 then [] else
      assert Linked(c, worlds[n - 1], moves[n - 1], worlds[n]);
      AllSteps(c, worlds, moves, n - 1) + StepsOf(worlds[n - 1], moves[n - 1])
  }

  /** Where the n-th world is in the projected run. */
  ghost function At(c: P.Config, worlds: seq<World>, moves: seq<Move>, n: nat): nat
    requires IsRun(c, worlds, moves) && n <= |moves|
  {
    |AllSteps(c, worlds, moves, n)|
  }

  /** The states make a protocol run of these moves that is at the queue of each world in its place. */
  ghost predicate Projects(c: P.Config, worlds: seq<World>, moves: seq<Move>, n: nat, states: seq<P.State>)
    requires IsRun(c, worlds, moves) && n <= |moves|
  {
    && P.IsRun(c, states, AllSteps(c, worlds, moves, n))
    && forall i :: 0 <= i <= n ==> Visits(c, worlds, moves, i, states)
  }

  ghost predicate Visits(c: P.Config, worlds: seq<World>, moves: seq<Move>, i: nat, states: seq<P.State>)
    requires IsRun(c, worlds, moves) && i <= |moves|
  {
    At(c, worlds, moves, i) < |states| && states[At(c, worlds, moves, i)] == worlds[i].queue
  }

  lemma NextSteps(c: P.Config, worlds: seq<World>, moves: seq<Move>, n: nat) returns (more: seq<P.Move>)
    requires IsRun(c, worlds, moves) && 0 < n <= |moves|
    ensures Enabled(worlds[n - 1], moves[n - 1]) && more == StepsOf(worlds[n - 1], moves[n - 1])
    ensures AllSteps(c, worlds, moves, n) == AllSteps(c, worlds, moves, n - 1) + more
  {
    assert Linked(c, worlds[n - 1], moves[n - 1], worlds[n]);
    more := StepsOf(worlds[n - 1], moves[n - 1]);
  }

  /** The moves after those of the first i steps. */
  lemma {:induction false} StepsAfter(c: P.Config, worlds: seq<World>, moves: seq<Move>, i: nat, n: nat)
    returns (rest: seq<P.Move>)
    requires IsRun(c, worlds, moves) && i <= n <= |moves|
    ensures AllSteps(c, worlds, moves, n) == AllSteps(c, worlds, moves, i) + rest
    decreases n
  {
    if i == n {
      rest := [];
    } else {
      var before := StepsAfter(c, worlds, moves, i, n - 1);
      var more := NextSteps(c, worlds, moves, n);
      rest := before + more;
      Regroup(AllSteps(c, worlds, moves, i), before, more);
    }
  }

  lemma Regroup(a: seq<P.Move>, b: seq<P.Move>, c: seq<P.Move>)
    ensures a + b + c == a + (b + c)
  {
  }

  /** Every run of the whole system projects to a protocol run. */
  lemma {:induction false} OneRun(c: P.Config, worlds: seq<World>, moves: seq<Move>, n: nat)
    returns (states: seq<P.State>)
    requires IsRun(c, worlds, moves) && n <= |moves|
    ensures Projects(c, worlds, moves, n, states)
    decreases n
  {
    if n == 0 {
      states := [worlds[0].queue];
    } else {
      var before := OneRun(c, worlds, moves, n - 1);
      assert Visits(c, worlds, moves, n - 1, before);
      var more := NextPath(c, worlds, moves, n);
      states := Longer(c, before, AllSteps(c, worlds, moves, n - 1), more, StepsOf(worlds[n - 1], moves[n - 1]),
                       worlds[n - 1].queue, worlds[n].queue);
      forall i | 0 <= i < n
        ensures Visits(c, worlds, moves, i, states)
      {
        VisitsStay(c, worlds, moves, i, before, states);
      }
    }
  }

  lemma NextPath(c: P.Config, worlds: seq<World>, moves: seq<Move>, n: nat) returns (states: seq<P.State>)
    requires IsRun(c, worlds, moves) && 0 < n <= |moves|
    ensures Enabled(worlds[n - 1], moves[n - 1])
    ensures Path(c, states, StepsOf(worlds[n - 1], moves[n - 1]), worlds[n - 1].queue, worlds[n].queue)
  {
    var w, m, w' := worlds[n - 1], moves[n - 1], worlds[n];
    assert Linked(c, w, m, w');
    states := StepPath(c, w, m);
  }

  lemma VisitsStay(c: P.Config, worlds: seq<World>, moves: seq<Move>, i: nat, before: seq<P.State>, after: seq<P.State>)
    requires IsRun(c, worlds, moves) && i <= |moves| && Visits(c, worlds, moves, i, before)
    requires |before| <= |after| && after[..|before|] == before
    ensures Visits(c, worlds, moves, i, after)
  {
    var k := At(c, worlds, moves, i);
    assert after[k] == after[..|before|][k];
  }

  /** A run continued by a path. */
  lemma Longer(c: P.Config, states: seq<P.State>, moves: seq<P.Move>, more: seq<P.State>, steps: seq<P.Move>,
               mid: P.State, to: P.State)
    returns (longer: seq<P.State>)
    requires P.IsRun(c, states, moves) && states[|moves|] == mid && Path(c, more, steps, mid, to)
    ensures P.IsRun(c, longer, moves + steps) && |longer| >= |states|
    ensures longer[..|states|] == states && longer[|moves + steps|] == to
  {
    Join(c, states, moves, more, steps, states[0], mid, to);
    longer := states + more[1..];
  }

  /** In every world of every run no job is lost, and every queue entry is well formed: leases,
      availability, attempts and dead letters as the protocol promises them. */
  lemma WorldsKeepJobs(c: P.Config, worlds: seq<World>, moves: seq<Move>, i: nat, id: string)
    requires IsRun(c, worlds, moves) && i < |worlds|
    ensures P.Accounted(worlds[i].queue, id)
    ensures D.WellFormed(c, worlds[i].queue)
  {
    var states := OneRun(c, worlds, moves, i);
    assert Visits(c, worlds, moves, i, states);
    P.NoJobIsLost(c, states, AllSteps(c, worlds, moves, i), |states| - 1, id);
    D.EntriesAreWellFormed(c, states, AllSteps(c, worlds, moves, i), |states| - 1);
  }
}
