/** What the protocol promises of two moments of a run, for the whole system: leases stand, delays
    are waited out, and hand-outs are paid for, whatever services, handlers and reconciler do. */
module SystemQueue {
  import opened Deployments
  import opened Domain
  import opened Lifecycle
  import opened QueueProjection
  import B = RetryBudget
  import L = Leases
  import P = WorkerProtocol

  // ----- Leases and delays

  /** The step acknowledges such a lease. */
  predicate Acks(w: World, m: Move, e: Job) {
    m.step.OnQueue? && L.Acks(w.queue, P.Move(m.step.step, m.now), e)
  }

  /** The step is a reclaim for which the lease is stale. */
  predicate Expires(m: Move, e: Job) {
    m.step.OnQueue? && L.Expires(P.Move(m.step.step, m.now), e)
  }

  /** The step neither acknowledges such a lease nor finds it stale. */
  predicate Spares(w: World, m: Move, e: Job) {
    !Acks(w, m, e) && !Expires(m, e)
  }

  /** The stretch of the projected run that belongs to one step. */
  ghost predicate Stretch(w: World, m: Move, w': World, states: seq<P.State>, steps: seq<P.Move>, k: nat, l: nat) {
    && k <= l <= |steps| < |states| && Enabled(w, m)
    && steps[k..l] == StepsOf(w, m) && states[k] == w.queue && states[l] == w'.queue
  }

  lemma StretchOf(c: P.Config, worlds: seq<World>, moves: seq<Move>, states: seq<P.State>, n: nat)
    requires IsRun(c, worlds, moves) && 0 < n <= |moves| && Projects(c, worlds, moves, |moves|, states)
    ensures Stretch(worlds[n - 1], moves[n - 1], worlds[n], states, AllSteps(c, worlds, moves, |moves|),
                    At(c, worlds, moves, n - 1), At(c, worlds, moves, n))
  {
    assert Visits(c, worlds, moves, n - 1, states) && Visits(c, worlds, moves, n, states);
    var more := NextSteps(c, worlds, moves, n);
    var rest := StepsAfter(c, worlds, moves, n, |moves|);
    Slice(AllSteps(c, worlds, moves, n - 1), more, rest);
  }

  lemma Slice(before: seq<P.Move>, more: seq<P.Move>, rest: seq<P.Move>)
    ensures (before + more + rest)[|before|..|before + more|] == more
  {
  }

  lemma MildAt(w: World, m: Move, w': World, states: seq<P.State>, steps: seq<P.Move>, k: nat, l: nat, j: nat)
    requires Stretch(w, m, w', states, steps, k, l) && k <= j < l
    ensures steps[j].now == m.now
    ensures m.step.OnQueue? ==> j == k && steps[j] == P.Move(m.step.step, m.now)
    ensures !m.step.OnQueue? ==> steps[j].step.Submit? || steps[j].step.Succeed? || steps[j].step.Fail?
  {
    assert steps[j] == steps[k..l][j - k];
    StepsAreMild(w, m, j - k);
  }

  lemma StretchKeepsLease(c: P.Config, w: World, m: Move, w': World, states: seq<P.State>, steps: seq<P.Move>,
                          k: nat, l: nat, e: Job)
    requires P.IsRun(c, states, steps) && Stretch(w, m, w', states, steps, k, l)
    requires e.leasedAt != 0 && Spares(w, m, e)
    ensures L.Copies(w'.queue.queue.processing, e) >= L.Copies(w.queue.queue.processing, e)
  {
    forall j | k <= j < l
      ensures !L.Acks(states[j], steps[j], e) && !L.Expires(steps[j], e)
    {
      MildAt(w, m, w', states, steps, k, l, j);
    }
    L.LeaseStands(c, states, steps, k, l, e);
  }

  lemma StretchKeepsDelay(c: P.Config, w: World, m: Move, w': World, states: seq<P.State>, steps: seq<P.Move>,
                          k: nat, l: nat, e: Job)
    requires P.IsRun(c, states, steps) && Stretch(w, m, w', states, steps, k, l) && m.now < e.availableAt
    ensures L.Copies(w'.queue.queue.delayed, e) >= L.Copies(w.queue.queue.delayed, e)
  {
    forall j | k <= j < l
      ensures steps[j].now < e.availableAt
    {
      MildAt(w, m, w', states, steps, k, l, j);
    }
    L.DelayStands(c, states, steps, k, l, e);
  }

  lemma NextLeaseStands(c: P.Config, worlds: seq<World>, moves: seq<Move>, n: nat, e: Job)
    requires IsRun(c, worlds, moves) && 0 < n <= |moves| && e.leasedAt != 0 && Spares(worlds[n - 1], moves[n - 1], e)
    ensures L.Copies(worlds[n].queue.queue.processing, e) >= L.Copies(worlds[n - 1].queue.queue.processing, e)
  {
    var states := OneRun(c, worlds, moves, |moves|);
    StretchOf(c, worlds, moves, states, n);
    StretchKeepsLease(c, worlds[n - 1], moves[n - 1], worlds[n], states, AllSteps(c, worlds, moves, |moves|),
                      At(c, worlds, moves, n - 1), At(c, worlds, moves, n), e);
  }

  lemma NextDelayStands(c: P.Config, worlds: seq<World>, moves: seq<Move>, n: nat, e: Job)
    requires IsRun(c, worlds, moves) && 0 < n <= |moves| && moves[n - 1].now < e.availableAt
    ensures L.Copies(worlds[n].queue.queue.delayed, e) >= L.Copies(worlds[n - 1].queue.queue.delayed, e)
  {
    var states := OneRun(c, worlds, moves, |moves|);
    StretchOf(c, worlds, moves, states, n);
    StretchKeepsDelay(c, worlds[n - 1], moves[n - 1], worlds[n], states, AllSteps(c, worlds, moves, |moves|),
                      At(c, worlds, moves, n - 1), At(c, worlds, moves, n), e);
  }

  /** In the whole system, too, no copy of a lease leaves the processing list before an ack takes it or
      a reclaim finds it stale. */
  lemma {:induction false} LeaseStands(c: P.Config, worlds: seq<World>, moves: seq<Move>, k: nat, n: nat, e: Job)
    requires IsRun(c, worlds, moves) && k <= n <= |moves| && e.leasedAt != 0
    requires forall i :: k <= i < n ==> Spares(worlds[i], moves[i], e)
    ensures L.Copies(worlds[n].queue.queue.processing, e) >= L.Copies(worlds[k].queue.queue.processing, e)
    decreases n
  {
    if k < n {
      LeaseStands(c, worlds, moves, k, n - 1, e);
      NextLeaseStands(c, worlds, moves, n, e);
    }
  }

  /** And no copy of a delayed entry leaves the delayed list before it is due. */
  lemma {:induction false} DelayStands(c: P.Config, worlds: seq<World>, moves: seq<Move>, k: nat, n: nat, e: Job)
    requires IsRun(c, worlds, moves) && k <= n <= |moves|
    requires forall i :: k <= i < n ==> moves[i].now < e.availableAt
    ensures L.Copies(worlds[n].queue.queue.delayed, e) >= L.Copies(worlds[k].queue.queue.delayed, e)
    decreases n
  {
    if k < n {
      DelayStands(c, worlds, moves, k, n - 1, e);
      NextDelayStands(c, worlds, moves, n, e);
    }
  }

  // ----- Hand-outs

  /** Whether the step hands the job out. */
  ghost function Delivers(w: World, m: Move, id: string): nat {
    if m.step.OnQueue? then B.Delivers(w.queue, P.Move(m.step.step, m.now), id) else 0
  }

  /** How many of the protocol moves submit the job. */
  function Submitted(steps: seq<P.Move>, id: string): nat {
    if steps == [] then 0 else
      var last := steps[|steps| - 1].step;
      Submitted(steps[..|steps| - 1], id) + if last.Submit? && last.id == id then 1 else 0
  }

  /** How many entries of the job the step makes ready anew: by replay or reclaim, or by scheduling. */
  ghost function Grants(w: World, m: Move, id: string): nat
    requires Enabled(w, m)
  {
    if m.step.OnQueue? then B.Grants(w.queue, P.Move(m.step.step, m.now), id)
    else Submitted(StepsOf(w, m), id)
  }

  ghost function Deliveries(worlds: seq<World>, moves: seq<Move>, id: string, k: nat, n: nat): nat
    requires k <= n <= |moves| < |worlds|
  {
    if n == k then 0 else
      Deliveries(worlds, moves, id, k, n - 1) + Delivers(worlds[n - 1], moves[n - 1], id)
  }

  ghost function Granted(c: P.Config, worlds: seq<World>, moves: seq<Move>, id: string, k: nat, n: nat): nat
    requires IsRun(c, worlds, moves) && k <= n <= |moves|
  {
    if n == k then 0 else
      assert Linked(c, worlds[n - 1], moves[n - 1], worlds[n]);
      Granted(c, worlds, moves, id, k, n - 1) + Grants(worlds[n - 1], moves[n - 1], id)
  }

  /** Over moves that only submit jobs and end handlers nothing is handed out. */
  lemma {:induction false} MildStretch(states: seq<P.State>, steps: seq<P.Move>, id: string, k: nat, l: nat)
    requires k <= l <= |steps| < |states|
    requires forall j :: k <= j < l ==> steps[j].step.Submit? || steps[j].step.Succeed? || steps[j].step.Fail?
    ensures B.Deliveries(states, steps, id, k, l) == 0
    ensures B.Granted(states, steps, id, k, l) == Submitted(steps[k..l], id)
    decreases l
  {
    if k < l {
      MildStretch(states, steps, id, k, l - 1);
      assert steps[k..l][..l - k - 1] == steps[k..l - 1];
    }
  }

  lemma StretchCounts(w: World, m: Move, w': World, states: seq<P.State>, steps: seq<P.Move>, k: nat, l: nat,
                      id: string)
    requires Stretch(w, m, w', states, steps, k, l)
    ensures B.Deliveries(states, steps, id, k, l) == Delivers(w, m, id)
    ensures B.Granted(states, steps, id, k, l) == Grants(w, m, id)
  {
    forall j | k <= j < l
      ensures steps[j].now == m.now
      ensures m.step.OnQueue? ==> j == k && steps[j] == P.Move(m.step.step, m.now)
      ensures !m.step.OnQueue? ==> steps[j].step.Submit? || steps[j].step.Succeed? || steps[j].step.Fail?
    {
      MildAt(w, m, w', states, steps, k, l, j);
    }
    if m.step.OnQueue? {
      assert l == k + 1;
      assert B.Deliveries(states, steps, id, k, k) == 0 && B.Granted(states, steps, id, k, k) == 0;
    } else {
      MildStretch(states, steps, id, k, l);
    }
  }

  lemma {:induction false} CountsAdd(states: seq<P.State>, steps: seq<P.Move>, id: string, k: nat, l: nat, n: nat)
    requires k <= l <= n <= |steps| < |states|
    ensures B.Deliveries(states, steps, id, k, n) ==
            B.Deliveries(states, steps, id, k, l) + B.Deliveries(states, steps, id, l, n)
    ensures B.Granted(states, steps, id, k, n) ==
            B.Granted(states, steps, id, k, l) + B.Granted(states, steps, id, l, n)
    decreases n
  {
    if l < n {
      CountsAdd(states, steps, id, k, l, n - 1);
    }
  }

  /** The counts over worlds are those over the projected run. */
  ghost predicate SameCounts(c: P.Config, worlds: seq<World>, moves: seq<Move>, states: seq<P.State>,
                             steps: seq<P.Move>, id: string, k: nat, n: nat, a: nat, b: nat)
    requires IsRun(c, worlds, moves) && k <= n <= |moves|
  {
    && a <= b <= |steps| < |states|
    && B.Deliveries(states, steps, id, a, b) == Deliveries(worlds, moves, id, k, n)
    && B.Granted(states, steps, id, a, b) == Granted(c, worlds, moves, id, k, n)
  }

  lemma NextCounts(c: P.Config, worlds: seq<World>, moves: seq<Move>, states: seq<P.State>, steps: seq<P.Move>,
                   id: string, k: nat, n: nat, a: nat, b: nat, b': nat)
    requires IsRun(c, worlds, moves) && k < n <= |moves|
    requires SameCounts(c, worlds, moves, states, steps, id, k, n - 1, a, b)
    requires Stretch(worlds[n - 1], moves[n - 1], worlds[n], states, steps, b, b')
    ensures SameCounts(c, worlds, moves, states, steps, id, k, n, a, b')
  {
    StretchCounts(worlds[n - 1], moves[n - 1], worlds[n], states, steps, b, b', id);
    CountsAdd(states, steps, id, a, b, b');
  }

  lemma {:induction false} CountsProject(c: P.Config, worlds: seq<World>, moves: seq<Move>, states: seq<P.State>,
                                         id: string, k: nat, n: nat)
    requires IsRun(c, worlds, moves) && k <= n <= |moves| && Projects(c, worlds, moves, |moves|, states)
    ensures SameCounts(c, worlds, moves, states, AllSteps(c, worlds, moves, |moves|), id, k, n,
                       At(c, worlds, moves, k), At(c, worlds, moves, n))
    decreases n
  {
    if k == n {
      var _ := StepsAfter(c, worlds, moves, n, |moves|);
    } else {
      CountsProject(c, worlds, moves, states, id, k, n - 1);
      StretchOf(c, worlds, moves, states, n);
      NextCounts(c, worlds, moves, states, AllSteps(c, worlds, moves, |moves|), id, k, n,
                 At(c, worlds, moves, k), At(c, worlds, moves, n - 1), At(c, worlds, moves, n));
    }
  }

  /** Over any stretch of any run of the whole system, hand-outs of a job are paid for by the attempts
      left at its start and by maxAttempts for each entry made ready anew. */
  lemma BudgetHolds(c: P.Config, worlds: seq<World>, moves: seq<Move>, id: string, k: nat, n: nat)
    requires IsRun(c, worlds, moves) && k <= n <= |moves|
    ensures Deliveries(worlds, moves, id, k, n) + B.Potential(c, worlds[n].queue, id)
         <= B.Potential(c, worlds[k].queue, id) + c.maxAttempts * Granted(c, worlds, moves, id, k, n)
  {
    var states := OneRun(c, worlds, moves, |moves|);
    CountsProject(c, worlds, moves, states, id, k, n);
    assert Visits(c, worlds, moves, k, states) && Visits(c, worlds, moves, n, states);
    B.BudgetHolds(c, states, AllSteps(c, worlds, moves, |moves|), id, At(c, worlds, moves, k), At(c, worlds, moves, n));
  }

  /** In the whole system a job is handed out at most maxAttempts times per scheduling, replay or
      reclaimed lease. */
  lemma DeliveriesAreBounded(c: P.Config, worlds: seq<World>, moves: seq<Move>, id: string, n: nat)
    requires IsRun(c, worlds, moves) && n <= |moves|
    ensures Deliveries(worlds, moves, id, 0, n) <= c.maxAttempts * Granted(c, worlds, moves, id, 0, n)
  {
    var states := OneRun(c, worlds, moves, |moves|);
    CountsProject(c, worlds, moves, states, id, 0, n);
    var steps := AllSteps(c, worlds, moves, |moves|);
    B.DeliveriesAreBounded(c, states, steps, id, At(c, worlds, moves, n));
  }

  // ----- From one scheduling or replay on

  /** The step schedules the job, or replays a dead letter of it that is its only entry and that no
      worker may still put back. */
  ghost predicate Opens(w: World, m: Move, id: string)
    requires Enabled(w, m)
  {
    match m.step
    case Do(act, jobIds) => id in jobIds[..|EffectOf(w, act, m.now).orders|]
    case OnQueue(step) => B.Opens(w.queue, P.Move(step, m.now), id)
    case _ => false
  }

  lemma SubmittedSnoc(steps: seq<P.Move>, m: P.Move, id: string)
    ensures Submitted(steps + [m], id) == Submitted(steps, id) + if m.step.Submit? && m.step.id == id then 1 else 0
  {
    assert (steps + [m])[..|steps|] == steps;
  }

  lemma OneMore(jobIds: seq<string>, n: nat, id: string)
    requires n < |jobIds| && forall i, j :: 0 <= i < j < |jobIds| ==> jobIds[i] != jobIds[j]
    ensures id in jobIds[..n + 1] <==> id in jobIds[..n] || id == jobIds[n]
    ensures jobIds[n] !in jobIds[..n]
  {
    assert jobIds[..n + 1] == jobIds[..n] + [jobIds[n]];
  }

  lemma {:induction false} SubmittedOnce(orders: seq<Order>, jobIds: seq<string>, now: Time, id: string)
    requires |orders| <= |jobIds| && forall i, j :: 0 <= i < j < |jobIds| ==> jobIds[i] != jobIds[j]
    ensures Submitted(Submissions(orders, jobIds, now), id) == if id in jobIds[..|orders|] then 1 else 0
  {
    if orders != [] {
      var n := |orders| - 1;
      SubmittedOnce(orders[..n], jobIds, now, id);
      SubmittedSnoc(Submissions(orders[..n], jobIds, now),
                    P.Move(P.Submit(jobIds[n], orders[n].name, orders[n].delay), now), id);
      OneMore(jobIds, n, id);
    }
  }

  /** Before such a step nothing is left of the job to hand out. */
  lemma NothingLeftBefore(c: P.Config, w: World, m: Move, id: string)
    requires Enabled(w, m) && P.Accounted(w.queue, id) && Opens(w, m, id)
    ensures B.Potential(c, w.queue, id) == 0 && Grants(w, m, id) == 1
  {
    if m.step.OnQueue? {
      B.NothingLeftBefore(c, w.queue, P.Move(m.step.step, m.now), id);
    } else {
      var orders := EffectOf(w, m.step.act, m.now).orders;
      B.UnknownHasNoCredit(c, w.queue, id);
      SubmittedOnce(orders, m.step.jobIds, m.now, id);
      EndingSubmitsNothing(w, m, id);
    }
  }

  lemma EndingSubmitsNothing(w: World, m: Move, id: string)
    requires Enabled(w, m) && m.step.Do?
    ensures Submitted(StepsOf(w, m), id) ==
            Submitted(Submissions(EffectOf(w, m.step.act, m.now).orders, m.step.jobIds, m.now), id)
  {
    var subs := Submissions(EffectOf(w, m.step.act, m.now).orders, m.step.jobIds, m.now);
    if m.step.act.Handle? {
      assert StepsOf(w, m)[..|subs|] == subs;
    } else {
      assert StepsOf(w, m) == subs;
    }
  }

  /** The retry bound for the whole system: from the scheduling or the replay of a job on, as long as
      that is the only move to make an entry of it ready anew, it is handed out at most maxAttempts
      times. */
  lemma AttemptsAreBounded(c: P.Config, worlds: seq<World>, moves: seq<Move>, id: string, k: nat, n: nat)
    requires IsRun(c, worlds, moves) && k < n <= |moves|
    requires Enabled(worlds[k], moves[k]) && Opens(worlds[k], moves[k], id)
    requires Granted(c, worlds, moves, id, k, n) == 1
    ensures Deliveries(worlds, moves, id, k, n) <= c.maxAttempts
  {
    WorldsKeepJobs(c, worlds, moves, k, id);
    WorldsKeepJobs(c, worlds, moves, n, id);
    NothingLeftBefore(c, worlds[k], moves[k], id);
    B.PotentialIsNatural(c, worlds[n].queue, id);
    BudgetHolds(c, worlds, moves, id, k, n);
    B.OneGrant(c.maxAttempts, Granted(c, worlds, moves, id, k, n), Deliveries(worlds, moves, id, k, n),
               B.Potential(c, worlds[k].queue, id), B.Potential(c, worlds[n].queue, id));
  }
}
