/** The reconciler: every pass schedules one fitting job for each deployment it lists, and no
    active deployment waits for ever to be listed. */
module Reconciliation {
  import opened Domain
  import opened Deployments
  import opened Scheduling
  import opened Lifecycle
  import opened Exits
  import opened QueueProjection
  import opened WorldInvariants
  import P = WorkerProtocol
  import Q = QueueSpec

  // ----- Completeness

  /** What is active: everything but the failed, the cancelled and the deleted. */
  lemma ActiveIs(status: Status)
    ensures Active(status) <==> status !in {Failed, Cancelled, Deleted}
  {
  }

  /** The job fits the deployment: a delete job exactly if it is being deleted, a create job exactly if it is
      queued or should be there and has no backend object, and otherwise a sync job. */
  predicate Suits(d: Deployment, name: JobName) {
    && name.tenantId == d.tenantId && name.appId == d.appId && name.deploymentId == d.id
    && name.kind in {DeployCreate, DeployDelete, DeploySync}
    && (name.kind == DeployDelete <==> d.status == Deleting)
    && (name.kind == DeployCreate <==>
        || d.status == Queued
        || (d.status != Deleting && (d.backendRef.namespace == "" || d.backendRef.deployment == "")))
  }

  lemma OrderSuits(d: Deployment)
    ensures ReconcileOrder(d).Some? <==> Active(d.status)
    ensures ReconcileOrder(d).Some? ==>
              var o := ReconcileOrder(d).value;
              Suits(d, o.name) && o.delay == if o.name.kind == DeploySync then Some(2_000_000_000) else None
  {
  }

  /** Nothing listed is skipped: the orders are, one for one, those the listed deployments call for. */
  lemma {:induction false} NothingIsSkipped(items: seq<Deployment>)
    requires forall i :: 0 <= i < |items| ==> Active(items[i].status)
    ensures |ReconcileOrders(items)| == |items|
    ensures forall i :: 0 <= i < |items| ==>
              var o := ReconcileOrders(items)[i];
              Suits(items[i], o.name) && o.delay == if o.name.kind == DeploySync then Some(2_000_000_000) else None
  {
    if items != [] {
      var n := |items| - 1;
      NothingIsSkipped(items[..n]);
      OrderSuits(items[n]);
    }
  }

  /** The job an order asks for, in its list of the queue. */
  predicate Waits(q: Q.Queue, o: Order, job: Job, jobId: string, now: Time) {
    && job.id == jobId && NameOf(job) == o.name && job.attempts == 0
    && match o.delay
       case None => job in q.ready && job.availableAt == now
       case Some(t) => job in q.delayed && job.availableAt == now + t
  }

  lemma PlacedWaits(q: Q.Queue, o: Order, jobId: string, now: Time) returns (job: Job)
    ensures Waits(Place(q, o, jobId, now), o, job, jobId, now)
  {
    var q' := Place(q, o, jobId, now);
    job := if o.delay.Some? then q'.delayed[|q'.delayed| - 1] else q'.ready[|q'.ready| - 1];
  }

  lemma WaitsOn(q: Q.Queue, o: Order, jobId: string, now: Time, other: Order, job: Job, id: string)
    requires Waits(q, other, job, id, now)
    ensures Waits(Place(q, o, jobId, now), other, job, id, now)
  {
    var q' := Place(q, o, jobId, now);
    assert job in q.ready ==> job in q'.ready;
    assert job in q.delayed ==> job in q'.delayed;
  }

  lemma {:induction false} PlacedAreWaiting(q: Q.Queue, orders: seq<Order>, jobIds: seq<string>, now: Time, i: nat)
    returns (job: Job)
    requires i < |orders| <= |jobIds|
    ensures Waits(PlaceAll(q, orders, jobIds, now), orders[i], job, jobIds[i], now)
  {
    var n := |orders| - 1;
    var before := PlaceAll(q, orders[..n], jobIds, now);
    if i == n {
      job := PlacedWaits(before, orders[n], jobIds[n], now);
    } else {
      job := PlacedAreWaiting(q, orders[..n], jobIds, now, i);
      WaitsOn(before, orders[n], jobIds[n], now, orders[i], job, jobIds[i]);
    }
  }

  /** Placing orders adds one entry for each id used. */
  lemma {:induction false} PlacedOnce(c: P.Config, q: P.State, orders: seq<Order>, jobIds: seq<string>, now: Time,
                                      i: nat)
    requires |orders| <= |jobIds| && FreshIds(q, jobIds) && q.clock <= now && 0 < now && DelaysOk(orders)
    requires i < |jobIds|
    ensures Q.Total(PlaceJobs(q, orders, jobIds, now).queue, jobIds[i]) ==
            Q.Total(q.queue, jobIds[i]) + if i < |orders| then 1 else 0
  {
    if orders != [] {
      var n := |orders| - 1;
      PlacedOnce(c, q, orders[..n], jobIds, now, i);
      PlacingIsSubmitting(c, q, orders, jobIds, now);
      P.TotalAfter(c, PlaceJobs(q, orders[..n], jobIds, now),
                   P.Move(P.Submit(jobIds[n], orders[n].name, orders[n].delay), now), jobIds[i]);
    }
  }

  /** What a pass does to the queue, job by job. */
  lemma PassPlaces(q: Q.Queue, items: seq<Deployment>, jobIds: seq<string>, now: Time, i: nat)
    returns (o: Order, job: Job)
    requires i < |items| <= |jobIds| && forall k :: 0 <= k < |items| ==> Active(items[k].status)
    ensures |ReconcileOrders(items)| == |items|
    ensures Suits(items[i], o.name) && o.delay == if o.name.kind == DeploySync then Some(2_000_000_000) else None
    ensures Waits(PlaceAll(q, ReconcileOrders(items), jobIds, now), o, job, jobIds[i], now)
  {
    NothingIsSkipped(items);
    o := ReconcileOrders(items)[i];
    job := PlacedAreWaiting(q, ReconcileOrders(items), jobIds, now, i);
  }

  lemma PassAddsOne(c: P.Config, w: World, m: Move, i: nat)
    requires Enabled(w, m) && m.step.Do? && m.step.act.Reconcile?
    requires i < |m.step.act.items| <= |m.step.jobIds| && Q.Total(w.queue.queue, m.step.jobIds[i]) == 0
    ensures Q.Total(Apply(c, w, m).queue.queue, m.step.jobIds[i]) == 1
  {
    var jobIds, items := m.step.jobIds, m.step.act.items;
    NothingIsSkipped(items);
    EffectDelays(w, m.step.act, m.now);
    PlacedOnce(c, w.queue, ReconcileOrders(items), jobIds, m.now, i);
  }

  /** A pass leaves, for each listed deployment, one new job, the only entry with its id: a delete job exactly
      if the deployment is being deleted, a create job exactly if it is queued or has no backend object, both
      ready; and otherwise a sync job, two seconds ahead. */
  lemma PassIsComplete(c: P.Config, worlds: seq<World>, moves: seq<Move>, k: nat, i: nat) returns (job: Job)
    requires IsRun(c, worlds, moves) && k < |moves| && moves[k].step.Do? && moves[k].step.act.Reconcile?
    requires i < |moves[k].step.act.items| <= |moves[k].step.jobIds|
    ensures var d, jobId := moves[k].step.act.items[i], moves[k].step.jobIds[i];
            var now, q := moves[k].now, worlds[k + 1].queue.queue;
            && job.id == jobId && job.tenantId == d.tenantId && job.appId == d.appId && job.deploymentId == d.id
            && Q.Total(q, jobId) == 1
            && (if job.kind == DeploySync then job in q.delayed && job.availableAt == now + 2_000_000_000
                else job in q.ready)
            && (job.kind == DeployDelete <==> d.status == Deleting)
            && (job.kind == DeployCreate <==>
                || d.status == Queued
                || (&& d.status in {Provisioning, Running, Degraded, Recovering}
                    && (d.backendRef.namespace == "" || d.backendRef.deployment == "")))
            && (job.kind == DeploySync <==>
                && d.status in {Provisioning, Running, Degraded, Recovering}
                && d.backendRef.namespace != "" && d.backendRef.deployment != "")
  {
    var w, m, w' := worlds[k], moves[k], worlds[k + 1];
    assert Linked(c, w, m, w');
    WorldsKeepJobs(c, worlds, moves, k, m.step.jobIds[i]);
    PassAddsOne(c, w, m, i);
    var o: Order;
    o, job := PassPlaces(w.queue.queue, m.step.act.items, m.step.jobIds, m.now, i);
  }

  // ----- Time stamps

  ghost predicate StampsOk(w: World) {
    forall id :: id in w.store.deployments ==> w.store.deployments[id].updatedAt <= w.clock
  }

  lemma {:induction false} StampsHold(c: P.Config, worlds: seq<World>, moves: seq<Move>, i: nat)
    requires IsRun(c, worlds, moves) && i < |worlds|
    ensures StampsOk(worlds[i])
  {
    if i > 0 {
      StampsHold(c, worlds, moves, i - 1);
      var w, m, w' := worlds[i - 1], moves[i - 1], worlds[i];
      assert Linked(c, w, m, w');
      InvHolds(c, worlds, moves, i - 1);
      StepTouches(c, w, m);
    }
  }

  /** The clock moves on at every step between two worlds. */
  ghost predicate Ticks(worlds: seq<World>, moves: seq<Move>, i: nat, j: nat)
    requires |worlds| == |moves| + 1
  {
    forall k :: i <= k < j && k < |moves| ==> worlds[k].clock < moves[k].now
  }

  /** The record is that of the earlier world, or was written after it. */
  predicate SameOrNewer(w: World, w': World, id: string) {
    id in w'.store.deployments ==>
      || (id in w.store.deployments && w'.store.deployments[id] == w.store.deployments[id])
      || w'.store.deployments[id].updatedAt > w.clock
  }

  lemma {:induction false} RecordsAge(c: P.Config, worlds: seq<World>, moves: seq<Move>, i: nat, j: nat, id: string)
    requires IsRun(c, worlds, moves) && i <= j < |worlds| && Ticks(worlds, moves, i, j)
    ensures SameOrNewer(worlds[i], worlds[j], id) && worlds[i].clock <= worlds[j].clock
    decreases j
  {
    if i < j {
      RecordsAge(c, worlds, moves, i, j - 1, id);
      NextAges(c, worlds, moves, j, id);
      AgesCompose(worlds[i], worlds[j - 1], worlds[j], id);
    }
  }

  lemma AgesCompose(a: World, b: World, c: World, id: string)
    requires SameOrNewer(a, b, id) && SameOrNewer(b, c, id) && a.clock <= b.clock <= c.clock
    ensures SameOrNewer(a, c, id) && a.clock <= c.clock
  {
  }

  lemma NextAges(c: P.Config, worlds: seq<World>, moves: seq<Move>, k: nat, id: string)
    requires IsRun(c, worlds, moves) && 0 < k < |worlds| && worlds[k - 1].clock < moves[k - 1].now
    ensures SameOrNewer(worlds[k - 1], worlds[k], id) && worlds[k - 1].clock <= worlds[k].clock
  {
    var w, m, w' := worlds[k - 1], moves[k - 1], worlds[k];
    assert Linked(c, w, m, w');
    InvHolds(c, worlds, moves, k - 1);
    StepTouches(c, w, m);
  }

  // ----- Fairness

  /** The active deployments that may be listed before the given one. */
  ghost function Ahead(st: Store, id: string): set<string>
    requires id in st.deployments
  {
    set x | x in st.deployments && x != id && Active(st.deployments[x].status)
            && st.deployments[x].updatedAt <= st.deployments[id].updatedAt
  }

  function IdsOf(items: seq<Deployment>): set<string> {
    set i | 0 <= i < |items| :: items[i].id
  }

  lemma {:induction false} IdsAreCounted(items: seq<Deployment>)
    requires forall i, j :: 0 <= i < j < |items| ==> items[i].id != items[j].id
    ensures |IdsOf(items)| == |items|
  {
    if items != [] {
      var n := |items| - 1;
      IdsAreCounted(items[..n]);
      assert IdsOf(items) == IdsOf(items[..n]) + {items[n].id};
      assert items[n].id !in IdsOf(items[..n]);
    }
  }

  lemma SubsetIsSmaller(a: set<string>, b: set<string>)
    requires a <= b
    ensures |a| <= |b|
  {
    assert b == a + (b - a);
  }

  /** A pass that does not list the deployment lists as many as it may, all of them ahead of it. */
  lemma ListedAreAhead(st: Store, limit: nat, items: seq<Deployment>, id: string)
    requires OldestActive(st, limit, items) && id in st.deployments && Active(st.deployments[id].status)
    requires !Listed(items, id)
    ensures IdsOf(items) <= Ahead(st, id) && |IdsOf(items)| == limit <= |Ahead(st, id)|
  {
    IdsAreCounted(items);
    assert IdsOf(items) <= Ahead(st, id);
    SubsetIsSmaller(IdsOf(items), Ahead(st, id));
  }

  /** Between two passes those listed drop behind, and nobody overtakes. */
  lemma PassShrinks(w: World, w': World, limit: nat, items: seq<Deployment>, id: string)
    requires OldestActive(w.store, limit, items) && !Listed(items, id) && StampsOk(w)
    requires id in w.store.deployments && Active(w.store.deployments[id].status)
    requires id in w'.store.deployments && w'.store.deployments[id] == w.store.deployments[id]
    requires forall x :: SameOrNewer(w, w', x)
    requires forall i :: 0 <= i < |items| ==> Written(w', items[i])
    ensures |Ahead(w'.store, id)| + limit <= |Ahead(w.store, id)|
  {
    ListedAreAhead(w.store, limit, items, id);
    var before, after, done := Ahead(w.store, id), Ahead(w'.store, id), IdsOf(items);
    forall x | x in after
      ensures x in before - done
    {
      assert SameOrNewer(w, w', x);
    }
    assert before == done + (before - done);
    SubsetIsSmaller(after, before - done);
  }

  /** The deployment's record is no longer the one that was listed. */
  predicate Written(w: World, item: Deployment) {
    item.id in w.store.deployments ==> w.store.deployments[item.id] != item
  }

  /** Reconcile passes with one limit at the given moves, in order, the clock moving on and every
      listed deployment's record written before the next pass. */
  ghost predicate Passes(worlds: seq<World>, moves: seq<Move>, limit: nat, at: seq<nat>)
    requires |worlds| == |moves| + 1
  {
    && (forall j :: 0 <= j < |at| ==> at[j] < |moves| && IsPass(moves[at[j]], limit))
    && (forall j :: 0 <= j < |at| - 1 ==> at[j] < at[j + 1])
    && (forall j :: 0 <= j < |at| - 1 ==> AllWritten(worlds[at[j + 1]], moves[at[j]].step.act.items))
    && Ticks(worlds, moves, 0, |moves|)
  }

  predicate IsPass(m: Move, limit: nat) {
    m.step.Do? && m.step.act.Reconcile? && m.step.act.limit == limit
  }

  ghost predicate AllWritten(w: World, items: seq<Deployment>) {
    forall i :: 0 <= i < |items| ==> Written(w, items[i])
  }

  /** The deployment is listed by the j-th pass, or its record has changed since the first. */
  ghost predicate Reached(worlds: seq<World>, moves: seq<Move>, at: seq<nat>, id: string, j: nat)
    requires |worlds| == |moves| + 1 && j < |at| && at[0] < |moves| && at[j] < |moves|
    requires moves[at[j]].step.Do? && moves[at[j]].step.act.Reconcile?
    requires id in worlds[at[0]].store.deployments
  {
    || Listed(moves[at[j]].step.act.items, id)
    || id !in worlds[at[j]].store.deployments
    || worlds[at[j]].store.deployments[id] != worlds[at[0]].store.deployments[id]
  }

  lemma PassLists(c: P.Config, worlds: seq<World>, moves: seq<Move>, k: nat, limit: nat)
    requires IsRun(c, worlds, moves) && k < |moves| && IsPass(moves[k], limit)
    ensures OldestActive(worlds[k].store, limit, moves[k].step.act.items) && limit > 0
  {
    assert Linked(c, worlds[k], moves[k], worlds[k + 1]);
  }

  lemma NextPassShrinks(c: P.Config, worlds: seq<World>, moves: seq<Move>, limit: nat, at: seq<nat>, id: string, j: nat)
    requires IsRun(c, worlds, moves) && Passes(worlds, moves, limit, at) && j + 1 < |at|
    requires id in worlds[at[0]].store.deployments && Active(worlds[at[0]].store.deployments[id].status)
    requires !Reached(worlds, moves, at, id, j) && !Reached(worlds, moves, at, id, j + 1)
    ensures |Ahead(worlds[at[j + 1]].store, id)| + limit <= |Ahead(worlds[at[j]].store, id)|
  {
    var k, l := at[j], at[j + 1];
    PassLists(c, worlds, moves, k, limit);
    StampsHold(c, worlds, moves, k);
    forall x
      ensures SameOrNewer(worlds[k], worlds[l], x)
    {
      RecordsAge(c, worlds, moves, k, l, x);
    }
    assert AllWritten(worlds[l], moves[k].step.act.items);
    PassShrinks(worlds[k], worlds[l], limit, moves[k].step.act.items, id);
  }

  /** While the deployment is not reached, each pass brings it `limit` places forward. */
  lemma {:induction false} Advances(c: P.Config, worlds: seq<World>, moves: seq<Move>, limit: nat, at: seq<nat>,
                                    id: string, j: nat)
    requires IsRun(c, worlds, moves) && Passes(worlds, moves, limit, at) && j < |at|
    requires id in worlds[at[0]].store.deployments && Active(worlds[at[0]].store.deployments[id].status)
    requires forall k :: 0 <= k <= j ==> !Reached(worlds, moves, at, id, k)
    ensures !Reached(worlds, moves, at, id, j)
    ensures |Ahead(worlds[at[j]].store, id)| + j * limit <= |Ahead(worlds[at[0]].store, id)|
  {
    if j > 0 {
      Advances(c, worlds, moves, limit, at, id, j - 1);
      NextPassShrinks(c, worlds, moves, limit, at, id, j - 1);
      assert j * limit == (j - 1) * limit + limit;
    }
  }

  /** No active deployment waits longer than its place in the line says: with p active ones not
      updated after it, it is listed, or its record is written anyway, within p / limit + 1 passes. */
  lemma NoDeploymentStarves(c: P.Config, worlds: seq<World>, moves: seq<Move>, limit: nat, at: seq<nat>, id: string)
    requires IsRun(c, worlds, moves) && Passes(worlds, moves, limit, at) && limit > 0 && at != []
    requires id in worlds[at[0]].store.deployments && Active(worlds[at[0]].store.deployments[id].status)
    requires |Ahead(worlds[at[0]].store, id)| / limit < |at|
    ensures exists j :: 0 <= j <= |Ahead(worlds[at[0]].store, id)| / limit && Reached(worlds, moves, at, id, j)
  {
    var p := |Ahead(worlds[at[0]].store, id)|;
    var n := p / limit;
    assert p < n * limit + limit;
    if forall j :: 0 <= j <= n ==> !Reached(worlds, moves, at, id, j) {
      Advances(c, worlds, moves, limit, at, id, n);
      PassLists(c, worlds, moves, at[n], limit);
      assert !Reached(worlds, moves, at, id, n);
      ListedAreAhead(worlds[at[n]].store, limit, moves[at[n]].step.act.items, id);
    }
  }
}
