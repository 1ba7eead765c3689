/** The scheduler, the deployment service and the reconciler as they run: objects that update the
    store, the event log and the queue step by step, each call ending where the functions of
    Deployments say. */
module Services {
  import opened Domain
  import opened Deployments
  import opened Scheduling
  import opened Policy
  import opened MemoryStore
  import opened MemoryQueue
  import Q = QueueSpec

  class Scheduler {
    const queue: Client

    ghost predicate Valid()
      reads this, queue
    {
      queue.Valid()
    }

    constructor (queue: Client)
      requires queue.Valid()
      ensures Valid() && this.queue == queue
    {
      this.queue := queue;
    }

    method ScheduleDeployment(d: Deployment, jobId: string, now: Time)
      requires Valid()
      modifies queue
      ensures Valid() && queue.delayed == old(queue.delayed) && queue.processing == old(queue.processing)
      ensures queue.Contents() == Place(old(queue.Contents()), CreateOrder(d), jobId, now)
    {
      queue.Enqueue(Job(jobId, DeployCreate, d.tenantId, d.appId, d.id, 0, now, 0, 0, ""), now);
    }

    method ScheduleDelete(d: Deployment, jobId: string, now: Time)
      requires Valid()
      modifies queue
      ensures Valid() && queue.delayed == old(queue.delayed) && queue.processing == old(queue.processing)
      ensures queue.Contents() == Place(old(queue.Contents()), DeleteOrder(d), jobId, now)
    {
      queue.Enqueue(Job(jobId, DeployDelete, d.tenantId, d.appId, d.id, 0, now, 0, 0, ""), now);
    }

    method ScheduleSync(d: Deployment, jobId: string, now: Time)
      requires Valid()
      modifies queue, queue.delayed
      ensures Valid() && queue.processing == old(queue.processing)
      ensures queue.delayed == old(queue.delayed) || fresh(queue.delayed)
      ensures queue.Contents() == Place(old(queue.Contents()), SyncOrder(d), jobId, now)
    {
      queue.EnqueueAfter(Job(jobId, DeploySync, d.tenantId, d.appId, d.id, 0, now, 0, 0, ""), 2 * SECOND, now);
    }
  }

  class DeploymentService {
    const store: State
    const scheduler: Scheduler

    ghost predicate Valid()
      reads this, store, scheduler, scheduler.queue
    {
      store.Valid() && scheduler.Valid()
    }

    constructor (store: State, scheduler: Scheduler)
      requires store.Valid() && scheduler.Valid()
      ensures Valid() && this.store == store && this.scheduler == scheduler
    {
      this.store, this.scheduler := store, scheduler;
    }

    /** Writes the new status and the event that records it; the caller's copy of the deployment
        is updated too. */
    method MarkDeploymentStatus(d: Deployment, status: Status, reason: string, now: Time)
      returns (d': Deployment, err: Option<Error>)
      requires Valid()
      modifies store
      ensures Valid() && d' == Marked(d, status, reason, now)
      ensures if d.id in old(store.deployments)
              then err == None && store.Value() == Mark(old(store.Value()), d, status, reason, now)
              else err == Some(NotFound) && store.Value() == old(store.Value())
    {
      d' := d.(status := status, statusReason := reason, updatedAt := now);
      if status == Provisioning && d'.startedAt == None {
        d' := d'.(startedAt := Some(now));
      }
      if status == Running {
        d' := d'.(repairAttempts := 0);
      }
      if status == Running || status == Failed || status == Cancelled || status == Deleted {
        d' := d'.(finishedAt := Some(now));
      }
      err := store.UpdateDeployment(d');
      if err != None {
        return;
      }
      store.CreateEvent(Event(d'.id, d'.tenantId, StatusEvent(status), reason, now));
    }

    /** Takes a version number, stores the queued deployment and schedules its create job. */
    method Create(tenantId: string, user: string, appId: string, id: string, jobId: string, now: Time)
      returns (r: Result<Deployment>)
      requires Valid()
      modifies store, scheduler.queue
      ensures Valid()
      ensures var st, key := old(store.Value()), VersionKey(tenantId, appId);
              var app := GetApp(st, tenantId, appId);
              if app == None then
                && r == Err(NotFound) && store.Value() == st
                && scheduler.queue.Contents() == old(scheduler.queue.Contents())
              else
                var version := VersionOf(st, key) + 1;
                var d := NewDeployment(id, app.value, tenantId, user, version, now);
                var e := CreateDeployment(st.(versions := st.versions[key := version]), d, now);
                && r == Ok(d) && store.Value() == e.store
                && scheduler.queue.Contents() == PlaceAll(old(scheduler.queue.Contents()), e.orders, [jobId], now)
    {
      var app := store.FindApp(tenantId, appId);
      if app == None {
        return Err(NotFound);
      }
      var version := store.NextVersion(tenantId, appId);
      var d := Deployment(id, tenantId, app.value.id, version, app.value.config, Queued, "", NO_REF, user, 0,
                          None, None, now, now);
      store.CreateDeployment(d);
      store.CreateEvent(Event(d.id, d.tenantId, StatusEvent(Queued), "deployment queued", now));
      scheduler.ScheduleDeployment(d, jobId, now);
      r := Ok(d);
    }

    method Retry(tenantId: string, id: string, jobId: string, now: Time) returns (err: Option<Error>)
      requires Valid()
      modifies store, scheduler.queue
      ensures Valid()
      ensures var e := RetryDeployment(old(store.Value()), tenantId, id, now);
              && err == e.error && store.Value() == e.store
              && scheduler.queue.Contents() == PlaceAll(old(scheduler.queue.Contents()), e.orders, [jobId], now)
    {
      var found := store.FindDeployment(tenantId, id);
      if found == None {
        return Some(NotFound);
      }
      var d := found.value;
      if d.status != Failed && d.status != Cancelled {
        return Some(Validation);
      }
      d := d.(status := Queued, statusReason := "", finishedAt := None, repairAttempts := 0, updatedAt := now);
      err := store.UpdateDeployment(d);
      store.CreateEvent(Event(d.id, d.tenantId, RetryQueued, "deployment retry queued", now));
      scheduler.ScheduleDeployment(d, jobId, now);
    }

    method QueueRepair(d: Deployment, reason: string, jobId: string, now: Time) returns (err: Option<Error>)
      requires Valid()
      modifies store, scheduler.queue
      ensures Valid() && scheduler.queue.delayed == old(scheduler.queue.delayed)
      ensures d.id in old(store.deployments) || !AutoRepairs(d) ==>
                var e := QueueAutoRepair(old(store.Value()), d, reason, now);
                && err == e.error && store.Value() == e.store
                && scheduler.queue.Contents() == PlaceAll(old(scheduler.queue.Contents()), e.orders, [jobId], now)
      ensures d.id !in old(store.deployments) && AutoRepairs(d) ==>
                && err == Some(NotFound) && store.Value() == old(store.Value())
                && scheduler.queue.Contents() == old(scheduler.queue.Contents())
    {
      var policy := Normalize(d.snapshot.reliability);
      if !policy.autoRepair {
        return Some(Validation);
      }
      if policy.maxRepairAttempts <= 0 {
        policy := policy.(maxRepairAttempts := 3);
      }
      if d.repairAttempts >= policy.maxRepairAttempts {
        var _, e := MarkDeploymentStatus(d, Failed, "auto-repair limit reached: " + reason, now);
        return e;
      }
      var r := d.(repairAttempts := d.repairAttempts + 1, status := Recovering,
                  statusReason := "auto-repair queued: " + reason, finishedAt := None, updatedAt := now);
      err := store.UpdateDeployment(r);
      if err != None {
        return;
      }
      store.CreateEvent(Event(r.id, r.tenantId, AutoRepairQueued, r.statusReason, now));
      scheduler.ScheduleDeployment(r, jobId, now);
    }

    method Cancel(tenantId: string, id: string, now: Time) returns (err: Option<Error>)
      requires Valid()
      modifies store
      ensures Valid()
      ensures var e := CancelDeployment(old(store.Value()), tenantId, id, now);
              err == e.error && store.Value() == e.store && e.orders == []
    {
      var found := store.FindDeployment(tenantId, id);
      if found == None {
        return Some(NotFound);
      }
      if found.value.status != Queued && found.value.status != Provisioning {
        return Some(Validation);
      }
      var _, e := MarkDeploymentStatus(found.value, Cancelled, "deployment cancelled", now);
      err := e;
    }

    method Delete(tenantId: string, id: string, jobId: string, now: Time) returns (err: Option<Error>)
      requires Valid()
      modifies store, scheduler.queue
      ensures Valid()
      ensures var e := DeleteDeployment(old(store.Value()), tenantId, id, now);
              && err == e.error && store.Value() == e.store
              && scheduler.queue.Contents() == PlaceAll(old(scheduler.queue.Contents()), e.orders, [jobId], now)
    {
      var found := store.FindDeployment(tenantId, id);
      if found == None {
        return Some(NotFound);
      }
      if found.value.status == Deleted || found.value.status == Deleting {
        return None;
      }
      var d, e := MarkDeploymentStatus(found.value, Deleting, "deployment deletion queued", now);
      if e != None {
        return e;
      }
      scheduler.ScheduleDelete(d, jobId, now);
      err := None;
    }
  }

  // ----- Reconciliation

  datatype ReconcileResult = ReconcileResult(scanned: nat, scheduled: nat, skipped: nat)

  /** Scheduling by status: a delete job for a deployment being deleted, a create job for one that is queued or
      has no backend object, a sync job two seconds ahead for any other active one, and nothing for one that is
      over. */
  predicate Reconciled(q: Q.Queue, q': Q.Queue, d: Deployment, jobId: string, now: Time, scheduled: bool) {
    match d.status
    case Deleting => scheduled && Gains(q, q', DeployDelete, d, jobId, None, now)
    case Queued => scheduled && Gains(q, q', DeployCreate, d, jobId, None, now)
    case Failed | Cancelled | Deleted => !scheduled && q' == q
    case _ =>
      && scheduled
      && if d.backendRef.namespace == "" || d.backendRef.deployment == ""
         then Gains(q, q', DeployCreate, d, jobId, None, now)
         else Gains(q, q', DeploySync, d, jobId, Some(2_000_000_000), now)
  }

  lemma OrderReconciles(q: Q.Queue, d: Deployment, jobId: string, now: Time)
    ensures var o := ReconcileOrder(d);
            Reconciled(q, if o.Some? then Place(q, o.value, jobId, now) else q, d, jobId, now, o.Some?)
  {
  }

  class ReliabilityService {
    const store: State
    const scheduler: Scheduler

    ghost predicate Valid()
      reads this, store, scheduler, scheduler.queue
    {
      store.Valid() && scheduler.Valid()
    }

    constructor (store: State, scheduler: Scheduler)
      requires store.Valid() && scheduler.Valid()
      ensures Valid() && this.store == store && this.scheduler == scheduler
    {
      this.store, this.scheduler := store, scheduler;
    }

    /** Schedules the job the deployment's status calls for, if any. */
    method ScheduleReconcile(d: Deployment, jobId: string, now: Time) returns (scheduled: bool)
      requires Valid()
      modifies scheduler.queue, scheduler.queue.delayed
      ensures Valid() && scheduler.queue.processing == old(scheduler.queue.processing)
      ensures scheduler.queue.delayed == old(scheduler.queue.delayed) || fresh(scheduler.queue.delayed)
      ensures var o := ReconcileOrder(d);
              && scheduled == o.Some?
              && scheduler.queue.Contents() ==
                 if o.Some? then Place(old(scheduler.queue.Contents()), o.value, jobId, now)
                 else old(scheduler.queue.Contents())
      ensures Reconciled(old(scheduler.queue.Contents()), scheduler.queue.Contents(), d, jobId, now, scheduled)
    {
      scheduled := true;
      OrderReconciles(scheduler.queue.Contents(), d, jobId, now);
      match d.status
      case Queued => scheduler.ScheduleDeployment(d, jobId, now);
      case Deleting => scheduler.ScheduleDelete(d, jobId, now);
      case Provisioning | Running | Degraded | Recovering =>
        if d.backendRef.deployment == "" || d.backendRef.namespace == "" {
          scheduler.ScheduleDeployment(d, jobId, now);
        } else {
          scheduler.ScheduleSync(d, jobId, now);
        }
      case _ => scheduled := false;
    }

    /** One pass: nothing listed is skipped, and the queue gains the jobs of the listed
        deployments in order. */
    method ReconcileOnce(limit: int, jobIds: seq<string>, now: Time)
      returns (r: ReconcileResult, ghost items: seq<Deployment>)
      requires Valid() && |store.deployments| <= |jobIds|
      modifies scheduler.queue, scheduler.queue.delayed
      ensures Valid() && store.Value() == old(store.Value())
      ensures OldestActive(store.Value(), EffectiveLimit(limit), items)
      ensures r == ReconcileResult(|items|, |items|, 0)
      ensures |ReconcileOrders(items)| == |items| <= |jobIds|
      ensures scheduler.queue.Contents() ==
              PlaceAll(old(scheduler.queue.Contents()), ReconcileOrders(items), jobIds, now)
    {
      ghost var before := scheduler.queue.Contents();
      var lim := if limit <= 0 then 100 else limit;
      var list := store.ListActive(lim);
      items := list;
      ListFits(store.Value(), lim, list);
      var scheduled, skipped := 0, 0;
      for i := 0 to |list|
        invariant Valid() && store.Value() == old(store.Value())
        invariant scheduled == i && skipped == 0
        invariant scheduler.queue.delayed == old(scheduler.queue.delayed) || fresh(scheduler.queue.delayed)
        invariant |ReconcileOrders(list[..i])| == i
        invariant scheduler.queue.Contents() ==
                  PlaceAll(before, ReconcileOrders(list[..i]), jobIds, now)
      {
        NextOrder(before, list, i, jobIds, now);
        var ok := ScheduleReconcile(list[i], jobIds[i], now);
        if ok {
          scheduled := scheduled + 1;
        } else {
          skipped := skipped + 1;
        }
      }
      assert list[..|list|] == list;
      r := ReconcileResult(|list|, scheduled, skipped);
    }
  }

  /** Placing the orders of one more active deployment. */
  lemma NextOrder(q: Q.Queue, list: seq<Deployment>, i: nat, jobIds: seq<string>, now: Time)
    requires i < |list| <= |jobIds| && Active(list[i].status) && |ReconcileOrders(list[..i])| == i
    ensures ReconcileOrder(list[i]).Some? && |ReconcileOrders(list[..i + 1])| == i + 1
    ensures PlaceAll(q, ReconcileOrders(list[..i + 1]), jobIds, now) ==
            Place(PlaceAll(q, ReconcileOrders(list[..i]), jobIds, now), ReconcileOrder(list[i]).value, jobIds[i], now)
  {
    assert list[..i + 1][..i] == list[..i] && list[..i + 1][i] == list[i];
    assert ReconcileOrders(list[..i + 1])[..i] == ReconcileOrders(list[..i]);
  }

  /** A list of distinct stored deployments is no longer than the store is large. */
  lemma {:induction false} ListFits(st: Store, limit: nat, items: seq<Deployment>)
    requires OldestActive(st, limit, items)
    ensures |items| <= |st.deployments|
  {
    IdsFit(st.deployments.Keys, items);
    assert |st.deployments.Keys| == |st.deployments|;
  }

  lemma {:induction false} IdsFit(keys: set<string>, items: seq<Deployment>)
    requires DistinctIds(items) && forall i :: 0 <= i < |items| ==> items[i].id in keys
    ensures |items| <= |keys|
  {
    if items != [] {
      var n := |items| - 1;
      IdsFit(keys - {items[n].id}, items[..n]);
    }
  }
}
