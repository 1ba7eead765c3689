/** Which deployment a service call or a handler run can change, and what becomes of it: only
    the one it was called for, stamped with the instant of the call. */
module Footprint {
  import opened Domain
  import opened Deployments

  /** At most the target changes, and if it does the change is stamped with the given instant;
      version counters stay. */
  predicate TouchesOnly(st: Store, st': Store, target: string, now: Time) {
    (st'.deployments == st.deployments || Writes(st, st', target, now)) && st'.versions == st.versions
  }

  predicate Writes(st: Store, st': Store, target: string, now: Time) {
    && target in st.deployments && target in st'.deployments
    && st'.deployments == st.deployments[target := st'.deployments[target]]
    && st'.deployments[target].updatedAt == now
  }

  lemma RetryTouches(st: Store, tenantId: string, id: string, now: Time)
    requires Keyed(st)
    ensures TouchesOnly(st, RetryDeployment(st, tenantId, id, now).store, id, now)
  {
  }

  lemma CancelTouches(st: Store, tenantId: string, id: string, now: Time)
    requires Keyed(st)
    ensures TouchesOnly(st, CancelDeployment(st, tenantId, id, now).store, id, now)
  {
  }

  lemma RemoveTouches(st: Store, tenantId: string, id: string, now: Time)
    requires Keyed(st)
    ensures TouchesOnly(st, DeleteDeployment(st, tenantId, id, now).store, id, now)
  {
  }

  lemma CreateTouches(st: Store, job: JobName, reply: Result<BackendStatus>, now: Time)
    requires Keyed(st)
    ensures TouchesOnly(st, HandleCreate(st, job, reply, now).store, job.deploymentId, now)
  {
  }

  lemma RepairTouches(st: Store, d: Deployment, reason: string, now: Time)
    requires d.id in st.deployments
    ensures TouchesOnly(st, QueueAutoRepair(st, d, reason, now).store, d.id, now)
  {
  }

  lemma SyncedTouches(st: Store, job: JobName, d: Deployment, s: BackendStatus, now: Time)
    requires d.id in st.deployments
    ensures TouchesOnly(st, Synced(st, job, d, s, now).store, d.id, now)
  {
    if s.status == Failed && QueueAutoRepair(st, d, s.reason, now).error == None {
      RepairTouches(st, d, s.reason, now);
    } else {
      var st1 := Mark(st, d, s.status, s.reason, now);
      assert Writes(st, st1, d.id, now);
      assert Synced(st, job, d, s, now).store.deployments == st1.deployments;
      assert Synced(st, job, d, s, now).store.versions == st.versions;
    }
  }

  lemma SyncTouches(st: Store, job: JobName, reply: Result<BackendStatus>, now: Time)
    requires Keyed(st)
    ensures TouchesOnly(st, HandleSync(st, job, reply, now).store, job.deploymentId, now)
  {
    var found := GetDeployment(st, job.tenantId, job.deploymentId);
    if found.Some? && reply.Ok? {
      SyncedTouches(st, job, found.value.(backendRef := reply.value.ref), reply.value, now);
    }
  }

  lemma DeleteTouches(st: Store, job: JobName, reply: Result<()>, now: Time)
    requires Keyed(st)
    ensures TouchesOnly(st, HandleDelete(st, job, reply, now).store, job.deploymentId, now)
  {
  }
}
