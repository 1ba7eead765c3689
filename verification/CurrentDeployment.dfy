/** An app's current deployment: empty, or one of its own that is not deleted. */
module CurrentDeployment {
  import opened Domain
  import opened Deployments
  import opened StoreInvariants

  predicate PointsOk(st: Store, app: App) {
    app.currentDeploymentId != "" ==>
      && app.currentDeploymentId in st.deployments
      && var d := st.deployments[app.currentDeploymentId];
         d.appId == app.id && d.tenantId == app.tenantId && d.status != Deleted
  }

  ghost predicate CurrentOk(st: Store) {
    forall id :: id in st.apps ==> PointsOk(st, st.apps[id])
  }

  /** Writing a record that is not deleted keeps every pointer good. */
  lemma WriteKeepsCurrent(st: Store, d: Deployment, kind: EventKind, message: string, now: Time)
    requires CurrentOk(st) && d.status != Deleted
    requires d.id in st.deployments ==> SameIdentity(st.deployments[d.id], d)
    ensures CurrentOk(Record(st, d, kind, message, now))
  {
    var st' := Record(st, d, kind, message, now);
    forall id | id in st'.apps
      ensures PointsOk(st', st'.apps[id])
    {
      assert PointsOk(st, st.apps[id]);
    }
  }

  lemma PointingKeepsCurrent(st: Store, app: App, target: string)
    requires CurrentOk(st) && PointsOk(st, app.(currentDeploymentId := target))
    ensures CurrentOk(PointApp(st, app, target))
  {
    var st' := PointApp(st, app, target);
    forall id | id in st'.apps
      ensures PointsOk(st', st'.apps[id])
    {
      assert id != app.id ==> PointsOk(st, st.apps[id]);
    }
  }

  lemma ServiceKeepsCurrent(st: Store, e: Effect, tenantId: string, id: string, now: Time)
    requires RecordsOk(st) && CurrentOk(st)
    requires e == RetryDeployment(st, tenantId, id, now) || e == CancelDeployment(st, tenantId, id, now)
             || e == DeleteDeployment(st, tenantId, id, now)
    ensures CurrentOk(e.store)
  {
    var found := GetDeployment(st, tenantId, id);
    if found.Some? && e.store != st {
      var d := found.value;
      WriteKeepsCurrent(st, Requeued(d, now), RetryQueued, MSG_RETRY, now);
      WriteKeepsCurrent(st, Marked(d, Cancelled, MSG_CANCELLED, now), StatusEvent(Cancelled), MSG_CANCELLED, now);
      WriteKeepsCurrent(st, Marked(d, Deleting, MSG_DELETING, now), StatusEvent(Deleting), MSG_DELETING, now);
    }
  }

  lemma CreateKeepsCurrent(st: Store, job: JobName, reply: Result<BackendStatus>, now: Time)
    requires RecordsOk(st) && CurrentOk(st) && NameOk(st, job) && SubmitAnswers(reply)
    ensures CurrentOk(HandleCreate(st, job, reply, now).store)
  {
    var d, app := st.deployments[job.deploymentId], GetApp(st, job.tenantId, job.appId);
    if d.status !in {Cancelled, Deleting, Deleted} && app.Some? {
      SubmittedKeepsCurrent(st, d, app.value, reply, now);
    }
  }

  lemma SubmittedKeepsCurrent(st: Store, d: Deployment, app: App, reply: Result<BackendStatus>, now: Time)
    requires CurrentOk(st) && d.id in st.deployments && st.deployments[d.id] == d && SubmitAnswers(reply)
    requires d.appId == app.id && d.tenantId == app.tenantId
    ensures CurrentOk(Submitted(st, d, app, reply, now).store)
  {
    var d1, st1 := Marked(d, Provisioning, MSG_CREATING, now), Mark(st, d, Provisioning, MSG_CREATING, now);
    WriteKeepsCurrent(st, d1, StatusEvent(Provisioning), MSG_CREATING, now);
    match reply
    case Err(e) =>
      WriteKeepsCurrent(st1, Marked(d1, Failed, ErrorText(e), now), StatusEvent(Failed), ErrorText(e), now);
    case Ok(s) =>
      var d2 := d1.(backendRef := s.ref);
      WriteKeepsCurrent(st1, Marked(d2, s.status, s.reason, now), StatusEvent(s.status), s.reason, now);
      PointingKeepsCurrent(Mark(st1, d2, s.status, s.reason, now), app, d.id);
  }

  lemma SyncKeepsCurrent(st: Store, job: JobName, reply: Result<BackendStatus>, now: Time)
    requires RecordsOk(st) && CurrentOk(st) && NameOk(st, job)
    requires StatusAnswers(st.deployments[job.deploymentId].backendRef, reply)
    ensures CurrentOk(HandleSync(st, job, reply, now).store)
  {
    var d := st.deployments[job.deploymentId];
    if reply.Ok? && d.status !in {Cancelled, Deleted} {
      SyncedKeepsCurrent(st, job, d.(backendRef := reply.value.ref), reply.value, now);
    }
  }

  lemma SyncedKeepsCurrent(st: Store, job: JobName, d: Deployment, s: BackendStatus, now: Time)
    requires CurrentOk(st) && Keyed(st) && d.id in st.deployments && SameIdentity(st.deployments[d.id], d)
    requires d.appId == job.appId && d.tenantId == job.tenantId
    requires s.status in {Provisioning, Running, Degraded, Failed}
    ensures CurrentOk(Synced(st, job, d, s, now).store)
  {
    var repair := QueueAutoRepair(st, d, s.reason, now);
    if s.status == Failed && repair.error == None {
      if d.repairAttempts >= RepairLimit(d) {
        var reason := MSG_LIMIT + s.reason;
        WriteKeepsCurrent(st, Marked(d, Failed, reason, now), StatusEvent(Failed), reason, now);
      } else {
        var r := Repairing(d, s.reason, now);
        WriteKeepsCurrent(st, r, AutoRepairQueued, r.statusReason, now);
      }
    } else {
      var st1 := Mark(st, d, s.status, s.reason, now);
      WriteKeepsCurrent(st, Marked(d, s.status, s.reason, now), StatusEvent(s.status), s.reason, now);
      var app := GetApp(st1, job.tenantId, job.appId);
      if s.status == Running && app.Some? {
        PointingKeepsCurrent(st1, app.value, d.id);
      }
    }
  }

  /** Deleting clears the only pointer that can name the deployment: that of its own app. */
  lemma DeletedKeepsPointer(st: Store, d: Deployment, app: App, id: string, st': Store, now: Time)
    requires CurrentOk(st) && Keyed(st) && d.id in st.deployments && st.deployments[d.id] == d
    requires app.id == d.appId && app.id in st.apps && st.apps[app.id] == app && id in st.apps
    requires var st1 := Mark(st, d, Deleted, MSG_DELETED, now);
             st' == if app.currentDeploymentId == d.id then PointApp(st1, app, "") else st1
    ensures id in st'.apps && PointsOk(st', st'.apps[id])
  {
    assert PointsOk(st, st.apps[id]);
  }

  lemma DeleteKeepsCurrent(st: Store, job: JobName, reply: Result<()>, now: Time)
    requires RecordsOk(st) && CurrentOk(st) && NameOk(st, job)
    ensures CurrentOk(HandleDelete(st, job, reply, now).store)
  {
    var d, st' := st.deployments[job.deploymentId], HandleDelete(st, job, reply, now).store;
    if reply.Err? {
      var text := ErrorText(reply.error);
      WriteKeepsCurrent(st, Marked(d, Failed, text, now), StatusEvent(Failed), text, now);
    } else {
      assert DeploymentOk(st, d);
      var app := st.apps[job.appId];
      forall id | id in st'.apps
        ensures PointsOk(st', st'.apps[id])
      {
        DeletedKeepsPointer(st, d, app, id, st', now);
      }
    }
  }
}
