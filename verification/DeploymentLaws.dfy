/** What the service calls and job handlers leave: the record, the event, the app's pointer and the job,
    field by field, on every path. */
module DeploymentLaws {
  import opened Domain
  import opened Deployments

  // ----- Records and events

  /** A status mark: it starts a deployment once, finishes it when it runs, fails, is cancelled or deleted,
      clears the repair count when it runs, and touches nothing else. */
  lemma MarkOutcome(d: Deployment, status: Status, reason: string, now: Time)
    ensures var d' := Marked(d, status, reason, now);
            && d'.status == status && d'.statusReason == reason && d'.updatedAt == now
            && (d'.startedAt != d.startedAt ==>
                  status == Provisioning && d.startedAt == None && d'.startedAt == Some(now))
            && (status == Provisioning ==> d'.startedAt.Some?)
            && d'.repairAttempts == (if status == Running then 0 else d.repairAttempts)
            && (status in {Running, Failed, Cancelled, Deleted} ==> d'.finishedAt == Some(now))
            && (status in {Queued, Provisioning, Degraded, Recovering, Deleting} ==> d'.finishedAt == d.finishedAt)
            && d' == d.(status := d'.status, statusReason := d'.statusReason, updatedAt := d'.updatedAt,
                        startedAt := d'.startedAt, repairAttempts := d'.repairAttempts, finishedAt := d'.finishedAt)
  {
  }

  /** The record of one deployment is replaced and one event is logged for it; nothing else changes. */
  ghost predicate Writes(st: Store, st': Store, d: Deployment, kind: EventKind, message: string, now: Time) {
    && st'.deployments == st.deployments[d.id := d] && st'.apps == st.apps && st'.versions == st.versions
    && st'.events == st.events[d.id := EventsOf(st, d.id) + [Event(d.id, d.tenantId, kind, message, now)]]
  }

  predicate Found(st: Store, tenantId: string, id: string) {
    id in st.deployments && st.deployments[id].tenantId == tenantId
  }

  /** Records are found by their own tenant only. */
  lemma TenantsAreApart(st: Store, tenantId: string, id: string)
    ensures GetDeployment(st, tenantId, id).Some? <==> id in st.deployments && st.deployments[id].tenantId == tenantId
    ensures GetApp(st, tenantId, id).Some? <==> id in st.apps && st.apps[id].tenantId == tenantId
    ensures GetDeployment(st, tenantId, id).Some? ==> GetDeployment(st, tenantId, id).value == st.deployments[id]
    ensures GetApp(st, tenantId, id).Some? ==> GetApp(st, tenantId, id).value == st.apps[id]
  {
  }

  // ----- Service calls

  /** A created deployment is queued, logged and ordered to be created. */
  lemma CreateOutcome(st: Store, id: string, app: App, tenantId: string, user: string, version: int, now: Time)
    ensures var d := Deployment(id, tenantId, app.id, version, app.config, Queued, "", BackendRef("", "", "", ""),
                                user, 0, None, None, now, now);
            var e := CreateDeployment(st, NewDeployment(id, app, tenantId, user, version, now), now);
            && Writes(st, e.store, d, StatusEvent(Queued), "deployment queued", now) && e.error == None && e.calls == []
            && e.orders == [Order(JobName(DeployCreate, tenantId, app.id, id), None)]
  {
  }

  /** A retry is for failed and cancelled deployments: they start over. */
  lemma RetryOutcome(st: Store, tenantId: string, id: string, now: Time)
    requires Keyed(st)
    ensures var e := RetryDeployment(st, tenantId, id, now);
            && e.calls == []
            && if !Found(st, tenantId, id) then e.store == st && e.orders == [] && e.error == Some(NotFound)
               else
                 var d := st.deployments[id];
                 if d.status !in {Failed, Cancelled} then e.store == st && e.orders == [] && e.error == Some(Validation)
                 else
                   var d' := d.(status := Queued, statusReason := "", finishedAt := None, repairAttempts := 0,
                                updatedAt := now);
                   && Writes(st, e.store, d', RetryQueued, "deployment retry queued", now) && e.error == None
                   && e.orders == [Order(JobName(DeployCreate, d.tenantId, d.appId, d.id), None)]
  {
  }

  /** Cancelling is for queued and provisioning deployments, and orders nothing. */
  lemma CancelOutcome(st: Store, tenantId: string, id: string, now: Time)
    requires Keyed(st)
    ensures var e := CancelDeployment(st, tenantId, id, now);
            && e.calls == [] && e.orders == []
            && if !Found(st, tenantId, id) then e.store == st && e.error == Some(NotFound)
               else
                 var d := st.deployments[id];
                 if d.status !in {Queued, Provisioning} then e.store == st && e.error == Some(Validation)
                 else
                   var d' := d.(status := Cancelled, statusReason := "deployment cancelled", updatedAt := now,
                                finishedAt := Some(now));
                   Writes(st, e.store, d', StatusEvent(Cancelled), "deployment cancelled", now) && e.error == None
  {
  }

  /** Deleting marks the deployment and orders a delete job, unless that has been done. */
  lemma RemoveOutcome(st: Store, tenantId: string, id: string, now: Time)
    requires Keyed(st)
    ensures var e := DeleteDeployment(st, tenantId, id, now);
            && e.calls == []
            && if !Found(st, tenantId, id) then e.store == st && e.orders == [] && e.error == Some(NotFound)
               else
                 var d := st.deployments[id];
                 if d.status in {Deleting, Deleted} then e.store == st && e.orders == [] && e.error == None
                 else
                   var d' := d.(status := Deleting, statusReason := "deployment deletion queued", updatedAt := now);
                   && Writes(st, e.store, d', StatusEvent(Deleting), "deployment deletion queued", now)
                   && e.error == None && e.orders == [Order(JobName(DeployDelete, d.tenantId, d.appId, d.id), None)]
  {
  }

  // ----- The create handler

  /** A handler for a deployment that is gone does nothing, and one without its records fails. */
  lemma CreateIsRefused(st: Store, job: JobName, reply: Result<BackendStatus>, now: Time)
    ensures var e := HandleCreate(st, job, reply, now);
            && (!Found(st, job.tenantId, job.deploymentId) ==>
                  e == Effect(st, [], [], Some(NotFound)))
            && (Found(st, job.tenantId, job.deploymentId)
                && st.deployments[job.deploymentId].status in {Cancelled, Deleting, Deleted} ==>
                  e == Effect(st, [], [], None))
            && (Found(st, job.tenantId, job.deploymentId)
                && st.deployments[job.deploymentId].status !in {Cancelled, Deleting, Deleted}
                && GetApp(st, job.tenantId, job.appId) == None ==>
                  e == Effect(st, [], [], Some(NotFound)))
  {
  }

  ghost predicate Creatable(st: Store, job: JobName) {
    && Keyed(st) && Found(st, job.tenantId, job.deploymentId) && GetApp(st, job.tenantId, job.appId).Some?
    && st.deployments[job.deploymentId].status !in {Cancelled, Deleting, Deleted}
  }

  /** The log after the create handler: it was provisioning, and then what came of it. */
  function CreateLog(st: Store, d: Deployment, kind: EventKind, message: string, now: Time): seq<Event> {
    EventsOf(st, d.id) + [Event(d.id, d.tenantId, StatusEvent(Provisioning), "creating kubernetes resources", now)]
    + [Event(d.id, d.tenantId, kind, message, now)]
  }

  /** A submission that fails leaves a started, failed deployment and no job. */
  lemma FailedSubmission(st: Store, job: JobName, error: Error, now: Time)
    requires Creatable(st, job)
    ensures var d, e := st.deployments[job.deploymentId], HandleCreate(st, job, Err(error), now);
            var d' := d.(status := Failed, statusReason := ErrorText(error), updatedAt := now, finishedAt := Some(now),
                         startedAt := if d.startedAt == None then Some(now) else d.startedAt);
            && e.store.deployments == st.deployments[d.id := d'] && e.store.apps == st.apps
            && EventsOf(e.store, d.id) == CreateLog(st, d, StatusEvent(Failed), ErrorText(error), now)
            && e.orders == [] && e.calls == [SubmitCall(d.id)] && e.error == Some(error)
  {
  }

  /** A submission that succeeds leaves the reported status and reference and one sync job, two seconds
      ahead; and if it is running at once, the app points at it. */
  lemma Submission(st: Store, job: JobName, s: BackendStatus, now: Time)
    requires Creatable(st, job) && s.status in {Provisioning, Running}
    ensures var d, e := st.deployments[job.deploymentId], HandleCreate(st, job, Ok(s), now);
            && d.id in e.store.deployments && e.store.deployments.Keys == st.deployments.Keys
            && SubmissionRecord(d, e.store.deployments[d.id], s, now)
            && EventsOf(e.store, d.id) == CreateLog(st, d, StatusEvent(s.status), s.reason, now)
            && e.orders == [Order(JobName(DeploySync, d.tenantId, d.appId, d.id), Some(2_000_000_000))]
            && e.calls == [SubmitCall(d.id)] && e.error == None
            && e.store.apps == if s.status != Running then st.apps else
                 st.apps[job.appId := st.apps[job.appId].(currentDeploymentId := d.id)]
  {
  }

  predicate SubmissionRecord(d: Deployment, d': Deployment, s: BackendStatus, now: Time) {
    d' == d.(status := s.status, statusReason := s.reason, backendRef := s.ref, updatedAt := now,
             startedAt := if d.startedAt == None then Some(now) else d.startedAt,
             repairAttempts := if s.status == Running then 0 else d.repairAttempts,
             finishedAt := if s.status == Running then Some(now) else d.finishedAt)
  }

  // ----- The sync handler

  ghost predicate Syncable(st: Store, job: JobName) {
    && Keyed(st) && Found(st, job.tenantId, job.deploymentId)
    && st.deployments[job.deploymentId].status !in {Cancelled, Deleted}
  }

  lemma SyncIsRefused(st: Store, job: JobName, reply: Result<BackendStatus>, now: Time)
    ensures var e := HandleSync(st, job, reply, now);
            && (!Found(st, job.tenantId, job.deploymentId) ==> e == Effect(st, [], [], Some(NotFound)))
            && (Found(st, job.tenantId, job.deploymentId)
                && st.deployments[job.deploymentId].status in {Cancelled, Deleted} ==>
                  e == Effect(st, [], [], None))
            && (Syncable(st, job) && reply.Err? ==>
                  e == Effect(st, [], [StatusCall(st.deployments[job.deploymentId].backendRef)], Some(reply.error)))
  {
  }

  /** A running report: the deployment runs, its repair count starts over, nothing is scheduled, and its
      app points at it. */
  lemma RunningReport(st: Store, job: JobName, s: BackendStatus, now: Time)
    requires Syncable(st, job) && s.status == Running
    ensures var d, e := st.deployments[job.deploymentId], HandleSync(st, job, Ok(s), now);
            var d' := d.(status := Running, statusReason := s.reason, backendRef := s.ref, updatedAt := now,
                         repairAttempts := 0, finishedAt := Some(now));
            var app := GetApp(st, job.tenantId, job.appId);
            && e.store.deployments == st.deployments[d.id := d']
            && EventsOf(e.store, d.id) ==
               EventsOf(st, d.id) + [Event(d.id, d.tenantId, StatusEvent(Running), s.reason, now)]
            && e.orders == [] && e.calls == [StatusCall(d.backendRef)]
            && e.error == (if app.Some? then None else Some(NotFound))
            && e.store.apps == if app == None then st.apps else
                 st.apps[job.appId := app.value.(currentDeploymentId := d.id)]
  {
  }

  /** A provisioning or degraded report: the status is recorded and one sync job follows, two seconds
      ahead. */
  lemma PendingReport(st: Store, job: JobName, s: BackendStatus, now: Time)
    requires Syncable(st, job) && s.status in {Provisioning, Degraded}
    ensures var d, e := st.deployments[job.deploymentId], HandleSync(st, job, Ok(s), now);
            var d' := d.(status := s.status, statusReason := s.reason, backendRef := s.ref, updatedAt := now,
                         startedAt := if s.status == Provisioning && d.startedAt == None then Some(now)
                                      else d.startedAt);
            && Writes(st, e.store, d', StatusEvent(s.status), s.reason, now)
            && e.orders == [Order(JobName(DeploySync, d.tenantId, d.appId, d.id), Some(2_000_000_000))]
            && e.calls == [StatusCall(d.backendRef)] && e.error == None
  {
  }

  /** A failing report: with auto-repair on, a new round and a create job below the limit, and at the limit
      failed for good; with auto-repair off, failed. */
  lemma FailingReport(st: Store, job: JobName, s: BackendStatus, now: Time)
    requires Syncable(st, job) && s.status == Failed
    ensures var d, e := st.deployments[job.deploymentId], HandleSync(st, job, Ok(s), now);
            && e.calls == [StatusCall(d.backendRef)] && e.error == None
            && if AutoRepairs(d) && d.repairAttempts < RepairLimit(d) then
                 var text := "auto-repair queued: " + s.reason;
                 var d' := d.(status := Recovering, statusReason := text, backendRef := s.ref, updatedAt := now,
                              repairAttempts := d.repairAttempts + 1, finishedAt := None);
                 && Writes(st, e.store, d', AutoRepairQueued, text, now)
                 && e.orders == [Order(JobName(DeployCreate, d.tenantId, d.appId, d.id), None)]
               else
                 var text := if AutoRepairs(d) then "auto-repair limit reached: " + s.reason else s.reason;
                 var d' := d.(status := Failed, statusReason := text, backendRef := s.ref, updatedAt := now,
                              finishedAt := Some(now));
                 Writes(st, e.store, d', StatusEvent(Failed), text, now) && e.orders == []
  {
  }

  // ----- The delete handler

  /** A deletion the backend refuses leaves a failed deployment. */
  lemma FailedDeletion(st: Store, job: JobName, error: Error, now: Time)
    requires Keyed(st) && Found(st, job.tenantId, job.deploymentId)
    ensures var d, e := st.deployments[job.deploymentId], HandleDelete(st, job, Err(error), now);
            var d' := d.(status := Failed, statusReason := ErrorText(error), updatedAt := now, finishedAt := Some(now));
            && Writes(st, e.store, d', StatusEvent(Failed), ErrorText(error), now)
            && e.orders == [] && e.calls == [DeleteCall(d.backendRef)] && e.error == Some(error)
  {
  }

  /** A deletion leaves a deleted deployment, and its app without a pointer to it. */
  lemma Deletion(st: Store, job: JobName, now: Time)
    requires Keyed(st) && Found(st, job.tenantId, job.deploymentId)
    ensures var d, e := st.deployments[job.deploymentId], HandleDelete(st, job, Ok(()), now);
            var d' := d.(status := Deleted, statusReason := "deployment deleted", updatedAt := now,
                         finishedAt := Some(now));
            var app := GetApp(st, job.tenantId, job.appId);
            && e.store.deployments == st.deployments[d.id := d']
            && EventsOf(e.store, d.id) ==
               EventsOf(st, d.id) + [Event(d.id, d.tenantId, StatusEvent(Deleted), "deployment deleted", now)]
            && e.orders == [] && e.calls == [DeleteCall(d.backendRef)] && e.error == None
            && e.store.apps == if app == None || app.value.currentDeploymentId != d.id then st.apps else
                 st.apps[job.appId := app.value.(currentDeploymentId := "")]
  {
  }
}
