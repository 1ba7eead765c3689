/** The three job handlers as they run, over the store, the queue and a backend. */
module Handlers {
  import opened Domain
  import opened Deployments
  import opened Scheduling
  import opened MemoryStore
  import opened Services

  /** The backend, as far as one handler run sees it: what it will answer, and what it was asked. */
  class Backend {
    const submission: Result<BackendStatus>
    const report: Result<BackendStatus>
    const deletion: Result<()>
    var calls: seq<Call>

    constructor (submission: Result<BackendStatus>, report: Result<BackendStatus>, deletion: Result<()>)
      ensures this.submission == submission && this.report == report && this.deletion == deletion && calls == []
    {
      this.submission, this.report, this.deletion, calls := submission, report, deletion, [];
    }

    method Submit(d: Deployment) returns (r: Result<BackendStatus>)
      modifies this
      ensures r == submission && calls == old(calls) + [SubmitCall(d.id)]
    {
      calls := calls + [SubmitCall(d.id)];
      r := submission;
    }

    method GetStatus(ref: BackendRef) returns (r: Result<BackendStatus>)
      modifies this
      ensures r == report && calls == old(calls) + [StatusCall(ref)]
    {
      calls := calls + [StatusCall(ref)];
      r := report;
    }

    method Delete(ref: BackendRef) returns (r: Result<()>)
      modifies this
      ensures r == deletion && calls == old(calls) + [DeleteCall(ref)]
    {
      calls := calls + [DeleteCall(ref)];
      r := deletion;
    }
  }

  class JobHandlers {
    const store: State
    const service: DeploymentService
    const scheduler: Scheduler
    const backend: Backend

    ghost predicate Valid()
      reads this, store, service, scheduler, scheduler.queue
    {
      service.store == store && service.scheduler == scheduler && store.Valid() && scheduler.Valid()
    }

    constructor (service: DeploymentService, backend: Backend)
      requires service.Valid()
      ensures Valid() && this.service == service && this.backend == backend
    {
      this.store, this.scheduler := service.store, service.scheduler;
      this.service, this.backend := service, backend;
    }

    /** Submits the deployment between two status marks, then points the app at it if it is
        already running and schedules a sync. */
    method Create(job: JobName, jobId: string, now: Time) returns (err: Option<Error>)
      requires Valid()
      modifies store, backend, scheduler.queue, scheduler.queue.delayed
      ensures Valid()
      ensures var e := HandleCreate(old(store.Value()), job, backend.submission, now);
              && err == e.error && store.Value() == e.store && backend.calls == old(backend.calls) + e.calls
              && scheduler.queue.Contents() == PlaceAll(old(scheduler.queue.Contents()), e.orders, [jobId], now)
    {
      var found := store.FindDeployment(job.tenantId, job.deploymentId);
      if found == None {
        return Some(NotFound);
      }
      var d := found.value;
      if d.status == Cancelled || d.status == Deleting || d.status == Deleted {
        return None;
      }
      var app := store.FindApp(job.tenantId, job.appId);
      if app == None {
        return Some(NotFound);
      }
      err := Submission(d, app.value, jobId, now);
    }

    method Submission(d: Deployment, app: App, jobId: string, now: Time) returns (err: Option<Error>)
      requires Valid() && d.id in store.deployments && app.id in store.apps
      modifies store, backend, scheduler.queue, scheduler.queue.delayed
      ensures Valid()
      ensures var e := Submitted(old(store.Value()), d, app, backend.submission, now);
              && err == e.error && store.Value() == e.store && backend.calls == old(backend.calls) + e.calls
              && scheduler.queue.Contents() == PlaceAll(old(scheduler.queue.Contents()), e.orders, [jobId], now)
    {
      var d1, marked := service.MarkDeploymentStatus(d, Provisioning, "creating kubernetes resources", now);
      var reply := backend.Submit(d1);
      if reply.Err? {
        var _, _ := service.MarkDeploymentStatus(d1, Failed, ErrorText(reply.error), now);
        return Some(reply.error);
      }
      var s := reply.value;
      var d2 := d1.(backendRef := s.ref);
      d2, marked := service.MarkDeploymentStatus(d2, s.status, s.reason, now);
      if s.status == Running {
        var _ := store.UpdateApp(app.(currentDeploymentId := d2.id));
      }
      if s.status == Running || s.status == Provisioning {
        scheduler.ScheduleSync(d2, jobId, now);
      }
      err := None;
    }

    /** Takes in the backend's report: a failing one opens a repair round if the policy allows
        one, any other is recorded and followed up. */
    method Sync(job: JobName, jobId: string, now: Time) returns (err: Option<Error>)
      requires Valid()
      modifies store, backend, scheduler.queue, scheduler.queue.delayed
      ensures Valid()
      ensures var e := HandleSync(old(store.Value()), job, backend.report, now);
              && err == e.error && store.Value() == e.store && backend.calls == old(backend.calls) + e.calls
              && scheduler.queue.Contents() == PlaceAll(old(scheduler.queue.Contents()), e.orders, [jobId], now)
    {
      var found := store.FindDeployment(job.tenantId, job.deploymentId);
      if found == None {
        return Some(NotFound);
      }
      var d := found.value;
      if d.status == Cancelled || d.status == Deleted {
        return None;
      }
      var reply := backend.GetStatus(d.backendRef);
      if reply.Err? {
        return Some(reply.error);
      }
      err := Report(job, d.(backendRef := reply.value.ref), reply.value, jobId, now);
    }

    method Report(job: JobName, d: Deployment, s: BackendStatus, jobId: string, now: Time) returns (err: Option<Error>)
      requires Valid() && d.id in store.deployments
      modifies store, scheduler.queue, scheduler.queue.delayed
      ensures Valid()
      ensures var e := Synced(old(store.Value()), job, d, s, now);
              && err == e.error && store.Value() == e.store
              && scheduler.queue.Contents() == PlaceAll(old(scheduler.queue.Contents()), e.orders, [jobId], now)
    {
      if s.status == Failed {
        var repair := service.QueueRepair(d, s.reason, jobId, now);
        if repair == None {
          return None;
        }
      }
      err := FollowUp(job, d, s, jobId, now);
    }

    /** The report recorded as it is, and what follows from it. */
    method FollowUp(job: JobName, d: Deployment, s: BackendStatus, jobId: string, now: Time)
      returns (err: Option<Error>)
      requires Valid() && d.id in store.deployments
      requires s.status == Failed ==> !AutoRepairs(d)
      modifies store, scheduler.queue, scheduler.queue.delayed
      ensures Valid()
      ensures var e := Synced(old(store.Value()), job, d, s, now);
              && err == e.error && store.Value() == e.store
              && scheduler.queue.Contents() == PlaceAll(old(scheduler.queue.Contents()), e.orders, [jobId], now)
    {
      var d1, _ := service.MarkDeploymentStatus(d, s.status, s.reason, now);
      if s.status == Provisioning || s.status == Degraded || s.status == Recovering {
        scheduler.ScheduleSync(d1, jobId, now);
        return None;
      }
      if s.status != Running {
        return None;
      }
      var app := store.FindApp(job.tenantId, job.appId);
      if app == None {
        return Some(NotFound);
      }
      if app.value.currentDeploymentId == d.id {
        return None;
      }
      err := store.UpdateApp(app.value.(currentDeploymentId := d.id));
    }

    /** Deletes the backend object, marks the deployment and clears the app's pointer to it. */
    method Delete(job: JobName, now: Time) returns (err: Option<Error>)
      requires Valid()
      modifies store, backend
      ensures Valid()
      ensures var e := HandleDelete(old(store.Value()), job, backend.deletion, now);
              && err == e.error && store.Value() == e.store && backend.calls == old(backend.calls) + e.calls
              && e.orders == []
    {
      var found := store.FindDeployment(job.tenantId, job.deploymentId);
      if found == None {
        return Some(NotFound);
      }
      var d := found.value;
      var reply := backend.Delete(d.backendRef);
      if reply.Err? {
        var _, _ := service.MarkDeploymentStatus(d, Failed, ErrorText(reply.error), now);
        return Some(reply.error);
      }
      var d1, _ := service.MarkDeploymentStatus(d, Deleted, "deployment deleted", now);
      var app := store.FindApp(job.tenantId, job.appId);
      if app != None && app.value.currentDeploymentId == d1.id {
        err := store.UpdateApp(app.value.(currentDeploymentId := ""));
      } else {
        err := None;
      }
    }
  }
}
