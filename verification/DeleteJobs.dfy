/** Nothing is deleted that nobody asked to delete: wherever a delete job is, its deployment's log says
    that it is being deleted, and a delete call for it has been made. */
module DeleteJobs {
  import opened Domain
  import opened Deployments
  import opened EventLog
  import opened Lifecycle
  import opened StoreInvariants
  import opened JobNames
  import opened QueueProjection
  import opened WorldInvariants
  import opened LifecycleTheorems
  import P = WorkerProtocol

  /** The log says that the deployment is being deleted. */
  predicate Deletion(e: Event) {
    e.kind == StatusEvent(Deleting)
  }

  ghost predicate Asked(st: Store, id: string) {
    exists e :: e in EventsOf(st, id) && Deletion(e)
  }

  /** The job names that do no harm: a delete job is for a deployment being deleted. */
  ghost function AskedNames(st: Store): iset<JobName> {
    iset name: JobName | name.kind == DeployDelete ==> Asked(st, name.deploymentId)
  }

  // ----- Logs

  /** No log loses an event, and events that say that a deployment is being deleted are new only for the
      given one. */
  ghost predicate Logged(st: Store, st': Store, id: string, asked: bool) {
    && (forall x, e :: e in EventsOf(st, x) ==> e in EventsOf(st', x))
    && (forall x, e :: e in EventsOf(st', x) && Deletion(e) ==> e in EventsOf(st, x) || (asked && x == id))
  }

  lemma RecordLogs(st: Store, st': Store, d: Deployment, kind: EventKind, message: string, now: Time)
    requires st' == Record(st, d, kind, message, now)
    ensures Logged(st, st', d.id, kind == StatusEvent(Deleting))
  {
  }

  lemma LogsCompose(a: Store, b: Store, c: Store, id: string, asked: bool)
    requires Logged(a, b, id, asked) && Logged(b, c, id, asked)
    ensures Logged(a, c, id, asked)
  {
  }

  lemma SameLogs(st: Store, st': Store, id: string, asked: bool)
    requires st'.events == st.events
    ensures Logged(st, st', id, asked)
  {
    assert forall x :: EventsOf(st', x) == EventsOf(st, x);
  }

  lemma SameAfter(a: Store, b: Store, c: Store, id: string, asked: bool)
    requires Logged(a, b, id, asked) && c.events == b.events
    ensures Logged(a, c, id, asked)
  {
    SameLogs(b, c, id, asked);
    LogsCompose(a, b, c, id, asked);
  }

  /** It names no delete job. */
  predicate Harmless(orders: seq<Order>) {
    forall o :: o in orders ==> o.name.kind != DeployDelete
  }

  // ----- Handlers

  lemma SubmittedLogs(st: Store, d: Deployment, app: App, reply: Result<BackendStatus>, now: Time, e: Effect)
    requires SubmitAnswers(reply) && e == Submitted(st, d, app, reply, now)
    ensures Logged(st, e.store, d.id, false) && Harmless(e.orders)
  {
    var d1, st1 := Marked(d, Provisioning, MSG_CREATING, now), Mark(st, d, Provisioning, MSG_CREATING, now);
    RecordLogs(st, st1, d1, StatusEvent(Provisioning), MSG_CREATING, now);
    match reply
    case Err(error) =>
      RecordLogs(st1, e.store, Marked(d1, Failed, ErrorText(error), now), StatusEvent(Failed), ErrorText(error), now);
      LogsCompose(st, st1, e.store, d.id, false);
    case Ok(s) =>
      var d2 := d1.(backendRef := s.ref);
      var st2 := Mark(st1, d2, s.status, s.reason, now);
      RecordLogs(st1, st2, Marked(d2, s.status, s.reason, now), StatusEvent(s.status), s.reason, now);
      LogsCompose(st, st1, st2, d.id, false);
      SameAfter(st, st2, e.store, d.id, false);
  }

  lemma SyncedLogs(st: Store, job: JobName, d: Deployment, s: BackendStatus, now: Time, e: Effect)
    requires s.status in {Provisioning, Running, Degraded, Failed} && e == Synced(st, job, d, s, now)
    ensures Logged(st, e.store, d.id, false) && Harmless(e.orders)
  {
    if s.status == Failed && AutoRepairs(d) {
      if d.repairAttempts >= RepairLimit(d) {
        var text := MSG_LIMIT + s.reason;
        RecordLogs(st, e.store, Marked(d, Failed, text, now), StatusEvent(Failed), text, now);
      } else {
        var r := Repairing(d, s.reason, now);
        RecordLogs(st, e.store, r, AutoRepairQueued, r.statusReason, now);
      }
    } else {
      var st1 := Mark(st, d, s.status, s.reason, now);
      RecordLogs(st, st1, Marked(d, s.status, s.reason, now), StatusEvent(s.status), s.reason, now);
      SameAfter(st, st1, e.store, d.id, false);
    }
  }

  lemma DeleteLogs(st: Store, job: JobName, reply: Result<()>, now: Time, e: Effect)
    requires e == HandleDelete(st, job, reply, now)
    ensures Logged(st, e.store, job.deploymentId, false) && Harmless(e.orders)
  {
    var found := GetDeployment(st, job.tenantId, job.deploymentId);
    if found == None {
      SameLogs(st, e.store, job.deploymentId, false);
    } else {
      var status := if reply.Err? then Failed else Deleted;
      var text := if reply.Err? then ErrorText(reply.error) else MSG_DELETED;
      var st1 := Mark(st, found.value, status, text, now);
      RecordLogs(st, st1, Marked(found.value, status, text, now), StatusEvent(status), text, now);
      SameAfter(st, st1, e.store, job.deploymentId, false);
    }
  }

  lemma HandlerLogs(st: Store, job: Job, reply: Reply, now: Time, e: Effect)
    requires Answers(st, job, reply) && e == HandleJob(st, job, reply, now)
    ensures Logged(st, e.store, job.deploymentId, false) && Harmless(e.orders)
  {
    SameLogs(st, st, job.deploymentId, false);
    var found := GetDeployment(st, job.tenantId, job.deploymentId);
    match job.kind
    case DeployDelete => DeleteLogs(st, NameOf(job), reply.deletion, now, e);
    case DeployCreate =>
      var app := GetApp(st, job.tenantId, job.appId);
      if found.Some? && app.Some? && found.value.status !in {Cancelled, Deleting, Deleted} {
        SubmittedLogs(st, found.value, app.value, reply.submit, now, e);
      }
    case DeploySync =>
      if found.Some? && found.value.status !in {Cancelled, Deleted} && reply.report.Ok? {
        var d := found.value.(backendRef := reply.report.value.ref);
        SyncedLogs(st, NameOf(job), d, reply.report.value, now, Synced(st, NameOf(job), d, reply.report.value, now));
      }
  }

  // ----- Service calls

  lemma RemoveLogs(st: Store, tenantId: string, id: string, now: Time, e: Effect)
    requires Keyed(st) && e == DeleteDeployment(st, tenantId, id, now)
    ensures Logged(st, e.store, id, true)
    ensures forall o :: o in e.orders && o.name.kind == DeployDelete ==> Asked(e.store, o.name.deploymentId)
  {
    var found := GetDeployment(st, tenantId, id);
    if found.Some? && found.value.status !in {Deleted, Deleting} {
      var d := Marked(found.value, Deleting, MSG_DELETING, now);
      RecordLogs(st, e.store, d, StatusEvent(Deleting), MSG_DELETING, now);
      var event := Event(d.id, d.tenantId, StatusEvent(Deleting), MSG_DELETING, now);
      assert event in EventsOf(e.store, id) && Deletion(event);
    } else {
      SameLogs(st, e.store, id, true);
    }
  }

  /** A deployment whose log gives it the status deleting was asked to be deleted. */
  lemma DeletingWasAsked(st: Store, id: string)
    requires RecordsOk(st) && id in st.deployments && st.deployments[id].status == Deleting
    ensures Asked(st, id)
  {
    assert DeploymentOk(st, st.deployments[id]);
    var log := EventsOf(st, id);
    assert Fold(log).status == Deleting && log != [];
    var e := log[|log| - 1];
    assert e in log && Deletion(e);
  }

  lemma {:induction false} PassAsks(st: Store, items: seq<Deployment>, o: Order)
    requires RecordsOk(st) && o in ReconcileOrders(items) && o.name.kind == DeployDelete
    requires forall i :: 0 <= i < |items| ==> items[i].id in st.deployments && st.deployments[items[i].id] == items[i]
    ensures Asked(st, o.name.deploymentId)
  {
    var n := |items| - 1;
    if o in ReconcileOrders(items[..n]) {
      PassAsks(st, items[..n], o);
    } else {
      DeletingWasAsked(st, items[n].id);
    }
  }

  // ----- Steps

  /** The call that asks for a deployment's deletion. */
  predicate Asks(act: Act, id: string) {
    act.Remove? && act.id == id
  }

  /** No log loses an event, only a delete call logs a deletion, and delete jobs are ordered only for
      deployments being deleted. */
  ghost predicate Cautious(st: Store, e: Effect, act: Act) {
    && (forall x, v :: v in EventsOf(st, x) ==> v in EventsOf(e.store, x))
    && (forall x :: Asked(e.store, x) ==> Asked(st, x) || Asks(act, x))
    && (forall o :: o in e.orders && o.name.kind == DeployDelete ==> Asked(e.store, o.name.deploymentId))
  }

  lemma LoggedIsCautious(st: Store, e: Effect, act: Act, id: string, asked: bool)
    requires Logged(st, e.store, id, asked) && (asked ==> Asks(act, id))
    requires forall o :: o in e.orders && o.name.kind == DeployDelete ==> Asked(e.store, o.name.deploymentId)
    ensures Cautious(st, e, act)
  {
    forall x | Asked(e.store, x)
      ensures Asked(st, x) || Asks(act, x)
    {
      var v :| v in EventsOf(e.store, x) && Deletion(v);
    }
  }

  lemma ServiceIsCautious(w: World, act: Act, now: Time, e: Effect)
    requires RecordsOk(w.store) && CanDo(w, act) && e == EffectOf(w, act, now)
    requires act.Finish? || act.Retry? || act.Cancel?
    ensures Cautious(w.store, e, act)
  {
    var st := w.store;
    if act.Finish? {
      var p := w.pending[act.token];
      var d := NewDeployment(act.id, p.app, p.tenantId, p.user, p.version, now);
      RecordLogs(st, e.store, d, StatusEvent(Queued), MSG_QUEUED, now);
    } else if e.store == st {
      SameLogs(st, e.store, act.id, false);
    } else {
      var d := st.deployments[act.id];
      if act.Retry? {
        RecordLogs(st, e.store, Requeued(d, now), RetryQueued, MSG_RETRY, now);
      } else {
        RecordLogs(st, e.store, Marked(d, Cancelled, MSG_CANCELLED, now), StatusEvent(Cancelled), MSG_CANCELLED, now);
      }
    }
    LoggedIsCautious(st, e, act, act.id, false);
  }

  lemma ActIsCautious(w: World, act: Act, now: Time, e: Effect)
    requires RecordsOk(w.store) && CanDo(w, act) && e == EffectOf(w, act, now)
    ensures Cautious(w.store, e, act)
  {
    match act
    case Remove(tenantId, id) =>
      RemoveLogs(w.store, tenantId, id, now, e);
      LoggedIsCautious(w.store, e, act, id, true);
    case Reconcile(_, items) =>
      SameLogs(w.store, e.store, "", false);
      forall o | o in e.orders && o.name.kind == DeployDelete
        ensures Asked(e.store, o.name.deploymentId)
      {
        PassAsks(w.store, items, o);
      }
      LoggedIsCautious(w.store, e, act, "", false);
    case Handle(wk, reply) =>
      var job := w.queue.workers[wk].job;
      HandlerLogs(w.store, job, reply, now, e);
      LoggedIsCautious(w.store, e, act, job.deploymentId, false);
    case _ => ServiceIsCautious(w, act, now, e);
  }

  lemma AskedNamesGrow(st: Store, st': Store)
    requires forall x, v :: v in EventsOf(st, x) ==> v in EventsOf(st', x)
    ensures AskedNames(st) <= AskedNames(st')
  {
    forall x | Asked(st, x)
      ensures Asked(st', x)
    {
      var v :| v in EventsOf(st, x) && Deletion(v);
    }
  }

  lemma ActKeepsAsked(c: P.Config, w: World, m: Move, e: Effect)
    requires Enabled(w, m) && m.step.Do? && NamesIn(w.queue, AskedNames(w.store))
    requires e == EffectOf(w, m.step.act, m.now) && Cautious(w.store, e, m.step.act)
    ensures NamesIn(Apply(c, w, m).queue, AskedNames(e.store))
  {
    AskedNamesGrow(w.store, e.store);
    MoreNames(w.queue, AskedNames(w.store), AskedNames(e.store));
    ActKeepsNames(c, w, m, AskedNames(e.store));
  }

  lemma StepKeepsAsked(c: P.Config, w: World, m: Move)
    requires Enabled(w, m) && RecordsOk(w.store) && NamesIn(w.queue, AskedNames(w.store))
    ensures NamesIn(Apply(c, w, m).queue, AskedNames(Apply(c, w, m).store))
  {
    var w' := Apply(c, w, m);
    if m.step.Do? {
      var e := EffectOf(w, m.step.act, m.now);
      ActIsCautious(w, m.step.act, m.now, e);
      ActKeepsAsked(c, w, m, e);
    } else {
      SameLogs(w.store, w'.store, "", false);
      AskedNamesGrow(w.store, w'.store);
      if m.step.OnQueue? {
        StepKeepsNames(c, w.queue, P.Move(m.step.step, m.now), AskedNames(w.store));
      }
      MoreNames(w'.queue, AskedNames(w.store), AskedNames(w'.store));
    }
  }

  /** A deletion is logged only by the call that asks for it. */
  lemma StepAsks(c: P.Config, w: World, m: Move, id: string)
    requires Enabled(w, m) && RecordsOk(w.store) && Asked(Apply(c, w, m).store, id)
    ensures Asked(w.store, id) || (m.step.Do? && Asks(m.step.act, id))
  {
    var w' := Apply(c, w, m);
    if m.step.Do? {
      ActIsCautious(w, m.step.act, m.now, EffectOf(w, m.step.act, m.now));
    } else {
      assert EventsOf(w'.store, id) == EventsOf(w.store, id);
    }
  }

  // ----- Runs

  lemma {:induction false} AskedHolds(c: P.Config, worlds: seq<World>, moves: seq<Move>, i: nat)
    requires IsRun(c, worlds, moves) && i < |worlds|
    ensures NamesIn(worlds[i].queue, AskedNames(worlds[i].store))
  {
    if i > 0 {
      AskedHolds(c, worlds, moves, i - 1);
      InvHolds(c, worlds, moves, i - 1);
      assert Linked(c, worlds[i - 1], moves[i - 1], worlds[i]);
      StepKeepsAsked(c, worlds[i - 1], moves[i - 1]);
    }
  }

  /** Every delete job, ready, delayed, leased, dead or held by a worker, is for a deployment whose log says
      that it is being deleted. */
  lemma DeleteJobsAreLogged(c: P.Config, worlds: seq<World>, moves: seq<Move>, i: nat, job: Job)
    requires IsRun(c, worlds, moves) && i < |worlds|
    requires Somewhere(worlds[i].queue, job) && job.kind == DeployDelete
    ensures exists e :: e in EventsOf(worlds[i].store, job.deploymentId) && e.kind == StatusEvent(Deleting)
  {
    AskedHolds(c, worlds, moves, i);
    NamedSomewhere(worlds[i].queue, AskedNames(worlds[i].store), job);
    var e :| e in EventsOf(worlds[i].store, job.deploymentId) && Deletion(e);
  }

  lemma NothingAskedAtFirst(w: World, id: string)
    requires Init(w)
    ensures !Asked(w.store, id)
  {
  }

  lemma NextAsks(c: P.Config, worlds: seq<World>, moves: seq<Move>, k: nat, id: string)
    requires IsRun(c, worlds, moves) && 0 < k <= |moves| && Asked(worlds[k].store, id)
    ensures Asked(worlds[k - 1].store, id) || (moves[k - 1].step.Do? && Asks(moves[k - 1].step.act, id))
  {
    InvHolds(c, worlds, moves, k - 1);
    var w, m, w' := worlds[k - 1], moves[k - 1], worlds[k];
    assert Linked(c, w, m, w');
    StepAsks(c, w, m, id);
  }

  lemma {:induction false} LoggedWasAsked(c: P.Config, worlds: seq<World>, moves: seq<Move>, i: nat, id: string)
    returns (k: nat)
    requires IsRun(c, worlds, moves) && i < |worlds| && Asked(worlds[i].store, id)
    ensures k < i && moves[k].step.Do? && Asks(moves[k].step.act, id)
  {
    NothingAskedAtFirst(worlds[0], id);
    k := i - 1;
    NextAsks(c, worlds, moves, i, id);
    if !(moves[k].step.Do? && Asks(moves[k].step.act, id)) {
      k := LoggedWasAsked(c, worlds, moves, i - 1, id);
    }
  }

  /** For every delete job there was a delete call for its deployment. */
  lemma DeleteJobsWereAskedFor(c: P.Config, worlds: seq<World>, moves: seq<Move>, i: nat, job: Job) returns (k: nat)
    requires IsRun(c, worlds, moves) && i < |worlds|
    requires Somewhere(worlds[i].queue, job) && job.kind == DeployDelete
    ensures k < i && moves[k].step.Do? && moves[k].step.act.Remove? && moves[k].step.act.id == job.deploymentId
  {
    DeleteJobsAreLogged(c, worlds, moves, i, job);
    var e :| e in EventsOf(worlds[i].store, job.deploymentId) && e.kind == StatusEvent(Deleting);
    assert Deletion(e);
    k := LoggedWasAsked(c, worlds, moves, i, job.deploymentId);
  }
}
