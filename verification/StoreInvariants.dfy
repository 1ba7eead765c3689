/** What every service call and every handler run keeps of the store: good records that only
    grow, event logs that explain them, and orders and backend calls that make sense. */
module StoreInvariants {
  import opened Domain
  import opened Deployments
  import opened EventLog

  // ----- Records

  /** A deployment that has a backend object, or a status only the backend gives, was started;
      and its repair count is within its limit. */
  predicate GoodRecord(d: Deployment) {
    && d.id != ""
    && (Named(d.backendRef) || d.status in {Provisioning, Running, Degraded, Recovering} ==> d.startedAt.Some?)
    && (d.status in {Running, Degraded, Recovering} ==> Named(d.backendRef))
    && 0 <= d.repairAttempts <= RepairLimit(d)
  }

  /** The log explains the record, and no prefix of it ever exceeded the repair limit. */
  ghost predicate Explained(d: Deployment, log: seq<Event>) {
    Fold(log) == SummaryOf(d) && RoundsWithin(log, RepairLimit(d))
  }

  ghost predicate RecordsOk(st: Store) {
    && Keyed(st)
    && (forall id :: id in st.events ==> id in st.deployments)
    && (forall id :: id in st.deployments ==> DeploymentOk(st, st.deployments[id]))
  }

  ghost predicate DeploymentOk(st: Store, d: Deployment) {
    GoodRecord(d) && GetApp(st, d.tenantId, d.appId).Some? && Explained(d, EventsOf(st, d.id))
  }

  predicate SameIdentity(d: Deployment, d': Deployment) {
    && d'.id == d.id && d'.tenantId == d.tenantId && d'.appId == d.appId
    && d'.version == d.version && d'.snapshot == d.snapshot
  }

  /** How a record may change: its identity stays, what has started stays started, and a
      backend reference stays named. */
  predicate Grows(d: Deployment, d': Deployment) {
    && SameIdentity(d, d')
    && (d.startedAt.Some? ==> d'.startedAt == d.startedAt)
    && (Named(d.backendRef) ==> Named(d'.backendRef))
  }

  ghost predicate Extends(st: Store, st': Store) {
    && (forall id :: id in st.deployments ==>
          id in st'.deployments && Grows(st.deployments[id], st'.deployments[id]))
    && (forall id :: id in st.apps ==> id in st'.apps && st'.apps[id].tenantId == st.apps[id].tenantId)
  }

  /** A record may be replaced by one it grows into, with an event that explains the change. */
  ghost predicate Evolves(d: Deployment, d': Deployment, kind: EventKind, message: string, now: Time) {
    Grows(d, d') && GoodRecord(d') && SummaryOf(d') == FoldEvent(SummaryOf(d), kind, message, now)
  }

  lemma LogGrows(d: Deployment, log: seq<Event>, d': Deployment, kind: EventKind, message: string, now: Time)
    requires Explained(d, log) && Evolves(d, d', kind, message, now)
    ensures Explained(d', log + [Event(d'.id, d'.tenantId, kind, message, now)])
  {
    var log' := log + [Event(d'.id, d'.tenantId, kind, message, now)];
    assert log'[..|log|] == log;
  }

  lemma RecordKeepsDeployment(st: Store, d: Deployment, d': Deployment, kind: EventKind, message: string,
                              now: Time, id: string)
    requires RecordsOk(st) && d.id in st.deployments && st.deployments[d.id] == d && id in st.deployments
    requires Evolves(d, d', kind, message, now)
    ensures var st' := Record(st, d', kind, message, now);
            DeploymentOk(st', st'.deployments[id])
  {
    assert DeploymentOk(st, st.deployments[id]);
    if id == d.id {
      LogGrows(d, EventsOf(st, d.id), d', kind, message, now);
    }
  }

  lemma RecordExtends(st: Store, d': Deployment, kind: EventKind, message: string, now: Time)
    requires d'.id in st.deployments && Grows(st.deployments[d'.id], d')
    ensures Extends(st, Record(st, d', kind, message, now))
  {
  }

  lemma RecordKeeps(st: Store, d: Deployment, d': Deployment, kind: EventKind, message: string, now: Time)
    requires RecordsOk(st) && d.id in st.deployments && st.deployments[d.id] == d
    requires Evolves(d, d', kind, message, now)
    ensures RecordsOk(Record(st, d', kind, message, now))
    ensures Extends(st, Record(st, d', kind, message, now))
  {
    RecordExtends(st, d', kind, message, now);
    var st' := Record(st, d', kind, message, now);
    forall id | id in st'.deployments
      ensures DeploymentOk(st', st'.deployments[id])
    {
      RecordKeepsDeployment(st, d, d', kind, message, now, id);
    }
  }

  lemma MarkKeeps(st: Store, was: Deployment, d: Deployment, status: Status, reason: string, now: Time)
    requires RecordsOk(st) && d.id in st.deployments && st.deployments[d.id] == was
    requires d == was.(backendRef := d.backendRef) && (Named(was.backendRef) ==> Named(d.backendRef))
    requires status != Queued && GoodRecord(Marked(d, status, reason, now))
    ensures RecordsOk(Mark(st, d, status, reason, now)) && Extends(st, Mark(st, d, status, reason, now))
  {
    RecordKeeps(st, was, Marked(d, status, reason, now), StatusEvent(status), reason, now);
  }

  // ----- Job names

  /** A job names a stored deployment of the same app and tenant; a sync job names one that has
      been started and has a backend object. */
  predicate NameOk(st: Store, name: JobName) {
    && name.kind in {DeployCreate, DeployDelete, DeploySync}
    && GetDeployment(st, name.tenantId, name.deploymentId).Some?
    && var d := st.deployments[name.deploymentId];
       d.appId == name.appId && (name.kind == DeploySync ==> d.startedAt.Some? && Named(d.backendRef))
  }

  lemma NameStaysOk(st: Store, st': Store, name: JobName)
    requires NameOk(st, name) && Extends(st, st')
    ensures NameOk(st', name)
  {
    assert Grows(st.deployments[name.deploymentId], st'.deployments[name.deploymentId]);
  }

  lemma ExtendsTransitive(a: Store, b: Store, c: Store)
    requires Extends(a, b) && Extends(b, c)
    ensures Extends(a, c)
  {
  }

  /** What every service call and handler run keeps: good records, growing records, and orders
      and status queries that make sense. */
  ghost predicate Sound(st: Store, e: Effect) {
    && RecordsOk(e.store) && Extends(st, e.store)
    && (forall o :: o in e.orders ==> OrderOk(e.store, o))
    && (forall call :: call in e.calls ==> CallOk(call))
  }

  predicate OrderOk(st: Store, o: Order) {
    NameOk(st, o.name) && (o.delay.Some? ==> o.delay.value >= 0)
  }

  /** Any job kind can be scheduled for a stored deployment, a sync only for a started one. */
  lemma OrderIsOk(st: Store, o: Order, d: Deployment)
    requires RecordsOk(st) && d.id in st.deployments && SameIdentity(d, st.deployments[d.id])
    requires o == CreateOrder(d) || o == DeleteOrder(d) || o == SyncOrder(d)
    requires o == SyncOrder(d) ==> Named(st.deployments[d.id].backendRef)
    ensures OrderOk(st, o)
  {
    assert DeploymentOk(st, st.deployments[d.id]);
  }

  predicate CallOk(call: Call) {
    call.StatusCall? ==> Named(call.ref)
  }

  /** A call that changes nothing is sound. */
  lemma IdleIsSound(st: Store, e: Effect)
    requires RecordsOk(st) && e.store == st && e.orders == []
    requires forall call :: call in e.calls ==> CallOk(call)
    ensures Sound(st, e)
  {
  }

  /** A call that writes one record with its event is sound. */
  lemma WriteIsSound(st: Store, e: Effect, was: Deployment, d: Deployment, kind: EventKind, message: string, now: Time)
    requires RecordsOk(st) && d.id in st.deployments && st.deployments[d.id] == was
    requires e.store == Record(st, d, kind, message, now) && Evolves(was, d, kind, message, now)
    requires e.orders == [] || e.orders == [CreateOrder(d)] || e.orders == [DeleteOrder(d)]
             || (e.orders == [SyncOrder(d)] && Named(d.backendRef))
    requires forall call :: call in e.calls ==> CallOk(call)
    ensures Sound(st, e)
  {
    RecordKeeps(st, was, d, kind, message, now);
    if e.orders != [] {
      OrderIsOk(e.store, e.orders[0], d);
    }
  }

  /** ... and stays sound if it then points the app somewhere. */
  lemma PointingIsSound(st: Store, mid: Effect, e: Effect, app: App, target: string)
    requires Sound(st, mid) && app.id in mid.store.apps && mid.store.apps[app.id] == app
    requires e == mid.(store := PointApp(mid.store, app, target))
    ensures Sound(st, e)
  {
    PointAppKeeps(mid.store, app, target);
    ExtendsTransitive(st, mid.store, e.store);
    forall o | o in e.orders
      ensures OrderOk(e.store, o)
    {
      NameStaysOk(mid.store, e.store, o.name);
    }
  }

  /** Two calls in a row, the first without orders. */
  lemma ChainIsSound(st: Store, first: Store, e: Effect)
    requires Extends(st, first) && Sound(first, e)
    ensures Sound(st, e)
  {
    ExtendsTransitive(st, first, e.store);
  }

  lemma PointAppKeeps(st: Store, app: App, deploymentId: string)
    requires RecordsOk(st) && app.id in st.apps && st.apps[app.id] == app
    ensures RecordsOk(PointApp(st, app, deploymentId)) && Extends(st, PointApp(st, app, deploymentId))
  {
    var st' := PointApp(st, app, deploymentId);
    forall id | id in st'.deployments
      ensures DeploymentOk(st', st'.deployments[id])
    {
      assert DeploymentOk(st, st.deployments[id]);
    }
  }

  lemma CreateIsSound(st: Store, d: Deployment, now: Time)
    requires RecordsOk(st) && d.id !in st.deployments && d.id != "" && SummaryOf(d) == CREATED
    requires d.backendRef == NO_REF && GetApp(st, d.tenantId, d.appId).Some?
    ensures Sound(st, CreateDeployment(st, d, now))
  {
    var st' := CreateDeployment(st, d, now).store;
    CreateKeepsRecords(st, d, now, st');
    CreateExtends(st, d, now, st');
    OrderIsOk(st', CreateOrder(d), d);
  }

  lemma CreateExtends(st: Store, d: Deployment, now: Time, st': Store)
    requires d.id !in st.deployments && st' == Record(st, d, StatusEvent(Queued), MSG_QUEUED, now)
    ensures Extends(st, st')
  {
  }

  lemma CreateKeepsRecords(st: Store, d: Deployment, now: Time, st': Store)
    requires RecordsOk(st) && d.id !in st.deployments && d.id != "" && SummaryOf(d) == CREATED
    requires d.backendRef == NO_REF && GetApp(st, d.tenantId, d.appId).Some?
    requires st' == Record(st, d, StatusEvent(Queued), MSG_QUEUED, now)
    ensures RecordsOk(st')
  {
    forall k | k in st'.deployments
      ensures DeploymentOk(st', st'.deployments[k])
    {
      CreateKeepsDeployment(st, d, now, st', k);
    }
  }

  lemma CreateKeepsDeployment(st: Store, d: Deployment, now: Time, st': Store, k: string)
    requires RecordsOk(st) && d.id !in st.deployments && d.id != "" && SummaryOf(d) == CREATED
    requires d.backendRef == NO_REF && GetApp(st, d.tenantId, d.appId).Some?
    requires st' == Record(st, d, StatusEvent(Queued), MSG_QUEUED, now) && k in st'.deployments
    ensures DeploymentOk(st', st'.deployments[k])
  {
    if k == d.id {
      FirstEventExplains(d, EventsOf(st', k));
    } else {
      assert DeploymentOk(st, st.deployments[k]);
    }
  }

  lemma FirstEventExplains(d: Deployment, log: seq<Event>)
    requires |log| == 1 && log[0].kind == StatusEvent(Queued) && SummaryOf(d) == CREATED && RepairLimit(d) >= 0
    ensures Explained(d, log)
  {
    assert log[..0] == [];
  }

  lemma RetryIsSound(st: Store, tenantId: string, id: string, now: Time)
    requires RecordsOk(st)
    ensures Sound(st, RetryDeployment(st, tenantId, id, now))
  {
    var e, found := RetryDeployment(st, tenantId, id, now), GetDeployment(st, tenantId, id);
    if found.Some? && found.value.status in {Failed, Cancelled} {
      var d := Requeued(found.value, now);
      assert DeploymentOk(st, found.value);
      WriteIsSound(st, e, found.value, d, RetryQueued, MSG_RETRY, now);
    } else {
      IdleIsSound(st, e);
    }
  }

  lemma CancelIsSound(st: Store, tenantId: string, id: string, now: Time)
    requires RecordsOk(st)
    ensures Sound(st, CancelDeployment(st, tenantId, id, now))
  {
    var e, found := CancelDeployment(st, tenantId, id, now), GetDeployment(st, tenantId, id);
    if found.Some? && found.value.status in {Queued, Provisioning} {
      assert DeploymentOk(st, found.value);
      MarkIsSound(st, e, found.value, found.value, Cancelled, MSG_CANCELLED, now);
    } else {
      IdleIsSound(st, e);
    }
  }

  lemma RemoveIsSound(st: Store, tenantId: string, id: string, now: Time)
    requires RecordsOk(st)
    ensures Sound(st, DeleteDeployment(st, tenantId, id, now))
  {
    var e, found := DeleteDeployment(st, tenantId, id, now), GetDeployment(st, tenantId, id);
    if found.Some? && found.value.status !in {Deleted, Deleting} {
      assert DeploymentOk(st, found.value);
      MarkIsSound(st, e, found.value, found.value, Deleting, MSG_DELETING, now);
    } else {
      IdleIsSound(st, e);
    }
  }

  /** A call that marks a status (having perhaps learnt the backend reference) is sound. */
  lemma MarkIsSound(st: Store, e: Effect, was: Deployment, d: Deployment, status: Status, reason: string, now: Time)
    requires RecordsOk(st) && d.id in st.deployments && st.deployments[d.id] == was
    requires d == was.(backendRef := d.backendRef) && (Named(was.backendRef) ==> Named(d.backendRef))
    requires status != Queued && GoodRecord(Marked(d, status, reason, now))
    requires e.store == Mark(st, d, status, reason, now)
    requires e.orders == [] || e.orders == [DeleteOrder(d)] || (e.orders == [SyncOrder(d)] && Named(d.backendRef))
    requires forall call :: call in e.calls ==> CallOk(call)
    ensures Sound(st, e)
  {
    WriteIsSound(st, e, was, Marked(d, status, reason, now), StatusEvent(status), reason, now);
  }

  /** The create handler after a successful submission, from the provisioning record on. */
  lemma AcceptedIsSound(st: Store, d: Deployment, app: App, s: BackendStatus, e: Effect, now: Time)
    requires RecordsOk(st) && d.id in st.deployments && st.deployments[d.id] == d && d.startedAt.Some?
    requires app.id in st.apps && st.apps[app.id] == app
    requires s.status in {Provisioning, Running} && Named(s.ref)
    requires e.orders == [SyncOrder(d)] && e.calls == [SubmitCall(d.id)]
    requires var st1 := Mark(st, d.(backendRef := s.ref), s.status, s.reason, now);
             e.store == if s.status == Running then PointApp(st1, app, d.id) else st1
    ensures Sound(st, e)
  {
    var d2 := d.(backendRef := s.ref);
    var mid := e.(store := Mark(st, d2, s.status, s.reason, now));
    assert DeploymentOk(st, d);
    MarkIsSound(st, mid, d, d2, s.status, s.reason, now);
    if s.status == Running {
      PointingIsSound(st, mid, e, app, d.id);
    }
  }

  /** Both ends of the create handler: what follows the provisioning mark is sound. */
  lemma ProvisionedIsSound(st: Store, d: Deployment, app: App, reply: Result<BackendStatus>, e: Effect, now: Time)
    requires RecordsOk(st) && d.id in st.deployments && st.deployments[d.id] == d && d.startedAt.Some?
    requires app.id in st.apps && st.apps[app.id] == app && SubmitAnswers(reply)
    requires e.calls == [SubmitCall(d.id)]
    requires reply.Err? ==> e.orders == [] && e.store == Mark(st, d, Failed, ErrorText(reply.error), now)
    requires reply.Ok? ==> e.orders == [SyncOrder(d)]
    requires reply.Ok? ==>
               var s := reply.value;
               var st1 := Mark(st, d.(backendRef := s.ref), s.status, s.reason, now);
               e.store == if s.status == Running then PointApp(st1, app, d.id) else st1
    ensures Sound(st, e)
  {
    if reply.Err? {
      assert DeploymentOk(st, d);
      MarkIsSound(st, e, d, d, Failed, ErrorText(reply.error), now);
    } else {
      AcceptedIsSound(st, d, app, reply.value, e, now);
    }
  }

  lemma SubmittedIsSound(st: Store, d: Deployment, app: App, reply: Result<BackendStatus>, now: Time)
    requires RecordsOk(st) && d.id in st.deployments && st.deployments[d.id] == d
    requires app.id in st.apps && st.apps[app.id] == app && SubmitAnswers(reply)
    ensures Sound(st, Submitted(st, d, app, reply, now))
  {
    var e := Submitted(st, d, app, reply, now);
    var d1, st1 := Marked(d, Provisioning, MSG_CREATING, now), Mark(st, d, Provisioning, MSG_CREATING, now);
    assert DeploymentOk(st, d);
    MarkKeeps(st, d, d, Provisioning, MSG_CREATING, now);
    ProvisionedIsSound(st1, d1, app, reply, e, now);
    ChainIsSound(st, st1, e);
  }

  lemma HandleCreateIsSound(st: Store, job: JobName, reply: Result<BackendStatus>, now: Time)
    requires RecordsOk(st) && SubmitAnswers(reply)
    ensures Sound(st, HandleCreate(st, job, reply, now))
  {
    var found, app := GetDeployment(st, job.tenantId, job.deploymentId), GetApp(st, job.tenantId, job.appId);
    if found.Some? && found.value.status !in {Cancelled, Deleting, Deleted} && app.Some? {
      SubmittedIsSound(st, found.value, app.value, reply, now);
    } else {
      IdleIsSound(st, HandleCreate(st, job, reply, now));
    }
  }

  lemma RepairIsSound(st: Store, was: Deployment, d: Deployment, reason: string, now: Time)
    requires RecordsOk(st) && d.id in st.deployments && st.deployments[d.id] == was
    requires d == was.(backendRef := d.backendRef) && was.startedAt.Some? && Named(d.backendRef)
    ensures Sound(st, QueueAutoRepair(st, d, reason, now))
  {
    var e := QueueAutoRepair(st, d, reason, now);
    assert DeploymentOk(st, was);
    if !AutoRepairs(d) {
      IdleIsSound(st, e);
    } else if d.repairAttempts >= RepairLimit(d) {
      MarkIsSound(st, e, was, d, Failed, MSG_LIMIT + reason, now);
    } else {
      var r := Repairing(d, reason, now);
      WriteIsSound(st, e, was, r, AutoRepairQueued, r.statusReason, now);
    }
  }

  /** A mark that may be followed by pointing the app of the job somewhere. */
  lemma MarkAndPointIsSound(st: Store, e: Effect, was: Deployment, d: Deployment, status: Status, reason: string,
                            now: Time, appId: string, target: string)
    requires RecordsOk(st) && d.id in st.deployments && st.deployments[d.id] == was
    requires d == was.(backendRef := d.backendRef) && (Named(was.backendRef) ==> Named(d.backendRef))
    requires status != Queued && GoodRecord(Marked(d, status, reason, now))
    requires e.orders == [] || e.orders == [DeleteOrder(d)] || (e.orders == [SyncOrder(d)] && Named(d.backendRef))
    requires forall call :: call in e.calls ==> CallOk(call)
    requires var st1 := Mark(st, d, status, reason, now);
             e.store == st1 || (appId in st1.apps && e.store == PointApp(st1, st1.apps[appId], target))
    ensures Sound(st, e)
  {
    var mid := e.(store := Mark(st, d, status, reason, now));
    MarkIsSound(st, mid, was, d, status, reason, now);
    if e.store != mid.store {
      PointingIsSound(st, mid, e, mid.store.apps[appId], target);
    }
  }

  /** A sound effect stays so with other sound calls. */
  lemma CallsAreSound(st: Store, e: Effect, calls: seq<Call>)
    requires Sound(st, e) && forall call :: call in calls ==> CallOk(call)
    ensures Sound(st, e.(calls := calls))
  {
  }

  /** A failing report on a started deployment that opens a repair round or meets the limit. */
  lemma FailureIsSound(st: Store, was: Deployment, d: Deployment, reason: string, e: Effect, now: Time)
    requires RecordsOk(st) && d.id in st.deployments && st.deployments[d.id] == was
    requires d == was.(backendRef := d.backendRef) && was.startedAt.Some? && Named(d.backendRef)
    requires e == QueueAutoRepair(st, d, reason, now).(calls := e.calls)
    requires forall call :: call in e.calls ==> CallOk(call)
    ensures Sound(st, e)
  {
    RepairIsSound(st, was, d, reason, now);
    CallsAreSound(st, QueueAutoRepair(st, d, reason, now), e.calls);
  }

  /** Any other report, taken in. */
  lemma ReportIsSound(st: Store, job: JobName, was: Deployment, d: Deployment, s: BackendStatus, e: Effect, now: Time)
    requires RecordsOk(st) && d.id in st.deployments && st.deployments[d.id] == was
    requires d == was.(backendRef := d.backendRef) && was.startedAt.Some? && Named(d.backendRef)
    requires s.status in {Provisioning, Running, Degraded, Failed}
    requires !(s.status == Failed && QueueAutoRepair(st, d, s.reason, now).error == None)
    requires e == Synced(st, job, d, s, now).(calls := e.calls) && forall call :: call in e.calls ==> CallOk(call)
    ensures Sound(st, e)
  {
    assert DeploymentOk(st, was);
    MarkAndPointIsSound(st, e, was, d, s.status, s.reason, now, job.appId, d.id);
  }

  lemma SyncedIsSound(st: Store, job: JobName, was: Deployment, d: Deployment, s: BackendStatus, e: Effect, now: Time)
    requires RecordsOk(st) && d.id in st.deployments && st.deployments[d.id] == was
    requires d == was.(backendRef := d.backendRef) && was.startedAt.Some? && Named(d.backendRef)
    requires s.status in {Provisioning, Running, Degraded, Failed}
    requires e == Synced(st, job, d, s, now).(calls := e.calls) && forall call :: call in e.calls ==> CallOk(call)
    ensures Sound(st, e)
  {
    if s.status == Failed && QueueAutoRepair(st, d, s.reason, now).error == None {
      FailureIsSound(st, was, d, s.reason, e, now);
    } else {
      ReportIsSound(st, job, was, d, s, e, now);
    }
  }

  lemma HandleSyncIsSound(st: Store, job: JobName, reply: Result<BackendStatus>, now: Time)
    requires RecordsOk(st) && NameOk(st, job) && job.kind == DeploySync
    requires StatusAnswers(st.deployments[job.deploymentId].backendRef, reply)
    ensures Sound(st, HandleSync(st, job, reply, now))
  {
    var d, e := st.deployments[job.deploymentId], HandleSync(st, job, reply, now);
    if reply.Ok? && d.status !in {Cancelled, Deleted} {
      SyncedIsSound(st, job, d, d.(backendRef := reply.value.ref), reply.value, e, now);
    } else {
      IdleIsSound(st, e);
    }
  }

  lemma HandleDeleteIsSound(st: Store, job: JobName, reply: Result<()>, now: Time)
    requires RecordsOk(st)
    ensures Sound(st, HandleDelete(st, job, reply, now))
  {
    var e, found := HandleDelete(st, job, reply, now), GetDeployment(st, job.tenantId, job.deploymentId);
    if found == None {
      IdleIsSound(st, e);
    } else if reply.Err? {
      FailedIsSound(st, found.value, ErrorText(reply.error), e, now);
    } else {
      DeletedIsSound(st, job, found.value, e, now);
    }
  }

  lemma FailedIsSound(st: Store, d: Deployment, reason: string, e: Effect, now: Time)
    requires RecordsOk(st) && d.id in st.deployments && st.deployments[d.id] == d
    requires e.orders == [] && forall call :: call in e.calls ==> CallOk(call)
    requires e.store == Mark(st, d, Failed, reason, now)
    ensures Sound(st, e)
  {
    assert DeploymentOk(st, d);
    MarkIsSound(st, e, d, d, Failed, reason, now);
  }

  lemma DeletedIsSound(st: Store, job: JobName, d: Deployment, e: Effect, now: Time)
    requires RecordsOk(st) && d.id in st.deployments && st.deployments[d.id] == d
    requires e.orders == [] && forall call :: call in e.calls ==> CallOk(call)
    requires var st1 := Mark(st, d, Deleted, MSG_DELETED, now);
             e.store == st1 || (job.appId in st1.apps && e.store == PointApp(st1, st1.apps[job.appId], ""))
    ensures Sound(st, e)
  {
    assert DeploymentOk(st, d);
    MarkAndPointIsSound(st, e, d, d, Deleted, MSG_DELETED, now, job.appId, "");
  }

  lemma {:induction false} ReconcileOrdersOk(st: Store, items: seq<Deployment>, o: Order)
    requires RecordsOk(st) && o in ReconcileOrders(items)
    requires forall i :: 0 <= i < |items| ==> items[i].id in st.deployments && st.deployments[items[i].id] == items[i]
    ensures OrderOk(st, o)
  {
    var n := |items| - 1;
    if ReconcileOrder(items[n]) == Some(o) {
      OrderIsOk(st, o, items[n]);
    } else {
      ReconcileOrdersOk(st, items[..n], o);
    }
  }

  lemma ReconcileIsSound(st: Store, items: seq<Deployment>)
    requires RecordsOk(st)
    requires forall i :: 0 <= i < |items| ==> items[i].id in st.deployments && st.deployments[items[i].id] == items[i]
    ensures Sound(st, Effect(st, ReconcileOrders(items), [], None))
  {
    forall o | o in ReconcileOrders(items)
      ensures OrderOk(st, o)
    {
      ReconcileOrdersOk(st, items, o);
    }
  }
}
