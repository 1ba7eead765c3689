/** What the deployment service and the job handlers do, as functions: from the store, the job
    and the backend's reply to the new store, the jobs to schedule, the backend calls made and
    the outcome. */
module Deployments {
  import opened Domain
  import opened Policy

  const SYNC_DELAY: Time := 2 * SECOND

  // Event messages.
  const MSG_QUEUED := "deployment queued"
  const MSG_RETRY := "deployment retry queued"
  const MSG_CANCELLED := "deployment cancelled"
  const MSG_DELETING := "deployment deletion queued"
  const MSG_DELETED := "deployment deleted"
  const MSG_CREATING := "creating kubernetes resources"
  const MSG_REPAIR := "auto-repair queued: "
  const MSG_LIMIT := "auto-repair limit reached: "

  // ----- The store

  datatype Store = Store(
    apps: map<string, App>, deployments: map<string, Deployment>,
    events: map<string, seq<Event>>, versions: map<string, int>)

  /** Records are stored under their own ids. */
  ghost predicate Keyed(st: Store) {
    && (forall id :: id in st.apps ==> st.apps[id].id == id)
    && (forall id :: id in st.deployments ==> st.deployments[id].id == id)
  }

  function GetApp(st: Store, tenantId: string, id: string): Option<App> {
    if id in st.apps && st.apps[id].tenantId == tenantId then Some(st.apps[id]) else None
  }

  /** No app of the tenant has this app's slug. */
  predicate SlugIsFree(st: Store, app: App) {
    forall id :: id in st.apps && st.apps[id].tenantId == app.tenantId ==> st.apps[id].slug != app.slug
  }

  function GetDeployment(st: Store, tenantId: string, id: string): Option<Deployment> {
    if id in st.deployments && st.deployments[id].tenantId == tenantId then Some(st.deployments[id]) else None
  }

  function EventsOf(st: Store, id: string): seq<Event> {
    if id in st.events then st.events[id] else []
  }

  function AppendEvent(st: Store, e: Event): Store {
    st.(events := st.events[e.deploymentId := EventsOf(st, e.deploymentId) + [e]])
  }

  /** A record written together with the event that explains it. */
  function Record(st: Store, d: Deployment, kind: EventKind, message: string, now: Time): Store {
    AppendEvent(st.(deployments := st.deployments[d.id := d]),
                Event(d.id, d.tenantId, kind, message, now))
  }

  function VersionKey(tenantId: string, appId: string): string {
    tenantId + ":" + appId
  }

  function VersionOf(st: Store, key: string): int {
    if key in st.versions then st.versions[key] else 0
  }

  // ----- Jobs to schedule, backend calls and replies

  datatype Order = Order(name: JobName, delay: Option<Time>)

  function NameFor(kind: JobKind, d: Deployment): JobName {
    JobName(kind, d.tenantId, d.appId, d.id)
  }

  function CreateOrder(d: Deployment): Order { Order(NameFor(DeployCreate, d), None) }

  function DeleteOrder(d: Deployment): Order { Order(NameFor(DeployDelete, d), None) }

  function SyncOrder(d: Deployment): Order { Order(NameFor(DeploySync, d), Some(SYNC_DELAY)) }

  datatype BackendStatus = BackendStatus(status: Status, reason: string, ref: BackendRef)

  // What the backend may answer.

  predicate SubmitAnswers(r: Result<BackendStatus>) {
    r.Ok? ==> r.value.status in {Provisioning, Running} && Named(r.value.ref)
  }

  /** A status report echoes the reference it was asked about. */
  predicate StatusAnswers(ref: BackendRef, r: Result<BackendStatus>) {
    r.Ok? ==>
      && r.value.status in {Provisioning, Running, Degraded, Failed}
      && r.value.ref.namespace == ref.namespace && r.value.ref.deployment == ref.deployment
  }

  predicate DeleteAnswers(ref: BackendRef, r: Result<()>) {
    !Named(ref) ==> r.Ok?
  }

  datatype Call = SubmitCall(deploymentId: string) | StatusCall(ref: BackendRef) | DeleteCall(ref: BackendRef)

  datatype Effect = Effect(store: Store, orders: seq<Order>, calls: seq<Call>, error: Option<Error>)

  function Refused(st: Store, e: Error): Effect { Effect(st, [], [], Some(e)) }

  function Unchanged(st: Store): Effect { Effect(st, [], [], None) }

  // ----- Deployment service

  predicate Terminal(status: Status) {
    status == Running || status == Failed || status == Cancelled || status == Deleted
  }

  function Marked(d: Deployment, status: Status, reason: string, now: Time): Deployment {
    d.(status := status, statusReason := reason, updatedAt := now,
       startedAt := if status == Provisioning && d.startedAt == None then Some(now) else d.startedAt,
       repairAttempts := if status == Running then 0 else d.repairAttempts,
       finishedAt := if Terminal(status) then Some(now) else d.finishedAt)
  }

  function Mark(st: Store, d: Deployment, status: Status, reason: string, now: Time): Store {
    Record(st, Marked(d, status, reason, now), StatusEvent(status), reason, now)
  }

  function NewDeployment(id: string, app: App, tenantId: string, user: string, version: int, now: Time): Deployment {
    Deployment(id, tenantId, app.id, version, app.config, Queued, "", NO_REF, user, 0, None, None, now, now)
  }

  function CreateDeployment(st: Store, d: Deployment, now: Time): Effect {
    Effect(Record(st, d, StatusEvent(Queued), MSG_QUEUED, now), [CreateOrder(d)], [], None)
  }

  function Requeued(d: Deployment, now: Time): Deployment {
    d.(status := Queued, statusReason := "", finishedAt := None, repairAttempts := 0, updatedAt := now)
  }

  function RetryDeployment(st: Store, tenantId: string, id: string, now: Time): Effect {
    var found := GetDeployment(st, tenantId, id);
    if found == None then Refused(st, NotFound)
    else if found.value.status != Failed && found.value.status != Cancelled then Refused(st, Validation)
    else
      var d := Requeued(found.value, now);
      Effect(Record(st, d, RetryQueued, MSG_RETRY, now), [CreateOrder(d)], [], None)
  }

  function CancelDeployment(st: Store, tenantId: string, id: string, now: Time): Effect {
    var found := GetDeployment(st, tenantId, id);
    if found == None then Refused(st, NotFound)
    else if found.value.status != Queued && found.value.status != Provisioning then Refused(st, Validation)
    else Effect(Mark(st, found.value, Cancelled, MSG_CANCELLED, now), [], [], None)
  }

  function DeleteDeployment(st: Store, tenantId: string, id: string, now: Time): Effect {
    var found := GetDeployment(st, tenantId, id);
    if found == None then Refused(st, NotFound)
    else if found.value.status == Deleted || found.value.status == Deleting then Unchanged(st)
    else Effect(Mark(st, found.value, Deleting, MSG_DELETING, now),
                [DeleteOrder(found.value)], [], None)
  }

  /** How many repair rounds a deployment may have: a constant of its snapshot. */
  function RepairLimit(d: Deployment): int {
    RepairLimitOf(d.snapshot.reliability)
  }

  predicate AutoRepairs(d: Deployment) {
    RepairsOf(d.snapshot.reliability)
  }

  function Repairing(d: Deployment, reason: string, now: Time): Deployment {
    d.(repairAttempts := d.repairAttempts + 1, status := Recovering,
       statusReason := MSG_REPAIR + reason, finishedAt := None, updatedAt := now)
  }

  function QueueAutoRepair(st: Store, d: Deployment, reason: string, now: Time): Effect {
    if !AutoRepairs(d) then Refused(st, Validation)
    else if d.repairAttempts >= RepairLimit(d) then
      Effect(Mark(st, d, Failed, MSG_LIMIT + reason, now), [], [], None)
    else
      var r := Repairing(d, reason, now);
      Effect(Record(st, r, AutoRepairQueued, r.statusReason, now), [CreateOrder(r)], [], None)
  }

  // ----- Job handlers

  function PointApp(st: Store, app: App, deploymentId: string): Store {
    st.(apps := st.apps[app.id := app.(currentDeploymentId := deploymentId)])
  }

  function HandleCreate(st: Store, job: JobName, reply: Result<BackendStatus>, now: Time): Effect {
    var found := GetDeployment(st, job.tenantId, job.deploymentId);
    if found == None then Refused(st, NotFound)
    else if found.value.status in {Cancelled, Deleting, Deleted} then Unchanged(st)
    else
      var app := GetApp(st, job.tenantId, job.appId);
      if app == None then Refused(st, NotFound)
      else Submitted(st, found.value, app.value, reply, now)
  }

  /** The part of the create handler from the first status mark on. */
  function Submitted(st: Store, d: Deployment, app: App, reply: Result<BackendStatus>, now: Time): Effect {
    var d1 := Marked(d, Provisioning, MSG_CREATING, now);
    var st1 := Mark(st, d, Provisioning, MSG_CREATING, now);
    match reply
    case Err(e) =>
      Effect(Mark(st1, d1, Failed, ErrorText(e), now), [], [SubmitCall(d.id)], Some(e))
    case Ok(s) =>
      var d2 := d1.(backendRef := s.ref);
      var st2 := Mark(st1, d2, s.status, s.reason, now);
      Effect(if s.status == Running then PointApp(st2, app, d.id) else st2,
             if s.status == Running || s.status == Provisioning then [SyncOrder(d)] else [],
             [SubmitCall(d.id)], None)
  }

  function ErrorText(e: Error): string {
    match e
    case NotFound => "not found"
    case Validation => "validation failed"
    case Conflict => "conflict"
    case BackendError(m) => m
  }

  function HandleSync(st: Store, job: JobName, reply: Result<BackendStatus>, now: Time): Effect {
    var found := GetDeployment(st, job.tenantId, job.deploymentId);
    if found == None then Refused(st, NotFound)
    else if found.value.status in {Cancelled, Deleted} then Unchanged(st)
    else
      var calls := [StatusCall(found.value.backendRef)];
      if reply.Err? then Effect(st, [], calls, Some(reply.error))
      else Synced(st, job, found.value.(backendRef := reply.value.ref), reply.value, now).(calls := calls)
  }

  /** The part of the sync handler after the backend has reported. */
  function Synced(st: Store, job: JobName, d: Deployment, s: BackendStatus, now: Time): Effect {
    var repair := QueueAutoRepair(st, d, s.reason, now);
    if s.status == Failed && repair.error == None then repair
    else
      var st1 := Mark(st, d, s.status, s.reason, now);
      if s.status in {Provisioning, Degraded, Recovering} then Effect(st1, [SyncOrder(d)], [], None)
      else if s.status != Running then Unchanged(st1)
      else
        var app := GetApp(st1, job.tenantId, job.appId);
        if app == None then Refused(st1, NotFound)
        else if app.value.currentDeploymentId == d.id then Unchanged(st1)
        else Unchanged(PointApp(st1, app.value, d.id))
  }

  function HandleDelete(st: Store, job: JobName, reply: Result<()>, now: Time): Effect {
    var found := GetDeployment(st, job.tenantId, job.deploymentId);
    if found == None then Refused(st, NotFound)
    else
      var d, calls := found.value, [DeleteCall(found.value.backendRef)];
      if reply.Err? then
        Effect(Mark(st, d, Failed, ErrorText(reply.error), now), [], calls, Some(reply.error))
      else
        var st1 := Mark(st, d, Deleted, MSG_DELETED, now);
        var app := GetApp(st1, job.tenantId, job.appId);
        if app.Some? && app.value.currentDeploymentId == d.id
        then Effect(PointApp(st1, app.value, ""), [], calls, None)
        else Effect(st1, [], calls, None)
  }

  // ----- Reconciliation

  predicate Active(status: Status) {
    status in {Queued, Provisioning, Running, Degraded, Recovering, Deleting}
  }

  /** What ListActive may return: as many active deployments as the limit allows, each once, such
      that none left out was updated before one listed. */
  ghost predicate OldestActive(st: Store, limit: nat, items: seq<Deployment>) {
    && (forall i :: 0 <= i < |items| ==>
          items[i].id in st.deployments && st.deployments[items[i].id] == items[i] && Active(items[i].status))
    && (forall i, j :: 0 <= i < j < |items| ==> items[i].id != items[j].id)
    && (forall i, j :: 0 <= i < j < |items| ==> items[i].updatedAt <= items[j].updatedAt)
    && |items| <= limit
    && (forall id :: id in st.deployments && Active(st.deployments[id].status) ==>
          Listed(items, id) ||
          (|items| == limit && forall i :: 0 <= i < |items| ==> items[i].updatedAt <= st.deployments[id].updatedAt))
  }

  predicate Listed(items: seq<Deployment>, id: string) {
    exists i :: 0 <= i < |items| && items[i].id == id
  }

  /** The job that brings a deployment forward, if its status calls for one. */
  function ReconcileOrder(d: Deployment): Option<Order> {
    match d.status
    case Queued => Some(CreateOrder(d))
    case Deleting => Some(DeleteOrder(d))
    case Provisioning => Some(if Named(d.backendRef) then SyncOrder(d) else CreateOrder(d))
    case Running => Some(if Named(d.backendRef) then SyncOrder(d) else CreateOrder(d))
    case Degraded => Some(if Named(d.backendRef) then SyncOrder(d) else CreateOrder(d))
    case Recovering => Some(if Named(d.backendRef) then SyncOrder(d) else CreateOrder(d))
    case _ => None
  }

  function ReconcileOrders(items: seq<Deployment>): seq<Order> {
    if items == [] then [] else
      var n := |items| - 1;
      var o := ReconcileOrder(items[n]);
      ReconcileOrders(items[..n]) + if o.Some? then [o.value] else []
  }
}
