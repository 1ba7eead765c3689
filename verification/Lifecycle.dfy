/** The whole system as one machine: users calling the services, the reconciler, and workers
    running job handlers, over one store and one queue. A service call and a handler run are
    one step each; the queue's own steps are those of the worker protocol. */
module Lifecycle {
  import opened Domain
  import opened Deployments
  import opened Scheduling
  import P = WorkerProtocol

  /** A creation that has taken its version number and not yet stored its deployment. */
  datatype Pending = Pending(app: App, tenantId: string, user: string, version: int)

  datatype World = World(
    store: Store, queue: P.State, pending: map<nat, Pending>, calls: seq<Call>, clock: Time)

  datatype Reply =
    | SubmitReply(submit: Result<BackendStatus>)
    | StatusReply(report: Result<BackendStatus>)
    | DeleteReply(deletion: Result<()>)

  datatype Act =
    | Finish(token: nat, id: string)
    | Retry(tenantId: string, id: string)
    | Cancel(tenantId: string, id: string)
    | Remove(tenantId: string, id: string)
    | Reconcile(limit: nat, items: seq<Deployment>)
    | Handle(w: nat, reply: Reply)

  datatype Step =
    | CreateApp(app: App)
    | UpdateApp(tenantId: string, appId: string, config: AppConfig)
    | Begin(token: nat, tenantId: string, appId: string, user: string)
    | Do(act: Act, jobIds: seq<string>)
    | OnQueue(step: P.Step)

  datatype Move = Move(step: Step, now: Time)

  /** The reply fits the job, and is one the backend may give. */
  predicate Answers(st: Store, job: Job, reply: Reply) {
    var found := GetDeployment(st, job.tenantId, job.deploymentId);
    match job.kind
    case DeployCreate => reply.SubmitReply? && SubmitAnswers(reply.submit)
    case DeploySync => reply.StatusReply? && (found.Some? ==> StatusAnswers(found.value.backendRef, reply.report))
    case DeployDelete => reply.DeleteReply? && (found.Some? ==> DeleteAnswers(found.value.backendRef, reply.deletion))
    case OtherKind(_) => false
  }

  // ----- Steps

  predicate FreshIds(q: P.State, jobIds: seq<string>) {
    && (forall i :: 0 <= i < |jobIds| ==> jobIds[i] !in q.known)
    && (forall i, j :: 0 <= i < j < |jobIds| ==> jobIds[i] != jobIds[j])
  }

  ghost predicate CanDo(w: World, act: Act) {
    match act
    case Finish(token, id) => token in w.pending && id !in w.store.deployments && id != ""
    case Reconcile(limit, items) => limit > 0 && OldestActive(w.store, limit, items)
    case Handle(wk, reply) =>
      && wk < |w.queue.workers| && w.queue.workers[wk].Leased?
      && Answers(w.store, w.queue.workers[wk].job, reply)
    case _ => true
  }

  function EffectOf(w: World, act: Act, now: Time): Effect
    requires CanDo(w, act)
  {
    match act
    case Finish(token, id) =>
      var p := w.pending[token];
      CreateDeployment(w.store, NewDeployment(id, p.app, p.tenantId, p.user, p.version, now), now)
    case Retry(tenantId, id) => RetryDeployment(w.store, tenantId, id, now)
    case Cancel(tenantId, id) => CancelDeployment(w.store, tenantId, id, now)
    case Remove(tenantId, id) => DeleteDeployment(w.store, tenantId, id, now)
    case Reconcile(_, items) => Effect(w.store, ReconcileOrders(items), [], None)
    case Handle(wk, reply) => HandleJob(w.store, w.queue.workers[wk].job, reply, now)
  }

  function HandleJob(st: Store, job: Job, reply: Reply, now: Time): Effect
    requires Answers(st, job, reply)
  {
    match job.kind
    case DeployCreate => HandleCreate(st, NameOf(job), reply.submit, now)
    case DeploySync => HandleSync(st, NameOf(job), reply.report, now)
    case DeployDelete => HandleDelete(st, NameOf(job), reply.deletion, now)
  }

  ghost predicate Enabled(w: World, m: Move) {
    && w.queue.clock <= w.clock <= m.now && 0 < m.now
    && match m.step
       case CreateApp(app) => app.id !in w.store.apps && app.currentDeploymentId == "" && SlugIsFree(w.store, app)
       case UpdateApp(tenantId, appId, _) => GetApp(w.store, tenantId, appId).Some?
       case Begin(token, tenantId, appId, _) =>
         token !in w.pending && GetApp(w.store, tenantId, appId).Some?
       case Do(act, jobIds) =>
         && CanDo(w, act) && FreshIds(w.queue, jobIds)
         && |EffectOf(w, act, m.now).orders| <= |jobIds|
       case OnQueue(step) =>
         && !(step.Submit? || step.Succeed? || step.Fail?)
         && P.Enabled(w.queue, P.Move(step, m.now))
  }

  /** The queue after jobs have been scheduled. */
  function PlaceJobs(q: P.State, orders: seq<Order>, jobIds: seq<string>, now: Time): P.State
    requires |orders| <= |jobIds|
  {
    q.(queue := PlaceAll(q.queue, orders, jobIds, now),
       known := q.known + set i | 0 <= i < |orders| :: jobIds[i],
       clock := if orders == [] then q.clock else now)
  }

  /** What a handler run means for its worker. */
  function HandlerMove(w: World, act: Act, now: Time): P.Step
    requires CanDo(w, act) && act.Handle?
  {
    var e := EffectOf(w, act, now).error;
    if e == None then P.Succeed(act.w) else P.Fail(act.w, ErrorText(e.value))
  }

  function Apply(c: P.Config, w: World, m: Move): World
    requires Enabled(w, m)
  {
    var t := w.(clock := m.now);
    var st := w.store;
    match m.step
    case CreateApp(app) => t.(store := st.(apps := st.apps[app.id := app]))
    case UpdateApp(_, appId, config) =>
      t.(store := st.(apps := st.apps[appId := st.apps[appId].(config := config)]))
    case Begin(token, tenantId, appId, user) =>
      var key := VersionKey(tenantId, appId);
      var version := VersionOf(st, key) + 1;
      t.(store := st.(versions := st.versions[key := version]),
         pending := w.pending[token := Pending(st.apps[appId], tenantId, user, version)])
    case Do(act, jobIds) =>
      var e := EffectOf(w, act, m.now);
      var q := PlaceJobs(w.queue, e.orders, jobIds, m.now);
      World(e.store,
            if act.Handle? then P.Apply(c, q, P.Move(HandlerMove(w, act, m.now), m.now)) else q,
            if act.Finish? then w.pending - {act.token} else w.pending,
            w.calls + e.calls, m.now)
    case OnQueue(step) => t.(queue := P.Apply(c, w.queue, P.Move(step, m.now)))
  }

  ghost predicate Init(w: World) {
    && w.store == Store(map[], map[], map[], map[]) && P.Init(w.queue)
    && w.pending == map[] && w.calls == [] && w.clock == w.queue.clock
  }

  ghost predicate Linked(c: P.Config, w: World, m: Move, w': World) {
    Enabled(w, m) && w' == Apply(c, w, m)
  }

  ghost predicate IsRun(c: P.Config, worlds: seq<World>, moves: seq<Move>) {
    && P.ValidConfig(c) && |worlds| == |moves| + 1 && Init(worlds[0])
    && forall i :: 0 <= i < |moves| ==> Linked(c, worlds[i], moves[i], worlds[i + 1])
  }
}
