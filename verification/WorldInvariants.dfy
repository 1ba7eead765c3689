/** What holds in every world of every run of the whole system. */
module WorldInvariants {
  import opened Domain
  import opened Deployments
  import opened Lifecycle
  import opened StoreInvariants
  import opened CurrentDeployment
  import opened JobNames
  import opened QueueProjection
  import P = WorkerProtocol

  /** The job names that make sense for a store. */
  ghost function OkNames(st: Store): iset<JobName> {
    iset name | NameOk(st, name)
  }

  lemma NamesGrow(st: Store, st': Store)
    requires Extends(st, st')
    ensures OkNames(st) <= OkNames(st')
  {
    forall name | name in OkNames(st)
      ensures name in OkNames(st')
    {
      NameStaysOk(st, st', name);
    }
  }

  predicate PendingOk(st: Store, p: Pending) {
    GetApp(st, p.tenantId, p.app.id).Some?
  }

  ghost predicate Inv(w: World) {
    && RecordsOk(w.store) && CurrentOk(w.store)
    && NamesIn(w.queue, OkNames(w.store))
    && (forall call :: call in w.calls ==> CallOk(call))
    && (forall token :: token in w.pending ==> PendingOk(w.store, w.pending[token]))
  }

  // ----- Effects

  lemma HandlerIsSound(st: Store, job: Job, reply: Reply, now: Time)
    requires RecordsOk(st) && CurrentOk(st) && NameOk(st, NameOf(job)) && Answers(st, job, reply)
    ensures var e := HandleJob(st, job, reply, now); Sound(st, e) && CurrentOk(e.store)
  {
    match job.kind
    case DeployCreate =>
      HandleCreateIsSound(st, NameOf(job), reply.submit, now);
      CreateKeepsCurrent(st, NameOf(job), reply.submit, now);
    case DeploySync =>
      HandleSyncIsSound(st, NameOf(job), reply.report, now);
      SyncKeepsCurrent(st, NameOf(job), reply.report, now);
    case DeployDelete =>
      HandleDeleteIsSound(st, NameOf(job), reply.deletion, now);
      DeleteKeepsCurrent(st, NameOf(job), reply.deletion, now);
  }

  lemma FinishIsSound(st: Store, p: Pending, id: string, now: Time)
    requires RecordsOk(st) && CurrentOk(st) && PendingOk(st, p) && id !in st.deployments && id != ""
    ensures var e := CreateDeployment(st, NewDeployment(id, p.app, p.tenantId, p.user, p.version, now), now);
            Sound(st, e) && CurrentOk(e.store)
  {
    var d := NewDeployment(id, p.app, p.tenantId, p.user, p.version, now);
    CreateIsSound(st, d, now);
    WriteKeepsCurrent(st, d, StatusEvent(Queued), MSG_QUEUED, now);
  }

  lemma EffectIsSound(w: World, act: Act, now: Time)
    requires Inv(w) && CanDo(w, act)
    ensures var e := EffectOf(w, act, now); Sound(w.store, e) && CurrentOk(e.store)
  {
    var st, e := w.store, EffectOf(w, act, now);
    match act
    case Finish(token, id) => FinishIsSound(st, w.pending[token], id, now);
    case Retry(t, id) => RetryIsSound(st, t, id, now); ServiceKeepsCurrent(st, e, t, id, now);
    case Cancel(t, id) => CancelIsSound(st, t, id, now); ServiceKeepsCurrent(st, e, t, id, now);
    case Remove(t, id) => RemoveIsSound(st, t, id, now); ServiceKeepsCurrent(st, e, t, id, now);
    case Reconcile(_, items) => ReconcileIsSound(st, items);
    case Handle(wk, reply) =>
      assert PhaseNamed(w.queue.workers[wk], OkNames(st));
      HandlerIsSound(st, w.queue.workers[wk].job, reply, now);
  }

  // ----- The queue

  lemma {:induction false} PlacedNamed(c: P.Config, q: P.State, orders: seq<Order>, jobIds: seq<string>,
                                       now: Time, names: iset<JobName>)
    requires |orders| <= |jobIds| && FreshIds(q, jobIds) && q.clock <= now && 0 < now && DelaysOk(orders)
    requires NamesIn(q, names) && forall i :: 0 <= i < |orders| ==> orders[i].name in names
    ensures NamesIn(PlaceJobs(q, orders, jobIds, now), names)
  {
    if orders != [] {
      var n := |orders| - 1;
      PlacedNamed(c, q, orders[..n], jobIds, now, names);
      PlacingIsSubmitting(c, q, orders, jobIds, now);
      StepKeepsNames(c, PlaceJobs(q, orders[..n], jobIds, now),
                     P.Move(P.Submit(jobIds[n], orders[n].name, orders[n].delay), now), names);
    }
  }

  lemma ActKeepsNames(c: P.Config, w: World, m: Move, names: iset<JobName>)
    requires Enabled(w, m) && m.step.Do? && NamesIn(w.queue, names)
    requires forall o :: o in EffectOf(w, m.step.act, m.now).orders ==> o.name in names
    ensures NamesIn(Apply(c, w, m).queue, names)
  {
    var act, jobIds := m.step.act, m.step.jobIds;
    var orders := EffectOf(w, act, m.now).orders;
    EffectDelays(w, act, m.now);
    PlacedNamed(c, w.queue, orders, jobIds, m.now, names);
    if act.Handle? {
      StepKeepsNames(c, PlaceJobs(w.queue, orders, jobIds, m.now),
                     P.Move(HandlerMove(w, act, m.now), m.now), names);
    }
  }

  lemma SoundKeepsNames(c: P.Config, w: World, m: Move, e: Effect)
    requires Enabled(w, m) && m.step.Do? && NamesIn(w.queue, OkNames(w.store))
    requires e == EffectOf(w, m.step.act, m.now) && Sound(w.store, e)
    ensures NamesIn(Apply(c, w, m).queue, OkNames(e.store))
  {
    NamesGrow(w.store, e.store);
    MoreNames(w.queue, OkNames(w.store), OkNames(e.store));
    forall o | o in e.orders
      ensures o.name in OkNames(e.store)
    {
      assert OrderOk(e.store, o);
    }
    ActKeepsNames(c, w, m, OkNames(e.store));
  }

  // ----- Apps

  /** Adding an app, or changing one without moving it to another tenant. */
  lemma AppWriteKeeps(st: Store, st': Store, app: App)
    requires RecordsOk(st) && CurrentOk(st)
    requires st' == st.(apps := st.apps[app.id := app])
    requires if app.id in st.apps then app == st.apps[app.id].(config := app.config)
             else app.currentDeploymentId == ""
    ensures RecordsOk(st') && CurrentOk(st') && Extends(st, st')
  {
    forall id | id in st'.deployments
      ensures DeploymentOk(st', st'.deployments[id])
    {
      assert DeploymentOk(st, st.deployments[id]);
    }
    forall id | id in st'.apps
      ensures PointsOk(st', st'.apps[id])
    {
      assert id in st.apps ==> PointsOk(st, st.apps[id]);
    }
  }

  lemma CounterKeeps(st: Store, st': Store)
    requires RecordsOk(st) && CurrentOk(st) && st' == st.(versions := st'.versions)
    ensures RecordsOk(st') && CurrentOk(st') && Extends(st, st')
  {
    forall id | id in st'.deployments
      ensures DeploymentOk(st', st'.deployments[id])
    {
      assert DeploymentOk(st, st.deployments[id]);
    }
    forall id | id in st'.apps
      ensures PointsOk(st', st'.apps[id])
    {
      assert PointsOk(st, st.apps[id]);
    }
  }

  // ----- Every step keeps the invariant

  /** A step that leaves the queue's jobs alone, or moves them within the names of the new store. */
  lemma StoreChangeKeepsInv(w: World, w': World)
    requires Inv(w) && RecordsOk(w'.store) && CurrentOk(w'.store) && Extends(w.store, w'.store)
    requires w'.queue == w.queue || NamesIn(w'.queue, OkNames(w'.store))
    requires forall call :: call in w'.calls ==> call in w.calls || CallOk(call)
    requires forall t :: t in w'.pending ==>
               (t in w.pending && w'.pending[t] == w.pending[t]) || PendingOk(w'.store, w'.pending[t])
    ensures Inv(w')
  {
    NamesGrow(w.store, w'.store);
    if w'.queue == w.queue {
      MoreNames(w.queue, OkNames(w.store), OkNames(w'.store));
    }
    forall t | t in w'.pending
      ensures PendingOk(w'.store, w'.pending[t])
    {
      assert t in w.pending && w'.pending[t] == w.pending[t] ==> PendingOk(w.store, w.pending[t]);
    }
  }

  lemma StepKeepsInv(c: P.Config, w: World, m: Move)
    requires Enabled(w, m) && Inv(w)
    ensures Inv(Apply(c, w, m))
  {
    var w', st := Apply(c, w, m), w.store;
    match m.step {
      case CreateApp(app) => AppWriteKeeps(st, w'.store, app);
      case UpdateApp(_, id, config) => AppWriteKeeps(st, w'.store, st.apps[id].(config := config));
      case Begin(_, _, _, _) => CounterKeeps(st, w'.store);
      case Do(act, _) =>
        EffectIsSound(w, act, m.now);
        SoundKeepsNames(c, w, m, EffectOf(w, act, m.now));
      case OnQueue(step) =>
        StepKeepsNames(c, w.queue, P.Move(step, m.now), OkNames(st));
    }
    StoreChangeKeepsInv(w, w');
  }

  lemma {:induction false} InvHolds(c: P.Config, worlds: seq<World>, moves: seq<Move>, i: nat)
    requires IsRun(c, worlds, moves) && i < |worlds|
    ensures Inv(worlds[i])
  {
    if i > 0 {
      InvHolds(c, worlds, moves, i - 1);
      assert Linked(c, worlds[i - 1], moves[i - 1], worlds[i]);
      StepKeepsInv(c, worlds[i - 1], moves[i - 1]);
    }
  }
}
