/** The promises of the deployment lifecycle, over every world of every run. */
module LifecycleTheorems {
  import opened Domain
  import opened Deployments
  import opened EventLog
  import opened Lifecycle
  import opened StoreInvariants
  import opened CurrentDeployment
  import opened JobNames
  import opened WorldInvariants
  import P = WorkerProtocol

  /** Folding a deployment's event history gives its status, reason, repair count, and start and
      finish times. */
  lemma EventLogGivesTheRecord(c: P.Config, worlds: seq<World>, moves: seq<Move>, i: nat, id: string)
    requires IsRun(c, worlds, moves) && i < |worlds| && id in worlds[i].store.deployments
    ensures Fold(EventsOf(worlds[i].store, id)) == SummaryOf(worlds[i].store.deployments[id])
  {
    InvHolds(c, worlds, moves, i);
    assert DeploymentOk(worlds[i].store, worlds[i].store.deployments[id]);
  }

  /** Every job, wherever it is: waiting, delayed, leased, dead-lettered or in a worker's hands. */
  ghost predicate Somewhere(s: P.State, job: Job) {
    || job in s.queue.ready || job in s.queue.delayed || job in s.queue.processing
    || (exists d :: d in s.queue.dead && d.job == job)
    || (exists w :: 0 <= w < |s.workers| && !s.workers[w].Idle? && s.workers[w].job == job)
  }

  /** Every job names a stored deployment of its tenant and app; a sync job names one that was
      started and has a backend object. */
  lemma JobsNameDeployments(c: P.Config, worlds: seq<World>, moves: seq<Move>, i: nat, job: Job)
    requires IsRun(c, worlds, moves) && i < |worlds| && Somewhere(worlds[i].queue, job)
    ensures var st := worlds[i].store;
            && job.deploymentId in st.deployments
            && var d := st.deployments[job.deploymentId];
               && d.tenantId == job.tenantId && d.appId == job.appId
               && (job.kind == DeploySync ==> d.startedAt.Some? && Named(d.backendRef))
  {
    InvHolds(c, worlds, moves, i);
    assert NameOf(job) in OkNames(worlds[i].store) by {
      NamedSomewhere(worlds[i].queue, OkNames(worlds[i].store), job);
    }
  }

  lemma NamedSomewhere(s: P.State, names: iset<JobName>, job: Job)
    requires NamesIn(s, names) && Somewhere(s, job)
    ensures NameOf(job) in names
  {
    if w :| 0 <= w < |s.workers| && !s.workers[w].Idle? && s.workers[w].job == job {
      assert PhaseNamed(s.workers[w], names);
    }
  }

  /** No status query is ever made without a backend reference. */
  lemma StatusQueriesNameObjects(c: P.Config, worlds: seq<World>, moves: seq<Move>, i: nat, ref: BackendRef)
    requires IsRun(c, worlds, moves) && i < |worlds| && StatusCall(ref) in worlds[i].calls
    ensures Named(ref)
  {
    InvHolds(c, worlds, moves, i);
    assert CallOk(StatusCall(ref));
  }

  /** A deployment that runs, is degraded or recovers was started and has a backend object; a
      provisioning one was started. */
  lemma RunningWasStarted(c: P.Config, worlds: seq<World>, moves: seq<Move>, i: nat, id: string)
    requires IsRun(c, worlds, moves) && i < |worlds| && id in worlds[i].store.deployments
    ensures var d := worlds[i].store.deployments[id];
            && (d.status in {Provisioning, Running, Degraded, Recovering} ==> d.startedAt.Some?)
            && (d.status in {Running, Degraded, Recovering} ==> Named(d.backendRef))
  {
    InvHolds(c, worlds, moves, i);
    assert DeploymentOk(worlds[i].store, worlds[i].store.deployments[id]);
  }

  /** An app's current deployment is empty or one of its own that is not deleted. */
  lemma CurrentDeploymentIsLive(c: P.Config, worlds: seq<World>, moves: seq<Move>, i: nat, appId: string)
    requires IsRun(c, worlds, moves) && i < |worlds| && appId in worlds[i].store.apps
    ensures var st := worlds[i].store;
            var app := st.apps[appId];
            app.currentDeploymentId == "" ||
            (&& app.currentDeploymentId in st.deployments
             && var d := st.deployments[app.currentDeploymentId];
                d.appId == appId && d.tenantId == app.tenantId && d.status != Deleted)
  {
    InvHolds(c, worlds, moves, i);
    assert PointsOk(worlds[i].store, worlds[i].store.apps[appId]);
  }

  // ----- Auto-repair

  /** The repair count stays within the limit, and so does the number of repair rounds in any
      stretch of the history without a running report or a user retry. */
  lemma RepairsAreBounded(c: P.Config, worlds: seq<World>, moves: seq<Move>, i: nat, id: string, from: nat, to: nat)
    requires IsRun(c, worlds, moves) && i < |worlds| && id in worlds[i].store.deployments
    requires var log := EventsOf(worlds[i].store, id);
             from <= to <= |log| && forall k :: from <= k < to ==> !Resets(log[k])
    ensures var d, log := worlds[i].store.deployments[id], EventsOf(worlds[i].store, id);
            0 <= d.repairAttempts <= RepairLimit(d) && Rounds(log[from..to]) <= RepairLimit(d)
  {
    InvHolds(c, worlds, moves, i);
    var d, log := worlds[i].store.deployments[id], EventsOf(worlds[i].store, id);
    assert DeploymentOk(worlds[i].store, d);
    StretchIsBounded(log, RepairLimit(d), from, to);
  }

  lemma {:induction false} CountIsNatural(events: seq<Event>)
    ensures Fold(events).repairAttempts >= 0
  {
    if events != [] {
      CountIsNatural(events[..|events| - 1]);
    }
  }

  lemma StretchIsBounded(log: seq<Event>, limit: int, from: nat, to: nat)
    requires RoundsWithin(log, limit) && limit >= 0 && from <= to <= |log|
    requires forall k :: from <= k < to ==> !Resets(log[k])
    ensures Rounds(log[from..to]) <= limit
  {
    RoundsAreCounted(log, from, to);
    PrefixWithin(log, limit, to);
    CountIsNatural(log[..from]);
  }

  /** What a failing report does. It opens a repair round exactly if the policy repairs and the
      count is below the limit; otherwise the deployment is failed and nothing is scheduled. */
  lemma FailingSync(st: Store, job: JobName, s: BackendStatus, now: Time)
    requires NameOk(st, job) && Keyed(st) && st.deployments[job.deploymentId].status !in {Cancelled, Deleted}
    requires s.status == Failed
    ensures var d, e := st.deployments[job.deploymentId], HandleSync(st, job, Ok(s), now);
            && job.deploymentId in e.store.deployments && e.error == None
            && var d' := e.store.deployments[job.deploymentId];
               if AutoRepairs(d) && d.repairAttempts < RepairLimit(d) then
                 d'.status == Recovering && d'.repairAttempts == d.repairAttempts + 1 && e.orders == [CreateOrder(d)]
               else
                 d'.status == Failed && d'.repairAttempts == d.repairAttempts && e.orders == []
  {
  }

  /** Auto-repair ends: once a stretch without a reset holds as many rounds as the limit allows,
      the next failing report marks the deployment failed. */
  lemma RepairEnds(c: P.Config, worlds: seq<World>, moves: seq<Move>, i: nat, job: JobName, from: nat,
                   s: BackendStatus, now: Time)
    requires IsRun(c, worlds, moves) && i < |worlds| && NameOk(worlds[i].store, job)
    requires worlds[i].store.deployments[job.deploymentId].status !in {Cancelled, Deleted} && s.status == Failed
    requires var st := worlds[i].store;
             var log := EventsOf(st, job.deploymentId);
             && from <= |log| && (forall k :: from <= k < |log| ==> !Resets(log[k]))
             && Rounds(log[from..]) >= RepairLimit(st.deployments[job.deploymentId])
    ensures var e := HandleSync(worlds[i].store, job, Ok(s), now);
            && job.deploymentId in e.store.deployments
            && e.store.deployments[job.deploymentId].status == Failed && e.orders == []
  {
    InvHolds(c, worlds, moves, i);
    var st := worlds[i].store;
    var d, log := st.deployments[job.deploymentId], EventsOf(st, job.deploymentId);
    assert DeploymentOk(st, d);
    LimitIsReached(d, log, from);
    FailingSync(st, job, s, now);
  }

  lemma LimitIsReached(d: Deployment, log: seq<Event>, from: nat)
    requires Explained(d, log) && from <= |log| && (forall k :: from <= k < |log| ==> !Resets(log[k]))
    requires Rounds(log[from..]) >= RepairLimit(d)
    ensures d.repairAttempts >= RepairLimit(d)
  {
    assert log[..|log|] == log && log[from..|log|] == log[from..];
    RoundsAreCounted(log, from, |log|);
    CountIsNatural(log[..from]);
  }

  // ----- Records over time

  lemma StepExtends(c: P.Config, w: World, m: Move)
    requires Enabled(w, m) && Inv(w)
    ensures Extends(w.store, Apply(c, w, m).store)
  {
    var w', st := Apply(c, w, m), w.store;
    match m.step
    case CreateApp(app) => AppWriteKeeps(st, w'.store, app);
    case UpdateApp(_, id, config) => AppWriteKeeps(st, w'.store, st.apps[id].(config := config));
    case Begin(_, _, _, _) => CounterKeeps(st, w'.store);
    case Do(act, _) => EffectIsSound(w, act, m.now);
    case OnQueue(step) =>
  }

  lemma NextExtends(c: P.Config, worlds: seq<World>, moves: seq<Move>, k: nat)
    requires IsRun(c, worlds, moves) && k < |moves|
    ensures Extends(worlds[k].store, worlds[k + 1].store)
  {
    InvHolds(c, worlds, moves, k);
    var w, m, w' := worlds[k], moves[k], worlds[k + 1];
    assert Linked(c, w, m, w');
    StepExtends(c, w, m);
  }

  /** Through the rest of any run a deployment keeps its tenant, app, version and configuration
      snapshot, its first start time, and its having a backend object; and no app disappears or
      changes tenant. */
  lemma {:induction false} RecordsOnlyGrow(c: P.Config, worlds: seq<World>, moves: seq<Move>, i: nat, j: nat)
    requires IsRun(c, worlds, moves) && i <= j < |worlds|
    ensures Extends(worlds[i].store, worlds[j].store)
    decreases j
  {
    if i < j {
      RecordsOnlyGrow(c, worlds, moves, i, j - 1);
      NextExtends(c, worlds, moves, j - 1);
      ExtendsTransitive(worlds[i].store, worlds[j - 1].store, worlds[j].store);
    }
  }
}
