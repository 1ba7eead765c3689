/** Which deployment an app points at: the one last reported running, until it is deleted. */
module Pointers {
  import opened Domain
  import opened Deployments
  import opened DeploymentLaws
  import opened Lifecycle
  import opened WorldInvariants
  import P = WorkerProtocol

  /** The handler run is for a deployment of the app. */
  predicate IsFor(st: Store, job: Job, appId: string, id: string) {
    && job.appId == appId && job.deploymentId == id && Found(st, job.tenantId, id)
    && GetApp(st, job.tenantId, appId).Some?
  }

  /** It records that the deployment runs. */
  predicate Runs(st: Store, job: Job, reply: Reply, appId: string, id: string) {
    && IsFor(st, job, appId, id)
    && (|| (job.kind == DeploySync && st.deployments[id].status !in {Cancelled, Deleted}
            && reply.StatusReply? && reply.report.Ok? && reply.report.value.status == Running)
        || (job.kind == DeployCreate && st.deployments[id].status !in {Cancelled, Deleting, Deleted}
            && reply.SubmitReply? && reply.submit.Ok? && reply.submit.value.status == Running))
  }

  /** It completes the deployment's deletion. */
  predicate Removes(st: Store, job: Job, reply: Reply, appId: string, id: string) {
    IsFor(st, job, appId, id) && job.kind == DeployDelete && reply.DeleteReply? && reply.deletion.Ok?
  }

  function PointerOf(st: Store, appId: string): string
    requires appId in st.apps
  {
    st.apps[appId].currentDeploymentId
  }

  /** Where a handler run leaves the app's pointer. */
  ghost predicate PointerRule(st: Store, job: Job, reply: Reply, st': Store, appId: string)
    requires appId in st.apps
  {
    && appId in st'.apps
    && (Runs(st, job, reply, appId, job.deploymentId) ==> PointerOf(st', appId) == job.deploymentId)
    && (Removes(st, job, reply, appId, job.deploymentId) ==>
          PointerOf(st', appId) == if PointerOf(st, appId) == job.deploymentId then "" else PointerOf(st, appId))
    && (!Runs(st, job, reply, appId, job.deploymentId) && !Removes(st, job, reply, appId, job.deploymentId) ==>
          PointerOf(st', appId) == PointerOf(st, appId))
  }

  lemma CreatePointer(st: Store, job: Job, reply: Reply, now: Time, appId: string)
    requires Keyed(st) && Answers(st, job, reply) && job.kind == DeployCreate && appId in st.apps
    ensures PointerRule(st, job, reply, HandleJob(st, job, reply, now).store, appId)
  {
    var name := NameOf(job);
    if Creatable(st, name) {
      match reply.submit
      case Err(e) => FailedSubmission(st, name, e, now);
      case Ok(s) => Submission(st, name, s, now);
    } else {
      CreateIsRefused(st, name, reply.submit, now);
    }
  }

  lemma SyncPointer(st: Store, job: Job, reply: Reply, now: Time, appId: string)
    requires Keyed(st) && Answers(st, job, reply) && job.kind == DeploySync && appId in st.apps
    ensures PointerRule(st, job, reply, HandleJob(st, job, reply, now).store, appId)
  {
    var name := NameOf(job);
    if Syncable(st, name) && reply.report.Ok? {
      var s := reply.report.value;
      if s.status == Running {
        RunningReport(st, name, s, now);
      } else if s.status == Failed {
        FailingReport(st, name, s, now);
      } else {
        PendingReport(st, name, s, now);
      }
    } else {
      SyncIsRefused(st, name, reply.report, now);
    }
  }

  lemma DeletePointer(st: Store, job: Job, reply: Reply, now: Time, appId: string)
    requires Keyed(st) && Answers(st, job, reply) && job.kind == DeployDelete && appId in st.apps
    ensures PointerRule(st, job, reply, HandleJob(st, job, reply, now).store, appId)
  {
    var name := NameOf(job);
    if Found(st, name.tenantId, name.deploymentId) {
      match reply.deletion
      case Err(e) => FailedDeletion(st, name, e, now);
      case Ok(_) => Deletion(st, name, now);
    }
  }

  lemma HandlerPointer(st: Store, job: Job, reply: Reply, now: Time, appId: string)
    requires Keyed(st) && Answers(st, job, reply) && appId in st.apps
    ensures PointerRule(st, job, reply, HandleJob(st, job, reply, now).store, appId)
  {
    match job.kind
    case DeployCreate => CreatePointer(st, job, reply, now, appId);
    case DeploySync => SyncPointer(st, job, reply, now, appId);
    case DeployDelete => DeletePointer(st, job, reply, now, appId);
  }

  // ----- Steps and runs

  /** The step records that a deployment of the app runs, or completes its deletion. */
  predicate Reports(w: World, m: Move, appId: string, id: string) {
    && m.step.Do? && m.step.act.Handle? && m.step.act.w < |w.queue.workers|
    && w.queue.workers[m.step.act.w].Leased?
    && Runs(w.store, w.queue.workers[m.step.act.w].job, m.step.act.reply, appId, id)
  }

  predicate Deletes(w: World, m: Move, appId: string, id: string) {
    && m.step.Do? && m.step.act.Handle? && m.step.act.w < |w.queue.workers|
    && w.queue.workers[m.step.act.w].Leased?
    && Removes(w.store, w.queue.workers[m.step.act.w].job, m.step.act.reply, appId, id)
  }

  /** An app's pointer moves exactly by running reports, to the deployment reported, and by the deletion of
      the deployment it points at, to nothing. */
  lemma PointerMoves(c: P.Config, w: World, m: Move, appId: string, id: string)
    requires Enabled(w, m) && Keyed(w.store) && appId in w.store.apps
    ensures var w' := Apply(c, w, m);
            && appId in w'.store.apps
            && (Reports(w, m, appId, id) ==> PointerOf(w'.store, appId) == id)
            && (Deletes(w, m, appId, id) && PointerOf(w.store, appId) == id ==> PointerOf(w'.store, appId) == "")
            && (PointerOf(w.store, appId) == id && PointerOf(w'.store, appId) != id ==>
                  Deletes(w, m, appId, id) || Reports(w, m, appId, PointerOf(w'.store, appId)))
  {
    if m.step.Do? && m.step.act.Handle? {
      HandlerPointer(w.store, w.queue.workers[m.step.act.w].job, m.step.act.reply, m.now, appId);
    } else if m.step.Do? {
      ServicesKeepApps(w, m.step.act, m.now);
    }
  }

  lemma ServicesKeepApps(w: World, act: Act, now: Time)
    requires CanDo(w, act) && !act.Handle?
    ensures EffectOf(w, act, now).store.apps == w.store.apps
  {
  }

  lemma NextPointer(c: P.Config, worlds: seq<World>, moves: seq<Move>, k: nat, appId: string, id: string)
    requires IsRun(c, worlds, moves) && 0 < k <= |moves| && appId in worlds[k - 1].store.apps
    ensures appId in worlds[k].store.apps
    ensures Reports(worlds[k - 1], moves[k - 1], appId, id) ==> PointerOf(worlds[k].store, appId) == id
    ensures PointerOf(worlds[k - 1].store, appId) == id && PointerOf(worlds[k].store, appId) != id ==>
              || Deletes(worlds[k - 1], moves[k - 1], appId, id)
              || Reports(worlds[k - 1], moves[k - 1], appId, PointerOf(worlds[k].store, appId))
  {
    InvHolds(c, worlds, moves, k - 1);
    var w, m, w' := worlds[k - 1], moves[k - 1], worlds[k];
    assert Linked(c, w, m, w');
    PointerMoves(c, w, m, appId, id);
  }

  /** From a running report of a deployment on, and until another deployment of the app is reported running
      or this one's deletion completes, the app points at it. */
  lemma {:induction false} PointerFollowsReports(c: P.Config, worlds: seq<World>, moves: seq<Move>, i: nat, j: nat,
                                                 appId: string, id: string)
    requires IsRun(c, worlds, moves) && i < j <= |moves| && appId in worlds[i].store.apps
    requires Reports(worlds[i], moves[i], appId, id)
    requires forall k, other :: i < k < j && other != id ==> !Reports(worlds[k], moves[k], appId, other)
    requires forall k :: i < k < j ==> !Deletes(worlds[k], moves[k], appId, id)
    ensures appId in worlds[j].store.apps && PointerOf(worlds[j].store, appId) == id
    decreases j
  {
    if j > i + 1 {
      PointerFollowsReports(c, worlds, moves, i, j - 1, appId, id);
    }
    NextPointer(c, worlds, moves, j, appId, id);
  }
}
