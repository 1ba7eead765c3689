/** Which record a step of the whole system changes, and exactly how a deployment leaves the
    statuses `deleted` and `cancelled`. */
module Exits {
  import opened Domain
  import opened Deployments
  import opened Lifecycle
  import opened Footprint
  import opened WorldInvariants
  import P = WorkerProtocol

  // ----- One step, at most one record

  /** The deployment an act is about. */
  ghost function Target(w: World, act: Act): string
    requires CanDo(w, act)
  {
    match act
    case Finish(_, id) => id
    case Retry(_, id) => id
    case Cancel(_, id) => id
    case Remove(_, id) => id
    case Reconcile(_, _) => ""
    case Handle(wk, _) => w.queue.workers[wk].job.deploymentId
  }

  /** At most the target's record changes, or appears, stamped with the instant of the step. */
  ghost predicate Touched(st: Store, st': Store, target: string, now: Time) {
    st'.deployments == st.deployments ||
    (&& target in st'.deployments && st'.deployments[target].updatedAt == now
     && st'.deployments == st.deployments[target := st'.deployments[target]])
  }

  lemma HandlerTouches(st: Store, job: Job, reply: Reply, now: Time)
    requires Keyed(st) && Answers(st, job, reply)
    ensures TouchesOnly(st, HandleJob(st, job, reply, now).store, job.deploymentId, now)
  {
    match job.kind
    case DeployCreate => CreateTouches(st, NameOf(job), reply.submit, now);
    case DeploySync => SyncTouches(st, NameOf(job), reply.report, now);
    case DeployDelete => DeleteTouches(st, NameOf(job), reply.deletion, now);
  }

  lemma ActTouches(w: World, act: Act, now: Time)
    requires CanDo(w, act) && Keyed(w.store)
    ensures var st' := EffectOf(w, act, now).store;
            && Touched(w.store, st', Target(w, act), now) && st'.versions == w.store.versions
            && (act.Finish? || st'.deployments.Keys == w.store.deployments.Keys)
  {
    match act
    case Finish(_, _) =>
    case Retry(t, id) => RetryTouches(w.store, t, id, now);
    case Cancel(t, id) => CancelTouches(w.store, t, id, now);
    case Remove(t, id) => RemoveTouches(w.store, t, id, now);
    case Reconcile(_, _) =>
    case Handle(wk, reply) => HandlerTouches(w.store, w.queue.workers[wk].job, reply, now);
  }

  /** What a step does to the records: nothing, unless it is an act, and then only to its target. */
  lemma StepTouches(c: P.Config, w: World, m: Move)
    requires Enabled(w, m) && Keyed(w.store)
    ensures var st' := Apply(c, w, m).store;
            if m.step.Do? then
              && Touched(w.store, st', Target(w, m.step.act), m.now)
              && st'.versions == w.store.versions
              && (m.step.act.Finish? || st'.deployments.Keys == w.store.deployments.Keys)
            else st'.deployments == w.store.deployments
  {
    if m.step.Do? {
      ActTouches(w, m.step.act, m.now);
    }
  }

  // ----- Leaving `deleted` and `cancelled`

  /** The step runs a delete job of the deployment. */
  predicate RunsDelete(w: World, m: Move, d: Deployment) {
    && m.step.Do? && m.step.act.Handle? && m.step.act.w < |w.queue.workers|
    && var p := w.queue.workers[m.step.act.w];
       p.Leased? && p.job.kind == DeployDelete && p.job.deploymentId == d.id && p.job.tenantId == d.tenantId
  }

  /** Only a delete job whose backend call fails. */
  predicate EndsDeleted(w: World, m: Move, d: Deployment) {
    RunsDelete(w, m, d) && m.step.act.reply.DeleteReply? && m.step.act.reply.deletion.Err?
  }

  /** A user's retry, a user's delete, or a delete job. */
  predicate EndsCancelled(w: World, m: Move, d: Deployment) {
    || RunsDelete(w, m, d)
    || (m.step.Do? && (m.step.act == Retry(d.tenantId, d.id) || m.step.act == Remove(d.tenantId, d.id)))
  }

  /** How often the deployment has been submitted to the backend. */
  ghost function Submissions(w: World, id: string): nat {
    multiset(w.calls)[SubmitCall(id)]
  }

  ghost function StatusIn(w: World, id: string): Status
    requires id in w.store.deployments
  {
    w.store.deployments[id].status
  }

  /** A handler run for a cancelled or deleted deployment does nothing, unless it deletes. */
  lemma HandlerOnGone(st: Store, job: Job, reply: Reply, now: Time)
    requires Answers(st, job, reply) && Keyed(st) && job.deploymentId in st.deployments
    requires st.deployments[job.deploymentId].status in {Cancelled, Deleted}
    ensures var d, e := st.deployments[job.deploymentId], HandleJob(st, job, reply, now);
            && d.id in e.store.deployments && SubmitCall(d.id) !in e.calls
            && e.store.deployments[d.id].status ==
               if job.kind != DeployDelete || job.tenantId != d.tenantId then d.status
               else if reply.deletion.Err? then Failed else Deleted
  {
  }

  /** A user's call for a cancelled or deleted deployment. */
  lemma UserOnGone(w: World, act: Act, now: Time, id: string)
    requires CanDo(w, act) && Keyed(w.store) && id in w.store.deployments && Target(w, act) == id && !act.Handle?
    requires StatusIn(w, id) in {Cancelled, Deleted}
    ensures var d, e := w.store.deployments[id], EffectOf(w, act, now);
            && id in e.store.deployments && SubmitCall(id) !in e.calls
            && e.store.deployments[id].status ==
               if d.status == Cancelled && act == Retry(d.tenantId, id) then Queued
               else if d.status == Cancelled && act == Remove(d.tenantId, id) then Deleting
               else d.status
  {
  }

  lemma ActOnGone(w: World, m: Move, id: string)
    requires Enabled(w, m) && m.step.Do? && Keyed(w.store) && id in w.store.deployments
    requires StatusIn(w, id) in {Cancelled, Deleted} && Target(w, m.step.act) == id
    ensures var d, e := w.store.deployments[id], EffectOf(w, m.step.act, m.now);
            && id in e.store.deployments && SubmitCall(id) !in e.calls
            && (e.store.deployments[id].status != d.status <==>
                if d.status == Deleted then EndsDeleted(w, m, d) else EndsCancelled(w, m, d))
  {
    var act := m.step.act;
    if act.Handle? {
      HandlerOnGone(w.store, w.queue.workers[act.w].job, act.reply, m.now);
    } else {
      UserOnGone(w, act, m.now, id);
    }
  }

  lemma OthersDoNotSubmit(w: World, m: Move, id: string)
    requires Enabled(w, m) && m.step.Do? && Keyed(w.store) && id in w.store.deployments
    requires Target(w, m.step.act) != id
    ensures SubmitCall(id) !in EffectOf(w, m.step.act, m.now).calls
  {
  }

  lemma CountsAdd(calls: seq<Call>, more: seq<Call>, call: Call)
    requires call !in more
    ensures multiset(calls + more)[call] == multiset(calls)[call]
  {
    assert multiset(calls + more) == multiset(calls) + multiset(more);
    assert call !in multiset(more);
  }

  /** A deleted deployment stays deleted unless the step is a delete job whose backend call
      fails, and then it does not; and the step submits nothing for it. */
  lemma DeletedExits(c: P.Config, w: World, m: Move, id: string)
    requires Enabled(w, m) && Keyed(w.store) && id in w.store.deployments && StatusIn(w, id) == Deleted
    ensures var w' := Apply(c, w, m);
            && id in w'.store.deployments && Submissions(w', id) == Submissions(w, id)
            && (StatusIn(w', id) != Deleted <==> EndsDeleted(w, m, w.store.deployments[id]))
  {
    StepTouches(c, w, m);
    if m.step.Do? {
      if Target(w, m.step.act) == id {
        ActOnGone(w, m, id);
      } else {
        OthersDoNotSubmit(w, m, id);
      }
      CountsAdd(w.calls, EffectOf(w, m.step.act, m.now).calls, SubmitCall(id));
    }
  }

  /** A cancelled deployment stays cancelled unless the step is a user's retry, a user's delete
      or a delete job, and then it does not; and the step submits nothing for it. */
  lemma CancelledExits(c: P.Config, w: World, m: Move, id: string)
    requires Enabled(w, m) && Keyed(w.store) && id in w.store.deployments && StatusIn(w, id) == Cancelled
    ensures var w' := Apply(c, w, m);
            && id in w'.store.deployments && Submissions(w', id) == Submissions(w, id)
            && (StatusIn(w', id) != Cancelled <==> EndsCancelled(w, m, w.store.deployments[id]))
  {
    StepTouches(c, w, m);
    if m.step.Do? {
      if Target(w, m.step.act) == id {
        ActOnGone(w, m, id);
      } else {
        OthersDoNotSubmit(w, m, id);
      }
      CountsAdd(w.calls, EffectOf(w, m.step.act, m.now).calls, SubmitCall(id));
    }
  }

  // ----- Over whole stretches of a run

  lemma NextAfterCancelled(c: P.Config, worlds: seq<World>, moves: seq<Move>, k: nat, id: string)
    requires IsRun(c, worlds, moves) && k < |moves|
    requires id in worlds[k].store.deployments && StatusIn(worlds[k], id) == Cancelled
    ensures id in worlds[k + 1].store.deployments && Submissions(worlds[k + 1], id) == Submissions(worlds[k], id)
    ensures StatusIn(worlds[k + 1], id) == Cancelled ||
            EndsCancelled(worlds[k], moves[k], worlds[k].store.deployments[id])
  {
    var w, m, w' := worlds[k], moves[k], worlds[k + 1];
    assert Linked(c, w, m, w');
    InvHolds(c, worlds, moves, k);
    CancelledExits(c, w, m, id);
  }

  lemma NextAfterDeleted(c: P.Config, worlds: seq<World>, moves: seq<Move>, k: nat, id: string)
    requires IsRun(c, worlds, moves) && k < |moves|
    requires id in worlds[k].store.deployments && StatusIn(worlds[k], id) == Deleted
    ensures id in worlds[k + 1].store.deployments && Submissions(worlds[k + 1], id) == Submissions(worlds[k], id)
    ensures StatusIn(worlds[k + 1], id) == Deleted || EndsDeleted(worlds[k], moves[k], worlds[k].store.deployments[id])
  {
    var w, m, w' := worlds[k], moves[k], worlds[k + 1];
    assert Linked(c, w, m, w');
    InvHolds(c, worlds, moves, k);
    DeletedExits(c, w, m, id);
  }

  /** From a world where the deployment is cancelled, and until a user retries or deletes it or a
      delete job runs, it is cancelled in every world and never submitted. */
  lemma {:induction false} CancelledStays(c: P.Config, worlds: seq<World>, moves: seq<Move>, i: nat, j: nat, id: string)
    requires IsRun(c, worlds, moves) && i <= j < |worlds|
    requires id in worlds[i].store.deployments && StatusIn(worlds[i], id) == Cancelled
    requires forall k :: i <= k < j && id in worlds[k].store.deployments ==>
               !EndsCancelled(worlds[k], moves[k], worlds[k].store.deployments[id])
    ensures id in worlds[j].store.deployments && StatusIn(worlds[j], id) == Cancelled
    ensures Submissions(worlds[j], id) == Submissions(worlds[i], id)
    decreases j
  {
    if i < j {
      CancelledStays(c, worlds, moves, i, j - 1, id);
      NextAfterCancelled(c, worlds, moves, j - 1, id);
    }
  }

  /** From a world where the deployment is deleted, and until a delete job of it fails at the
      backend, it is deleted in every world and never submitted. */
  lemma {:induction false} DeletedStays(c: P.Config, worlds: seq<World>, moves: seq<Move>, i: nat, j: nat, id: string)
    requires IsRun(c, worlds, moves) && i <= j < |worlds|
    requires id in worlds[i].store.deployments && StatusIn(worlds[i], id) == Deleted
    requires forall k :: i <= k < j && id in worlds[k].store.deployments ==>
               !EndsDeleted(worlds[k], moves[k], worlds[k].store.deployments[id])
    ensures id in worlds[j].store.deployments && StatusIn(worlds[j], id) == Deleted
    ensures Submissions(worlds[j], id) == Submissions(worlds[i], id)
    decreases j
  {
    if i < j {
      DeletedStays(c, worlds, moves, i, j - 1, id);
      NextAfterDeleted(c, worlds, moves, j - 1, id);
    }
  }
}
