/** Calls at the granularity of store operations. A service call or handler run reads a copy of a
    deployment, changes the copy, and writes it back; other calls may come between, and the store
    does not notice. What survives of the lifecycle, and what does not. */
module Interleaving {
  import opened Domain
  import opened Deployments
  import opened EventLog
  import opened StoreInvariants

  /** What calls do to their copies. */
  datatype Change =
    | MarkAs(status: Status, reason: string)
    | Requeue
    | Repair(reason: string)
    | Refer(ref: BackendRef)

  function Changed(d: Deployment, change: Change, now: Time): Deployment {
    match change
    case MarkAs(status, reason) => Marked(d, status, reason, now)
    case Requeue => Requeued(d, now)
    case Repair(reason) => Repairing(d, reason, now)
    case Refer(ref) => d.(backendRef := ref)
  }

  datatype Op =
    | Create(d: Deployment)
    | Load(call: nat, tenantId: string, id: string)
    | Alter(call: nat, change: Change)
    | Save(call: nat)
    | Log(e: Event)

  datatype Move = Move(op: Op, now: Time)

  /** The store, and the copies the calls under way hold. */
  datatype State = State(store: Store, copies: map<nat, Deployment>)

  const NOTHING := State(Store(map[], map[], map[], map[]), map[])

  predicate Enabled(s: State, m: Move) {
    match m.op
    case Create(d) => d.id !in s.store.deployments
    case Load(_, tenantId, id) => GetDeployment(s.store, tenantId, id).Some?
    case Alter(call, _) => call in s.copies
    case Save(call) => call in s.copies && s.copies[call].id in s.store.deployments
    case Log(_) => true
  }

  function Apply(s: State, m: Move): State
    requires Enabled(s, m)
  {
    var st := s.store;
    match m.op
    case Create(d) => s.(store := st.(deployments := st.deployments[d.id := d]))
    case Load(call, _, id) => s.(copies := s.copies[call := st.deployments[id]])
    case Alter(call, change) => s.(copies := s.copies[call := Changed(s.copies[call], change, m.now)])
    case Save(call) => s.(store := st.(deployments := st.deployments[s.copies[call].id := s.copies[call]]))
    case Log(e) => s.(store := AppendEvent(st, e))
  }

  /** Runs the moves in order, as long as they are enabled. */
  function Exec(s: State, moves: seq<Move>): Option<State>
    decreases |moves|
  {
    if moves == [] then Some(s)
    else if !Enabled(s, moves[0]) then None
    else Exec(Apply(s, moves[0]), moves[1..])
  }

  // ----- What survives

  /** Records are stored under their ids, and every copy is of a stored deployment. */
  ghost predicate CopiesOk(s: State) {
    && (forall id :: id in s.store.deployments ==> s.store.deployments[id].id == id)
    && (forall call :: call in s.copies ==>
          && s.copies[call].id in s.store.deployments
          && SameIdentity(s.store.deployments[s.copies[call].id], s.copies[call]))
  }

  /** No deployment disappears, and none changes tenant, app, version or snapshot. */
  ghost predicate KeepsIdentities(s: State, s': State) {
    forall id :: id in s.store.deployments ==>
      id in s'.store.deployments && SameIdentity(s.store.deployments[id], s'.store.deployments[id])
  }

  lemma StepKeepsIdentities(s: State, m: Move)
    requires CopiesOk(s) && Enabled(s, m)
    ensures CopiesOk(Apply(s, m)) && KeepsIdentities(s, Apply(s, m))
  {
  }

  lemma KeepsTransitively(a: State, b: State, c: State)
    requires KeepsIdentities(a, b) && KeepsIdentities(b, c)
    ensures KeepsIdentities(a, c)
  {
  }

  /** However the operations of calls interleave, identities survive, and so does the sense of the jobs:
      a job scheduled from any copy names a stored deployment of its tenant and app. */
  lemma {:induction false} IdentitiesSurvive(s: State, moves: seq<Move>, s': State)
    requires CopiesOk(s) && Exec(s, moves) == Some(s')
    ensures CopiesOk(s') && KeepsIdentities(s, s')
    decreases |moves|
  {
    if moves != [] {
      var mid := Apply(s, moves[0]);
      StepKeepsIdentities(s, moves[0]);
      IdentitiesSurvive(mid, moves[1..], s');
      KeepsTransitively(s, mid, s');
    }
  }

  lemma JobsFromCopiesAreNamed(moves: seq<Move>, s: State, call: nat, kind: JobKind)
    requires Exec(NOTHING, moves) == Some(s) && call in s.copies
    ensures var name := NameFor(kind, s.copies[call]);
            && name.deploymentId in s.store.deployments
            && var d := s.store.deployments[name.deploymentId]; d.tenantId == name.tenantId && d.appId == name.appId
  {
    IdentitiesSurvive(NOTHING, moves, s);
  }

  // ----- Exactly when a write fits what is stored

  /** The event a call logs with its change; learning the reference is not logged. */
  function EventOf(d: Deployment, change: Change, now: Time): (EventKind, string)
    requires !change.Refer?
  {
    match change
    case MarkAs(status, reason) => (StatusEvent(status), reason)
    case Requeue => (RetryQueued, MSG_RETRY)
    case Repair(reason) => (AutoRepairQueued, MSG_REPAIR + reason)
  }

  /** The start times agree, or the change makes them. */
  predicate StartsAgree(stored: Deployment, copy: Deployment, change: Change, now: Time) {
    || copy.startedAt == stored.startedAt
    || (change.MarkAs? && change.status == Provisioning
        && copy.startedAt in {None, Some(now)} && stored.startedAt in {None, Some(now)})
  }

  /** Stored record and copy differ only where the change starts afresh: repair count and finish time are
      reset by a running mark or a requeueing, the finish time also by a repair or a terminal mark. */
  predicate Compatible(stored: Deployment, copy: Deployment, change: Change, now: Time) {
    && StartsAgree(stored, copy, change, now)
    && (copy.repairAttempts == stored.repairAttempts || change.Requeue?
        || (change.MarkAs? && change.status == Running))
    && (copy.finishedAt == stored.finishedAt || change.Requeue? || change.Repair?
        || (change.MarkAs? && Terminal(change.status)))
  }

  /** A call that changes its copy, writes it and logs it leaves a record its log explains exactly if the
      stored record, explained so far, and the copy are compatible. */
  lemma WriteIsExplainedExactly(stored: Deployment, copy: Deployment, log: seq<Event>, change: Change, now: Time)
    requires Fold(log) == SummaryOf(stored) && !change.Refer?
    requires change.MarkAs? ==> change.status != Queued
    ensures var (kind, message) := EventOf(copy, change, now);
            Fold(log + [Event(copy.id, copy.tenantId, kind, message, now)]) == SummaryOf(Changed(copy, change, now))
            <==> Compatible(stored, copy, change, now)
  {
    var (kind, message) := EventOf(copy, change, now);
    var log' := log + [Event(copy.id, copy.tenantId, kind, message, now)];
    assert log'[..|log|] == log;
  }

  /** A write keeps what has started started and what has a backend object in its possession exactly if the
      copy has it too, or the change brings it. */
  lemma WriteGrowsExactly(stored: Deployment, copy: Deployment, change: Change, now: Time)
    requires SameIdentity(stored, copy)
    ensures Grows(stored, Changed(copy, change, now)) <==>
            && (stored.startedAt.Some? ==> StartsAgree(stored, copy, change, now))
            && (Named(stored.backendRef) ==> Named(if change.Refer? then change.ref else copy.backendRef))
  {
  }

  /** The moves leave the stored record and the call's copy alone. */
  ghost predicate Undisturbed(s: State, moves: seq<Move>, call: nat, id: string)
    decreases |moves|
  {
    moves == [] ||
    (&& Enabled(s, moves[0])
     && (moves[0].op.Save? ==> s.copies[moves[0].op.call].id != id)
     && (moves[0].op.Load? || moves[0].op.Alter? ==> moves[0].op.call != call)
     && Undisturbed(Apply(s, moves[0]), moves[1..], call, id))
  }

  /** A call nobody interferes with writes onto the very record it read, so both conditions hold: calls
      that do not overlap on a deployment are atomic. */
  lemma {:induction false} UndisturbedCallsAreFresh(s: State, moves: seq<Move>, s': State, call: nat, id: string)
    requires Exec(s, moves) == Some(s') && Undisturbed(s, moves, call, id)
    requires id in s.store.deployments && call in s.copies && s.copies[call] == s.store.deployments[id]
    ensures id in s'.store.deployments && call in s'.copies && s'.copies[call] == s'.store.deployments[id]
    ensures forall change, now ::
              Compatible(s'.store.deployments[id], s'.copies[call], change, now)
    decreases |moves|
  {
    if moves != [] {
      UndisturbedCallsAreFresh(Apply(s, moves[0]), moves[1..], s', call, id);
    }
  }

  // ----- What does not

  lemma First(s: State, m: Move, rest: seq<Move>)
    requires Enabled(s, m)
    ensures Exec(s, [m] + rest) == Exec(Apply(s, m), rest)
  {
    assert ([m] + rest)[1..] == rest;
  }

  lemma {:induction false} Then(s: State, before: seq<Move>, mid: State, m: Move)
    requires Exec(s, before) == Some(mid) && Enabled(mid, m)
    ensures Exec(s, before + [m]) == Some(Apply(mid, m))
    decreases |before|
  {
    if before == [] {
      First(s, m, []);
      assert before + [m] == [m] + [];
    } else {
      Then(Apply(s, before[0]), before[1..], mid, m);
      assert (before + [m])[1..] == before[1..] + [m];
    }
  }

  /** Two sync handlers that read the same started record both open a repair round. Both rounds are in
      the log; the record counts one. So folding the log no longer gives the record, and the count no
      longer bounds the rounds. */
  lemma RepairRoundsAreMiscounted(d: Deployment, ref: BackendRef, reason: string) returns (moves: seq<Move>, s: State)
    requires SummaryOf(d) == CREATED && Named(ref)
    ensures Exec(NOTHING, moves) == Some(s) && d.id in s.store.deployments
    ensures s.store.deployments[d.id].repairAttempts == 1
    ensures Fold(EventsOf(s.store, d.id)).repairAttempts == 2 == Rounds(EventsOf(s.store, d.id))
  {
    var started := Marked(d, Provisioning, MSG_CREATING, 2).(backendRef := ref);
    moves, s := Started(d, ref);
    var log := EventsOf(s.store, d.id);
    moves, s := Did(moves, s, Move(Load(0, d.tenantId, d.id), 2));
    moves, s := Did(moves, s, Move(Load(1, d.tenantId, d.id), 2));
    moves, s := Repaired(moves, s, 0, started, reason, log);
    moves, s := Repaired(moves, s, 1, started, reason, EventsOf(s.store, d.id));
    LogOfTwoRounds(EventsOf(s.store, d.id));
  }

  /** A deployment is created and started. */
  lemma Started(d: Deployment, ref: BackendRef) returns (moves: seq<Move>, s: State)
    requires SummaryOf(d) == CREATED
    ensures Exec(NOTHING, moves) == Some(s) && d.id in s.store.deployments
    ensures s.store.deployments[d.id] == Marked(d, Provisioning, MSG_CREATING, 2).(backendRef := ref)
    ensures var log := EventsOf(s.store, d.id);
            |log| == 2 && log[0].kind == StatusEvent(Queued) && log[1].kind == StatusEvent(Provisioning)
  {
    moves, s := [], NOTHING;
    moves, s := Did(moves, s, Move(Create(d), 1));
    moves, s := Did(moves, s, Move(Log(Event(d.id, d.tenantId, StatusEvent(Queued), MSG_QUEUED, 1)), 1));
    moves, s := Did(moves, s, Move(Load(2, d.tenantId, d.id), 2));
    moves, s := Did(moves, s, Move(Alter(2, MarkAs(Provisioning, MSG_CREATING)), 2));
    moves, s := Did(moves, s, Move(Alter(2, Refer(ref)), 2));
    moves, s := Did(moves, s, Move(Save(2), 2));
    moves, s := Did(moves, s, Move(Log(Event(d.id, d.tenantId, StatusEvent(Provisioning), MSG_CREATING, 2)), 2));
  }

  lemma Did(before: seq<Move>, mid: State, m: Move) returns (moves: seq<Move>, s: State)
    requires Exec(NOTHING, before) == Some(mid) && Enabled(mid, m)
    ensures moves == before + [m] && s == Apply(mid, m) && Exec(NOTHING, moves) == Some(s)
  {
    Then(NOTHING, before, mid, m);
    moves, s := before + [m], Apply(mid, m);
  }

  /** One call opens a round on the copy it has, writes it back and logs it. */
  lemma Repaired(before: seq<Move>, mid: State, call: nat, d: Deployment, reason: string, log: seq<Event>)
    returns (moves: seq<Move>, s: State)
    requires Exec(NOTHING, before) == Some(mid) && call in mid.copies && mid.copies[call] == d
    requires d.id in mid.store.deployments && EventsOf(mid.store, d.id) == log
    ensures Exec(NOTHING, moves) == Some(s)
    ensures d.id in s.store.deployments && s.store.deployments[d.id] == Repairing(d, reason, 2)
    ensures s.copies == mid.copies[call := Repairing(d, reason, 2)]
    ensures EventsOf(s.store, d.id) ==
            log + [Event(d.id, d.tenantId, AutoRepairQueued, Repairing(d, reason, 2).statusReason, 2)]
  {
    var r := Repairing(d, reason, 2);
    moves, s := Did(before, mid, Move(Alter(call, Repair(reason)), 2));
    moves, s := Did(moves, s, Move(Save(call), 2));
    moves, s := Did(moves, s, Move(Log(Event(d.id, d.tenantId, AutoRepairQueued, r.statusReason, 2)), 2));
  }

  lemma LogOfTwoRounds(log: seq<Event>)
    requires |log| == 4 && log[0].kind == StatusEvent(Queued) && log[1].kind == StatusEvent(Provisioning)
    requires log[2].kind == log[3].kind == AutoRepairQueued
    ensures Fold(log).repairAttempts == 2 == Rounds(log)
  {
    assert log[..3][..2] == log[..2] && log[..2][..1] == log[..1] && log[..1][..0] == [];
    assert Fold(log[..1]).repairAttempts == 0 && Rounds(log[..1]) == 0;
    assert Fold(log[..2]).repairAttempts == 0 && Rounds(log[..2]) == 0;
    assert Fold(log[..3]).repairAttempts == 1 && Rounds(log[..3]) == 1;
  }

  /** A user cancels while the create handler submits. The cancellation, read before the submission and
      written after it, takes the start time and the backend reference away again: records do not only
      grow, and a sync job already scheduled names a deployment without a backend object. */
  lemma StartIsForgotten(d: Deployment, ref: BackendRef) returns (moves: seq<Move>, mid: State, s: State)
    requires SummaryOf(d) == CREATED && d.backendRef == NO_REF && Named(ref)
    ensures moves != [] && Exec(NOTHING, moves[..|moves| - 1]) == Some(mid) && Exec(NOTHING, moves) == Some(s)
    ensures d.id in mid.store.deployments && d.id in s.store.deployments
    ensures mid.store.deployments[d.id].startedAt.Some? && mid.store.deployments[d.id].backendRef == ref
    ensures s.store.deployments[d.id].startedAt == None && s.store.deployments[d.id].backendRef == NO_REF
  {
    moves, mid := [], NOTHING;
    moves, mid := Did(moves, mid, Move(Create(d), 1));
    moves, mid := Did(moves, mid, Move(Load(0, d.tenantId, d.id), 2));
    moves, mid := Did(moves, mid, Move(Load(1, d.tenantId, d.id), 2));
    moves, mid := Did(moves, mid, Move(Alter(1, MarkAs(Provisioning, MSG_CREATING)), 3));
    moves, mid := Did(moves, mid, Move(Save(1), 3));
    moves, mid := Did(moves, mid, Move(Alter(1, Refer(ref)), 4));
    moves, mid := Did(moves, mid, Move(Alter(1, MarkAs(Provisioning, "")), 4));
    moves, mid := Did(moves, mid, Move(Save(1), 4));
    moves, mid := Did(moves, mid, Move(Alter(0, MarkAs(Cancelled, MSG_CANCELLED)), 5));
    var before := moves;
    moves, s := Did(moves, mid, Move(Save(0), 5));
    assert moves[..|moves| - 1] == before;
  }
}
