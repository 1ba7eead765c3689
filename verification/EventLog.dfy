/** The event log of a deployment determines its record: folding the events gives back the
    status, its reason, the repair count and the start and finish times. */
module EventLog {
  import opened Domain
  import opened Deployments

  datatype Summary = Summary(
    status: Status, reason: string, repairAttempts: int,
    startedAt: Option<Time>, finishedAt: Option<Time>)

  const CREATED := Summary(Queued, "", 0, None, None)

  function SummaryOf(d: Deployment): Summary {
    Summary(d.status, d.statusReason, d.repairAttempts, d.startedAt, d.finishedAt)
  }

  /** What one event says about the record after it. */
  function FoldEvent(s: Summary, kind: EventKind, message: string, at: Time): Summary {
    match kind
    case RetryQueued => s.(status := Queued, reason := "", repairAttempts := 0, finishedAt := None)
    case AutoRepairQueued =>
      s.(status := Recovering, reason := message, repairAttempts := s.repairAttempts + 1, finishedAt := None)
    case StatusEvent(Queued) => CREATED
    case StatusEvent(status) =>
      Summary(status, message, if status == Running then 0 else s.repairAttempts,
              if status == Provisioning && s.startedAt == None then Some(at) else s.startedAt,
              if Terminal(status) then Some(at) else s.finishedAt)
  }

  function Fold(events: seq<Event>): Summary {
    if events == [] then CREATED else
      var e := events[|events| - 1];
      FoldEvent(Fold(events[..|events| - 1]), e.kind, e.message, e.createdAt)
  }

  // ----- Repair rounds

  /** The events that start the repair count afresh. */
  predicate Resets(e: Event) {
    e.kind == RetryQueued || e.kind == StatusEvent(Queued) || e.kind == StatusEvent(Running)
  }

  function Rounds(events: seq<Event>): nat {
    if events == [] then 0 else
      Rounds(events[..|events| - 1]) + if events[|events| - 1].kind == AutoRepairQueued then 1 else 0
  }

  /** At no point of the log did the repair count exceed the limit. */
  predicate RoundsWithin(events: seq<Event>, limit: int) {
    events == [] || (RoundsWithin(events[..|events| - 1], limit) && Fold(events).repairAttempts <= limit)
  }

  lemma {:induction false} PrefixWithin(events: seq<Event>, limit: int, k: nat)
    requires RoundsWithin(events, limit) && k <= |events| && limit >= 0
    ensures Fold(events[..k]).repairAttempts <= limit
  {
    if k < |events| {
      PrefixWithin(events[..|events| - 1], limit, k);
      assert events[..|events| - 1][..k] == events[..k];
    } else {
      assert events[..k] == events;
    }
  }

  /** Over a stretch without a reset the repair count grows by one per repair round. */
  lemma {:induction false} RoundsAreCounted(events: seq<Event>, from: nat, to: nat)
    requires from <= to <= |events|
    requires forall i :: from <= i < to ==> !Resets(events[i])
    ensures Fold(events[..to]).repairAttempts == Fold(events[..from]).repairAttempts + Rounds(events[from..to])
  {
    if from < to {
      RoundsAreCounted(events, from, to - 1);
      assert events[..to][..to - 1] == events[..to - 1];
      assert events[from..to][..to - from - 1] == events[from..to - 1];
    }
  }
}
