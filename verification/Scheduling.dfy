/** The scheduler: orders for jobs become entries of the queue. */
module Scheduling {
  import opened Domain
  import opened Deployments
  import Q = QueueSpec

  /** The queue after the scheduler has placed an order. */
  function Place(q: Q.Queue, o: Order, jobId: string, now: Time): Q.Queue {
    var job := NewJob(jobId, o.name, now);
    if o.delay.Some? then Q.EnqueueAfter(q, job, o.delay.value, now) else Q.Enqueue(q, job, now)
  }

  /** The queue gains one new job about a deployment: at the end of the ready list, or of the delayed one,
      available after the delay. */
  predicate Gains(q: Q.Queue, q': Q.Queue, kind: JobKind, d: Deployment, jobId: string, delay: Option<Time>,
                  now: Time) {
    var job := Job(jobId, kind, d.tenantId, d.appId, d.id, 0, now, now, 0, "");
    match delay
    case None => q' == q.(ready := q.ready + [job])
    case Some(t) => q' == q.(delayed := q.delayed + [job.(availableAt := now + t)])
  }

  function PlaceAll(q: Q.Queue, orders: seq<Order>, jobIds: seq<string>, now: Time): Q.Queue
    requires |orders| <= |jobIds|
  {
    if orders == [] then q else
      var n := |orders| - 1;
      Place(PlaceAll(q, orders[..n], jobIds, now), orders[n], jobIds[n], now)
  }
}
