/** The in-memory queue client. The processing and delayed lists are slices: a backing
    array and a length. Promotion and reclaim compact them in place, over the same array
    they are reading. */
module MemoryQueue {
  import opened Domain
  import Q = QueueSpec

  class Client {
    var ready: seq<Job>
    var processing: array<Job>
    var processingLen: nat
    var delayed: array<Job>
    var delayedLen: nat
    var dead: seq<DeadLetter>

    ghost predicate Valid()
      reads this
    {
      processingLen <= processing.Length && delayedLen <= delayed.Length && processing != delayed
    }

    /** The four lists as a value. */
    ghost function Contents(): Q.Queue
      requires Valid()
      reads this, processing, delayed
    {
      Q.Queue(ready, processing[..processingLen], delayed[..delayedLen], dead)
    }

    constructor ()
      ensures Valid() && fresh(processing) && fresh(delayed)
      ensures Contents() == Q.EMPTY
    {
      ready, dead := [], [];
      processing, delayed := new Job[0], new Job[0];
      processingLen, delayedLen := 0, 0;
    }

    method Enqueue(job: Job, now: Time)
      requires Valid()
      modifies `ready
      ensures Valid() && Contents() == Q.Enqueue(old(Contents()), job, now)
    {
      var j := job.(leasedAt := 0);
      if j.createdAt == 0 {
        j := j.(createdAt := now);
      }
      if j.availableAt == 0 {
        j := j.(availableAt := now);
      }
      ready := ready + [j];
    }

    method EnqueueAfter(job: Job, delay: Time, now: Time)
      requires Valid()
      modifies this, delayed
      ensures Valid() && processing == old(processing)
      ensures delayed == old(delayed) || fresh(delayed)
      ensures Contents() == Q.EnqueueAfter(old(Contents()), job, delay, now)
    {
      var j := job.(leasedAt := 0);
      if j.createdAt == 0 {
        j := j.(createdAt := now);
      }
      j := j.(availableAt := now + delay);
      delayed := Append(delayed, delayedLen, j);
      delayedLen := delayedLen + 1;
      assert delayed[..delayedLen] == old(delayed[..delayedLen]) + [j];
    }

    method PromoteDue(limit: int, now: Time) returns (promoted: nat)
      requires Valid()
      modifies this, delayed
      ensures Valid() && processing == old(processing) && delayed == old(delayed)
      ensures Contents() == Q.PromoteDue(old(Contents()), limit, now)
      ensures promoted == |ready| - |old(ready)|
    {
      var lim := if limit <= 0 then DEFAULT_LIMIT else limit;
      var before := delayedLen;
      ready, delayedLen := CompactDue(ready, delayed, delayedLen, lim, now);
      promoted := before - delayedLen;
    }

    method ReclaimStale(staleAfter: Time, limit: int, now: Time) returns (reclaimed: nat)
      requires Valid()
      modifies this, processing
      ensures Valid() && processing == old(processing) && delayed == old(delayed)
      ensures Contents() == Q.ReclaimStale(old(Contents()), staleAfter, limit, now)
      ensures reclaimed == |ready| - |old(ready)|
    {
      var lim := if limit <= 0 then DEFAULT_LIMIT else limit;
      var stale := if staleAfter <= 0 then Q.DEFAULT_STALE_AFTER else staleAfter;
      var before := processingLen;
      ready, processingLen := CompactStale(ready, processing, processingLen, now - stale, lim, now);
      reclaimed := before - processingLen;
    }

    /** One poll: promote what is due, then lease the head of the ready list, if any. */
    method Dequeue(now: Time) returns (job: Option<Job>)
      requires Valid()
      modifies this, processing, delayed
      ensures Valid() && delayed == old(delayed)
      ensures processing == old(processing) || fresh(processing)
      ensures var q := Q.Polled(old(Contents()), now);
              if q.ready == [] then job == None && Contents() == q
              else job == Some(q.ready[0].(leasedAt := now)) && Contents() == Q.LeaseHead(q, now)
    {
      var _ := PromoteDue(Q.DEQUEUE_PROMOTE_LIMIT, now);
      ghost var polled := Contents();
      if |ready| > 0 {
        var j := ready[0].(leasedAt := now);
        ready := ready[1..];
        processing := Append(processing, processingLen, j);
        processingLen := processingLen + 1;
        assert processing[..processingLen] == polled.processing + [j];
        job := Some(j);
      } else {
        job := None;
      }
    }

    /** Drops the exact lease if it is there, else the first entry of the same job. */
    method Ack(job: Job)
      requires Valid()
      modifies `processingLen, processing
      ensures Valid() && Contents() == Q.Ack(old(Contents()), job)
    {
      ghost var before := processing[..processingLen];
      for i := 0 to processingLen
        invariant forall k :: 0 <= k < i ==>
                    !(before[k].id == job.id && before[k].leasedAt == job.leasedAt)
      {
        if processing[i].id == job.id && processing[i].leasedAt == job.leasedAt {
          assert Q.FindLease(before, job) == i;
          RemoveProcessing(i);
          return;
        }
      }
      for i := 0 to processingLen
        invariant forall k :: 0 <= k < i ==> before[k].id != job.id
      {
        if processing[i].id == job.id {
          assert Q.FindId(before, job.id) == i;
          RemoveProcessing(i);
          return;
        }
      }
    }

    /** Shifts the tail of the processing slice down over the entry at i. */
    method RemoveProcessing(i: nat)
      requires Valid() && i < processingLen
      modifies `processingLen, processing
      ensures Valid()
      ensures Contents() ==
              old(Contents()).(processing := Q.RemoveAt(old(Contents()).processing, i))
    {
      ghost var before := processing[..processingLen];
      for k := i + 1 to processingLen
        invariant unchanged(delayed) && unchanged(`processingLen)
        invariant processing[..k - 1] == Q.RemoveAt(before, i)[..k - 1]
        invariant forall m :: k <= m < processingLen ==> processing[m] == before[m]
      {
        assert processing[k] == before[k];
        processing[k - 1] := processing[k];
      }
      processingLen := processingLen - 1;
      assert processing[..processingLen] == Q.RemoveAt(before, i);
    }

    method DeadLetter(item: DeadLetter, now: Time)
      requires Valid()
      modifies `dead
      ensures Valid() && Contents() == Q.AddDead(old(Contents()), item, now)
    {
      var d := item;
      if d.failedAt == 0 {
        d := d.(failedAt := now);
      }
      dead := [d] + dead;
    }

    method ReplayDeadLetter(id: string, now: Time) returns (job: Result<Job>)
      requires Valid()
      modifies `dead, `ready
      ensures Valid() && Contents() == Q.ReplayDeadLetter(old(Contents()), id, now)
      ensures job.Ok? <==> exists d :: d in old(dead) && d.id == id
      ensures job.Ok? ==> ready == old(ready) + [job.value]
      ensures job.Err? ==> job.error == NotFound
    {
      for i := 0 to |dead|
        invariant forall k :: 0 <= k < i ==> dead[k].id != id
        invariant unchanged(this)
      {
        var item := dead[i];
        if item.id == id {
          assert Q.FindDead(dead, id) == i;
          dead := dead[..i] + dead[i + 1..];
          var j := item.job.(attempts := 0, lastError := "", leasedAt := 0, availableAt := now);
          ready := ready + [j];
          return Ok(j);
        }
      }
      return Err(NotFound);
    }
  }

  /** Moves up to limit due jobs from the slice a[..n] to the end of the ready list and
      closes the gaps in place: the write index never overtakes the read index. */
  method CompactDue(ready: seq<Job>, a: array<Job>, n: nat, limit: nat, now: Time)
    returns (ready': seq<Job>, kept: nat)
    requires n <= a.Length
    modifies a
    ensures kept <= n && |ready'| + kept == |ready| + n
    ensures a[..kept] == Q.Kept(Q.Due(now), old(a[..n]), limit)
    ensures ready' == ready + Q.Taken(Q.Due(now), old(a[..n]), limit)
  {
    ghost var sel, before := Q.Due(now), a[..n];
    ghost var left: seq<Job> := [];
    var promoted := 0;
    ready', kept := ready, 0;
    for i := 0 to n
      invariant kept + promoted == i && |ready'| == |ready| + promoted
      invariant ready' == ready + Q.TakenTo(sel, before, limit, i)
      invariant left == Q.KeptTo(sel, before, limit, i)
      invariant kept == |left|
      invariant forall k :: 0 <= k < kept ==> a[k] == left[k]
      invariant forall k :: i <= k < n ==> a[k] == before[k]
    {
      var job := a[i];
      if promoted < limit && (job.availableAt == 0 || !(job.availableAt > now)) {
        ready' := ready' + [job];
        promoted := promoted + 1;
      } else {
        a[kept] := job;
        kept := kept + 1;
        left := left + [job];
      }
    }
    Q.PassByIndex(sel, before, limit, n);
    assert before[..n] == before;
    assert a[..kept] == left;
  }

  /** The same pass over stale leases; a reclaimed job loses its lease on the way. */
  method CompactStale(ready: seq<Job>, a: array<Job>, n: nat, cutoff: Time, limit: nat, now: Time)
    returns (ready': seq<Job>, kept: nat)
    requires n <= a.Length
    modifies a
    ensures kept <= n && |ready'| + kept == |ready| + n
    ensures a[..kept] == Q.Kept(Q.Stale(cutoff), old(a[..n]), limit)
    ensures ready' == ready + Q.ReleaseAll(Q.Taken(Q.Stale(cutoff), old(a[..n]), limit), now)
  {
    ghost var sel, before := Q.Stale(cutoff), a[..n];
    ghost var taken: seq<Job> := [];
    ghost var left: seq<Job> := [];
    var reclaimed := 0;
    ready', kept := ready, 0;
    for i := 0 to n
      invariant kept + reclaimed == i && |ready'| == |ready| + reclaimed
      invariant taken == Q.TakenTo(sel, before, limit, i)
      invariant reclaimed == |taken|
      invariant ready' == ready + Q.ReleaseAll(taken, now)
      invariant left == Q.KeptTo(sel, before, limit, i)
      invariant kept == |left|
      invariant forall k :: 0 <= k < kept ==> a[k] == left[k]
      invariant forall k :: i <= k < n ==> a[k] == before[k]
    {
      var job := a[i];
      if reclaimed >= limit || (job.leasedAt != 0 && job.leasedAt > cutoff) {
        a[kept] := job;
        kept := kept + 1;
        left := left + [job];
      } else {
        ready' := ready' + [job.(leasedAt := 0, availableAt := now)];
        reclaimed := reclaimed + 1;
        taken := taken + [job];
      }
    }
    Q.PassByIndex(sel, before, limit, n);
    assert before[..n] == before;
    assert a[..kept] == left;
  }

  /** Writes x after the first n elements, in the array itself while it has room and in a
      larger copy once it is full. */
  method Append(a: array<Job>, n: nat, x: Job) returns (b: array<Job>)
    requires n <= a.Length
    modifies a
    ensures n < b.Length
    ensures b[..n + 1] == old(a[..n]) + [x]
    ensures b == a || (fresh(b) && unchanged(a))
  {
    if n < a.Length {
      a[n] := x;
      return a;
    }
    b := new Job[2 * n + 1](_ => x);
    for i := 0 to n
      invariant b[..i] == a[..i] && b[n] == x
      invariant unchanged(a)
    {
      b[i] := a[i];
    }
  }
}
