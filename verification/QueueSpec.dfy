/** The leased job queue as a value: its four lists, what each operation does to them,
    and the facts about counting and partitioning the operations rest on. */
module QueueSpec {
  import opened Domain

  const DEFAULT_STALE_AFTER: Time := 10 * MINUTE
  const DEQUEUE_PROMOTE_LIMIT := 100

  function EffectiveStaleAfter(staleAfter: Time): Time {
    if staleAfter <= 0 then DEFAULT_STALE_AFTER else staleAfter
  }

  // ----- Bounded partition of a job list

  /** The two tests that move jobs: due for promotion, and lease gone stale. */
  datatype Selector = Due(now: Time) | Stale(cutoff: Time) {
    predicate Picks(job: Job) {
      match this
      case Due(now) => job.availableAt == 0 || job.availableAt <= now
      case Stale(cutoff) => job.leasedAt == 0 || job.leasedAt <= cutoff
    }
  }

  /** The jobs a pass over the list takes: picked ones, until limit are taken. */
  function Taken(sel: Selector, jobs: seq<Job>, limit: nat): seq<Job> {
    if jobs == [] then [] else
      var n := |jobs| - 1;
      var t := Taken(sel, jobs[..n], limit);
      if |t| < limit && sel.Picks(jobs[n]) then t + [jobs[n]] else t
  }

  /** The jobs the same pass leaves in place. */
  function Kept(sel: Selector, jobs: seq<Job>, limit: nat): seq<Job> {
    if jobs == [] then [] else
      var n := |jobs| - 1;
      var k := Kept(sel, jobs[..n], limit);
      if |Taken(sel, jobs[..n], limit)| < limit && sel.Picks(jobs[n]) then k else k + [jobs[n]]
  }

  /** The same pass by index: what it has taken and kept after the first n jobs. */
  function TakenTo(sel: Selector, jobs: seq<Job>, limit: nat, n: nat): seq<Job>
    requires n <= |jobs|
  {
    if n == 0 then [] else
      var t := TakenTo(sel, jobs, limit, n - 1);
      if |t| < limit && sel.Picks(jobs[n - 1]) then t + [jobs[n - 1]] else t
  }

  function KeptTo(sel: Selector, jobs: seq<Job>, limit: nat, n: nat): seq<Job>
    requires n <= |jobs|
  {
    if n == 0 then [] else
      var k := KeptTo(sel, jobs, limit, n - 1);
      if |TakenTo(sel, jobs, limit, n - 1)| < limit && sel.Picks(jobs[n - 1]) then k
      else k + [jobs[n - 1]]
  }

  lemma {:induction false} PassByIndex(sel: Selector, jobs: seq<Job>, limit: nat, n: nat)
    requires n <= |jobs|
    ensures TakenTo(sel, jobs, limit, n) == Taken(sel, jobs[..n], limit)
    ensures KeptTo(sel, jobs, limit, n) == Kept(sel, jobs[..n], limit)
  {
    if n > 0 {
      PassByIndex(sel, jobs, limit, n - 1);
      assert jobs[..n][..n - 1] == jobs[..n - 1];
    }
  }

  /** The plain (unbounded) filters, the reference for the bounded pass. */
  function Filter(sel: Selector, jobs: seq<Job>): seq<Job> {
    if jobs == [] then [] else
      var n := |jobs| - 1;
      Filter(sel, jobs[..n]) + if sel.Picks(jobs[n]) then [jobs[n]] else []
  }

  function Reject(sel: Selector, jobs: seq<Job>): seq<Job> {
    if jobs == [] then [] else
      var n := |jobs| - 1;
      Reject(sel, jobs[..n]) + if sel.Picks(jobs[n]) then [] else [jobs[n]]
  }

  lemma {:induction false} BelowLimitPassIsFilter(sel: Selector, jobs: seq<Job>, limit: nat)
    requires |Taken(sel, jobs, limit)| < limit
    ensures Taken(sel, jobs, limit) == Filter(sel, jobs)
    ensures Kept(sel, jobs, limit) == Reject(sel, jobs)
  {
    if jobs != [] {
      BelowLimitPassIsFilter(sel, jobs[..|jobs| - 1], limit);
    }
  }

  /** How far the pass goes before it has taken its limit. */
  function Cut(sel: Selector, jobs: seq<Job>, limit: nat): (cut: nat)
    ensures cut <= |jobs|
  {
    if jobs == [] then 0 else
      var front := jobs[..|jobs| - 1];
      if |Taken(sel, front, limit)| < limit then |jobs| else Cut(sel, front, limit)
  }

  /** A bounded pass is a stable partition of a prefix, the rest untouched: before the cut every
      picked job is taken, in order, and every other job is kept, in order. The cut is the end
      of the list unless the limit was reached. */
  lemma {:induction false} BoundedPassIsStablePartition(sel: Selector, jobs: seq<Job>, limit: nat)
    ensures var cut := Cut(sel, jobs, limit);
            && Taken(sel, jobs, limit) == Filter(sel, jobs[..cut])
            && Kept(sel, jobs, limit) == Reject(sel, jobs[..cut]) + jobs[cut..]
            && |Taken(sel, jobs, limit)| <= limit
            && (cut == |jobs| || |Taken(sel, jobs, limit)| == limit)
  {
    TakenIsFilteredPrefix(sel, jobs, limit);
    KeptIsRejectedPrefix(sel, jobs, limit);
  }

  lemma {:induction false} TakenIsFilteredPrefix(sel: Selector, jobs: seq<Job>, limit: nat)
    ensures Taken(sel, jobs, limit) == Filter(sel, jobs[..Cut(sel, jobs, limit)])
    ensures |Taken(sel, jobs, limit)| <= limit
    ensures Cut(sel, jobs, limit) == |jobs| || |Taken(sel, jobs, limit)| == limit
  {
    if jobs != [] {
      var front := jobs[..|jobs| - 1];
      if |Taken(sel, front, limit)| < limit {
        BelowLimitPassIsFilter(sel, front, limit);
        assert jobs[..|jobs|] == jobs;
      } else {
        TakenIsFilteredPrefix(sel, front, limit);
        assert front[..Cut(sel, front, limit)] == jobs[..Cut(sel, front, limit)];
      }
    }
  }

  lemma AppendAfter(r: seq<Job>, jobs: seq<Job>, cut: nat)
    requires cut < |jobs|
    ensures (r + jobs[..|jobs| - 1][cut..]) + [jobs[|jobs| - 1]] == r + jobs[cut..]
  {
  }

  lemma {:induction false} KeptIsRejectedPrefix(sel: Selector, jobs: seq<Job>, limit: nat)
    ensures var cut := Cut(sel, jobs, limit);
            Kept(sel, jobs, limit) == Reject(sel, jobs[..cut]) + jobs[cut..]
  {
    if jobs != [] {
      var n := |jobs| - 1;
      var front := jobs[..n];
      if |Taken(sel, front, limit)| < limit {
        BelowLimitPassIsFilter(sel, front, limit);
        assert jobs[..n + 1] == jobs && jobs[n + 1..] == [];
      } else {
        KeptIsRejectedPrefix(sel, front, limit);
        var cut := Cut(sel, front, limit);
        assert front[..cut] == jobs[..cut];
        AppendAfter(Reject(sel, jobs[..cut]), jobs, cut);
      }
    }
  }

  /** Taken is the first `limit` elements of the filtered list. */
  lemma {:induction false} TakenIsFilterPrefix(sel: Selector, jobs: seq<Job>, limit: nat)
    ensures |Taken(sel, jobs, limit)| == AtMost(limit, |Filter(sel, jobs)|)
    ensures Taken(sel, jobs, limit) == Filter(sel, jobs)[..|Taken(sel, jobs, limit)|]
  {
    if jobs != [] {
      TakenIsFilterPrefix(sel, jobs[..|jobs| - 1], limit);
    }
  }

  lemma {:induction false} FilterConcat(sel: Selector, a: seq<Job>, b: seq<Job>)
    ensures Filter(sel, a + b) == Filter(sel, a) + Filter(sel, b)
  {
    if b == [] {
      assert a + b == a;
    } else {
      var n := |b| - 1;
      assert (a + b)[..|a + b| - 1] == a + b[..n];
      FilterConcat(sel, a, b[..n]);
    }
  }

  lemma {:induction false} FilterOfRejectIsEmpty(sel: Selector, jobs: seq<Job>)
    ensures Filter(sel, Reject(sel, jobs)) == []
  {
    if jobs != [] {
      var n := |jobs| - 1;
      FilterOfRejectIsEmpty(sel, jobs[..n]);
      if sel.Picks(jobs[n]) {
        assert Reject(sel, jobs) == Reject(sel, jobs[..n]);
      } else {
        FilterConcat(sel, Reject(sel, jobs[..n]), [jobs[n]]);
        assert [jobs[n]][..0] == [];
      }
    }
  }

  /** What a pass leaves picks exactly what the pass did not take. */
  lemma {:induction false} FilterSplitsIntoTakenAndKept(sel: Selector, jobs: seq<Job>, limit: nat)
    ensures Filter(sel, jobs) == Taken(sel, jobs, limit) + Filter(sel, Kept(sel, jobs, limit))
  {
    BoundedPassIsStablePartition(sel, jobs, limit);
    var cut := Cut(sel, jobs, limit);
    var front, back := jobs[..cut], jobs[cut..];
    assert jobs == front + back;
    calc {
      Filter(sel, Kept(sel, jobs, limit));
      { FilterConcat(sel, Reject(sel, front), back); }
      Filter(sel, Reject(sel, front)) + Filter(sel, back);
      { FilterOfRejectIsEmpty(sel, front); }
      Filter(sel, back);
    }
    FilterConcat(sel, front, back);
  }

  lemma {:induction false} MembersOfPass(sel: Selector, jobs: seq<Job>, limit: nat, j: Job)
    ensures j in Taken(sel, jobs, limit) ==> j in jobs && sel.Picks(j)
    ensures j in Kept(sel, jobs, limit) ==> j in jobs
  {
    if jobs != [] {
      MembersOfPass(sel, jobs[..|jobs| - 1], limit, j);
    }
  }

  // ----- Counting the entries of a job

  function Count(jobs: seq<Job>, id: string): nat {
    if jobs == [] then 0 else
      Count(jobs[..|jobs| - 1], id) + if jobs[|jobs| - 1].id == id then 1 else 0
  }

  function CountDead(dead: seq<DeadLetter>, id: string): nat {
    if dead == [] then 0 else
      CountDead(dead[..|dead| - 1], id) + if dead[|dead| - 1].job.id == id then 1 else 0
  }

  lemma {:induction false} CountConcat(a: seq<Job>, b: seq<Job>, id: string)
    ensures Count(a + b, id) == Count(a, id) + Count(b, id)
  {
    if b == [] {
      assert a + b == a;
    } else {
      assert (a + b)[..|a + b| - 1] == a + b[..|b| - 1];
      CountConcat(a, b[..|b| - 1], id);
    }
  }

  lemma {:induction false} CountDeadConcat(a: seq<DeadLetter>, b: seq<DeadLetter>, id: string)
    ensures CountDead(a + b, id) == CountDead(a, id) + CountDead(b, id)
  {
    if b == [] {
      assert a + b == a;
    } else {
      assert (a + b)[..|a + b| - 1] == a + b[..|b| - 1];
      CountDeadConcat(a, b[..|b| - 1], id);
    }
  }

  lemma CountOne(j: Job, id: string)
    ensures Count([j], id) == if j.id == id then 1 else 0
  {
    assert [j][..0] == [];
  }

  lemma CountDeadOne(d: DeadLetter, id: string)
    ensures CountDead([d], id) == if d.job.id == id then 1 else 0
  {
    assert [d][..0] == [];
  }

  lemma {:induction false} CountPositive(jobs: seq<Job>, id: string)
    ensures Count(jobs, id) > 0 <==> exists i :: 0 <= i < |jobs| && jobs[i].id == id
  {
    if jobs != [] {
      var n := |jobs| - 1;
      CountPositive(jobs[..n], id);
      if exists i :: 0 <= i < n && jobs[i].id == id {
        var i :| 0 <= i < n && jobs[i].id == id;
        assert jobs[..n][i].id == id;
      }
      assert forall i :: 0 <= i < n ==> jobs[..n][i] == jobs[i];
    }
  }

  lemma CountRemoveAt(jobs: seq<Job>, i: nat, id: string)
    requires i < |jobs|
    ensures Count(RemoveAt(jobs, i), id) == Count(jobs, id) - if jobs[i].id == id then 1 else 0
  {
    assert jobs == jobs[..i] + [jobs[i]] + jobs[i + 1..];
    CountConcat(jobs[..i] + [jobs[i]], jobs[i + 1..], id);
    CountConcat(jobs[..i], [jobs[i]], id);
    CountConcat(jobs[..i], jobs[i + 1..], id);
    CountOne(jobs[i], id);
  }

  lemma CountDeadRemoveAt(dead: seq<DeadLetter>, i: nat, id: string)
    requires i < |dead|
    ensures CountDead(RemoveAt(dead, i), id) == CountDead(dead, id) - if dead[i].job.id == id then 1 else 0
  {
    assert dead == dead[..i] + [dead[i]] + dead[i + 1..];
    CountDeadConcat(dead[..i] + [dead[i]], dead[i + 1..], id);
    CountDeadConcat(dead[..i], [dead[i]], id);
    CountDeadConcat(dead[..i], dead[i + 1..], id);
    CountDeadOne(dead[i], id);
  }

  lemma {:induction false} CountPass(sel: Selector, jobs: seq<Job>, limit: nat, id: string)
    ensures Count(Taken(sel, jobs, limit), id) + Count(Kept(sel, jobs, limit), id) == Count(jobs, id)
  {
    if jobs != [] {
      var n := |jobs| - 1;
      CountPass(sel, jobs[..n], limit, id);
      CountConcat(Taken(sel, jobs[..n], limit), [jobs[n]], id);
      CountConcat(Kept(sel, jobs[..n], limit), [jobs[n]], id);
      CountOne(jobs[n], id);
    }
  }

  // ----- The queue and its operations

  datatype Queue = Queue(
    ready: seq<Job>, processing: seq<Job>, delayed: seq<Job>, dead: seq<DeadLetter>)

  const EMPTY := Queue([], [], [], [])

  function RemoveAt<T>(items: seq<T>, i: nat): seq<T>
    requires i < |items|
  {
    items[..i] + items[i + 1..]
  }

  /** Index of the first entry of the job under the given lease, or -1. */
  function FindLease(items: seq<Job>, job: Job): (i: int)
    ensures -1 <= i < |items|
    ensures i >= 0 ==> items[i].id == job.id && items[i].leasedAt == job.leasedAt
    ensures forall k :: 0 <= k < (if i < 0 then |items| else i) ==>
              !(items[k].id == job.id && items[k].leasedAt == job.leasedAt)
  {
    if items == [] then -1 else
      var n := |items| - 1;
      var f := FindLease(items[..n], job);
      assert forall k :: 0 <= k < n ==> items[..n][k] == items[k];
      if f >= 0 then f
      else if items[n].id == job.id && items[n].leasedAt == job.leasedAt then n else -1
  }

  /** Index of the first entry of the job whatever its lease, or -1. */
  function FindId(items: seq<Job>, id: string): (i: int)
    ensures -1 <= i < |items|
    ensures i >= 0 ==> items[i].id == id
    ensures forall k :: 0 <= k < (if i < 0 then |items| else i) ==> items[k].id != id
  {
    if items == [] then -1 else
      var n := |items| - 1;
      var f := FindId(items[..n], id);
      assert forall k :: 0 <= k < n ==> items[..n][k] == items[k];
      if f >= 0 then f else if items[n].id == id then n else -1
  }

  /** The entry an ack removes: the exact lease if there is one, else any entry of the job. */
  function AckIndex(items: seq<Job>, job: Job): (i: int)
    ensures -1 <= i < |items|
    ensures i >= 0 ==> items[i].id == job.id
    ensures i < 0 ==> forall k :: 0 <= k < |items| ==> items[k].id != job.id
    ensures i >= 0 ==> (items[i].leasedAt == job.leasedAt <==> FindLease(items, job) >= 0)
  {
    if FindLease(items, job) >= 0 then FindLease(items, job) else FindId(items, job.id)
  }

  function FindDead(items: seq<DeadLetter>, id: string): (i: int)
    ensures -1 <= i < |items|
    ensures i >= 0 ==> items[i].id == id
    ensures forall k :: 0 <= k < (if i < 0 then |items| else i) ==> items[k].id != id
  {
    if items == [] then -1 else
      var n := |items| - 1;
      var f := FindDead(items[..n], id);
      assert forall k :: 0 <= k < n ==> items[..n][k] == items[k];
      if f >= 0 then f else if items[n].id == id then n else -1
  }

  function OrNow(t: Time, now: Time): Time {
    if t == 0 then now else t
  }

  function Enqueue(q: Queue, job: Job, now: Time): Queue {
    q.(ready := q.ready +
         [job.(leasedAt := 0, createdAt := OrNow(job.createdAt, now),
               availableAt := OrNow(job.availableAt, now))])
  }

  function EnqueueAfter(q: Queue, job: Job, delay: Time, now: Time): Queue {
    q.(delayed := q.delayed +
         [job.(leasedAt := 0, createdAt := OrNow(job.createdAt, now), availableAt := now + delay)])
  }

  function PromoteDue(q: Queue, limit: int, now: Time): Queue {
    var n := EffectiveLimit(limit);
    q.(ready := q.ready + Taken(Due(now), q.delayed, n), delayed := Kept(Due(now), q.delayed, n))
  }

  function Release(job: Job, now: Time): Job {
    job.(leasedAt := 0, availableAt := now)
  }

  function ReleaseAll(jobs: seq<Job>, now: Time): seq<Job> {
    seq(|jobs|, i requires 0 <= i < |jobs| => Release(jobs[i], now))
  }

  function ReclaimStale(q: Queue, staleAfter: Time, limit: int, now: Time): Queue {
    var n := EffectiveLimit(limit);
    var sel := Stale(now - EffectiveStaleAfter(staleAfter));
    q.(ready := q.ready + ReleaseAll(Taken(sel, q.processing, n), now),
       processing := Kept(sel, q.processing, n))
  }

  /** One poll of Dequeue: promote what is due, then lease the head of the ready list. */
  function Polled(q: Queue, now: Time): Queue {
    PromoteDue(q, DEQUEUE_PROMOTE_LIMIT, now)
  }

  function LeaseHead(q: Queue, now: Time): Queue
    requires q.ready != []
  {
    q.(ready := q.ready[1..], processing := q.processing + [q.ready[0].(leasedAt := now)])
  }

  function Ack(q: Queue, job: Job): Queue {
    var i := AckIndex(q.processing, job);
    if i < 0 then q else q.(processing := RemoveAt(q.processing, i))
  }

  function AddDead(q: Queue, item: DeadLetter, now: Time): Queue {
    q.(dead := [item.(failedAt := OrNow(item.failedAt, now))] + q.dead)
  }

  function Revived(job: Job, now: Time): Job {
    job.(attempts := 0, lastError := "", leasedAt := 0, availableAt := now)
  }

  function ReplayDeadLetter(q: Queue, id: string, now: Time): Queue {
    var i := FindDead(q.dead, id);
    if i < 0 then q else
      q.(dead := RemoveAt(q.dead, i), ready := q.ready + [Revived(q.dead[i].job, now)])
  }

  /** All entries of a job, over the four lists. */
  function Total(q: Queue, id: string): nat {
    Count(q.ready, id) + Count(q.processing, id) + Count(q.delayed, id) + CountDead(q.dead, id)
  }

  lemma {:induction false} CountReleaseAll(jobs: seq<Job>, now: Time, id: string)
    ensures Count(ReleaseAll(jobs, now), id) == Count(jobs, id)
  {
    if jobs != [] {
      var n := |jobs| - 1;
      CountReleaseAll(jobs[..n], now, id);
      assert ReleaseAll(jobs, now)[..n] == ReleaseAll(jobs[..n], now);
    }
  }

  // ----- Conservation: which operations change the number of entries of a job, and how

  lemma EnqueueAddsOne(q: Queue, job: Job, now: Time, id: string)
    ensures Total(Enqueue(q, job, now), id) == Total(q, id) + if job.id == id then 1 else 0
  {
    var added := Enqueue(q, job, now).ready[|q.ready|];
    CountConcat(q.ready, [added], id);
    CountOne(added, id);
  }

  lemma EnqueueAfterAddsOne(q: Queue, job: Job, delay: Time, now: Time, id: string)
    ensures Total(EnqueueAfter(q, job, delay, now), id) == Total(q, id) + if job.id == id then 1 else 0
  {
    var added := EnqueueAfter(q, job, delay, now).delayed[|q.delayed|];
    CountConcat(q.delayed, [added], id);
    CountOne(added, id);
  }

  lemma AddDeadAddsOne(q: Queue, item: DeadLetter, now: Time, id: string)
    ensures Total(AddDead(q, item, now), id) == Total(q, id) + if item.job.id == id then 1 else 0
  {
    var added := AddDead(q, item, now).dead[0];
    CountDeadConcat([added], q.dead, id);
    CountDeadOne(added, id);
  }

  lemma PromoteConserves(q: Queue, limit: int, now: Time, id: string)
    ensures Total(PromoteDue(q, limit, now), id) == Total(q, id)
  {
    var n := EffectiveLimit(limit);
    CountPass(Due(now), q.delayed, n, id);
    CountConcat(q.ready, Taken(Due(now), q.delayed, n), id);
  }

  lemma ReclaimConserves(q: Queue, staleAfter: Time, limit: int, now: Time, id: string)
    ensures Total(ReclaimStale(q, staleAfter, limit, now), id) == Total(q, id)
  {
    var n := EffectiveLimit(limit);
    var sel := Stale(now - EffectiveStaleAfter(staleAfter));
    CountPass(sel, q.processing, n, id);
    CountReleaseAll(Taken(sel, q.processing, n), now, id);
    CountConcat(q.ready, ReleaseAll(Taken(sel, q.processing, n), now), id);
  }

  lemma LeaseConserves(q: Queue, now: Time, id: string)
    requires q.ready != []
    ensures Total(LeaseHead(q, now), id) == Total(q, id)
  {
    var leased := q.ready[0].(leasedAt := now);
    assert q.ready == [q.ready[0]] + q.ready[1..];
    CountConcat([q.ready[0]], q.ready[1..], id);
    CountOne(q.ready[0], id);
    CountConcat(q.processing, [leased], id);
    CountOne(leased, id);
  }

  lemma ReplayConserves(q: Queue, deadId: string, now: Time, id: string)
    ensures Total(ReplayDeadLetter(q, deadId, now), id) == Total(q, id)
  {
    var i := FindDead(q.dead, deadId);
    if i >= 0 {
      CountDeadRemoveAt(q.dead, i, id);
      var job := Revived(q.dead[i].job, now);
      CountConcat(q.ready, [job], id);
      CountOne(job, id);
    }
  }

  /** An ack removes one entry of its job if the processing list has any, and nothing else. */
  lemma AckRemovesAtMostOne(q: Queue, job: Job, id: string)
    ensures Total(Ack(q, job), id) ==
            Total(q, id) - if job.id == id && Count(q.processing, id) > 0 then 1 else 0
  {
    var i := AckIndex(q.processing, job);
    CountPositive(q.processing, id);
    if i >= 0 {
      CountRemoveAt(q.processing, i, id);
      assert q.processing[i].id == job.id;
    }
  }

  // ----- Draining the delayed list

  function PromoteTimes(q: Queue, limit: int, now: Time, calls: nat): Queue {
    if calls == 0 then q else PromoteDue(PromoteTimes(q, limit, now, calls - 1), limit, now)
  }

  lemma {:induction false} PromoteTakesPrefix(delayed: seq<Job>, limit: nat, now: Time)
    ensures var due := Filter(Due(now), delayed);
            && Taken(Due(now), delayed, limit) == due[..AtMost(limit, |due|)]
            && Filter(Due(now), Kept(Due(now), delayed, limit)) == due[AtMost(limit, |due|)..]
  {
    TakenIsFilterPrefix(Due(now), delayed, limit);
    FilterSplitsIntoTakenAndKept(Due(now), delayed, limit);
  }

  function AtMost(n: nat, bound: nat): nat {
    if bound < n then bound else n
  }

  lemma PrefixesCompose(base: seq<Job>, s: seq<Job>, n: nat, k: nat, rest: seq<Job>, b: nat)
    requires rest == s[AtMost(n, |s|)..] && b == AtMost(k, |rest|)
    ensures (base + s[..AtMost(n, |s|)]) + rest[..b] == base + s[..AtMost(n + k, |s|)]
    ensures rest[b..] == s[AtMost(n + k, |s|)..]
  {
  }

  /** The queue q' has the first n due jobs of q made ready, in order. */
  ghost predicate FirstDueReady(q: Queue, q': Queue, now: Time, n: nat) {
    var due := Filter(Due(now), q.delayed);
    && q'.ready == q.ready + due[..AtMost(n, |due|)]
    && Filter(Due(now), q'.delayed) == due[AtMost(n, |due|)..]
  }

  lemma {:induction false} PromoteExtends(q: Queue, mid: Queue, limit: int, now: Time, n: nat)
    requires FirstDueReady(q, mid, now, n)
    ensures FirstDueReady(q, PromoteDue(mid, limit, now), now, n + EffectiveLimit(limit))
  {
    var due, rest := Filter(Due(now), q.delayed), Filter(Due(now), mid.delayed);
    var lim := EffectiveLimit(limit);
    PromoteTakesPrefix(mid.delayed, lim, now);
    PrefixesCompose(q.ready, due, n, lim, rest, AtMost(lim, |rest|));
  }

  /** After k promotions at one instant the first k·limit due jobs, in order, are ready. */
  lemma {:induction false} PromoteTimesTakesPrefix(q: Queue, limit: int, now: Time, calls: nat)
    ensures FirstDueReady(q, PromoteTimes(q, limit, now, calls), now, calls * EffectiveLimit(limit))
  {
    var lim := EffectiveLimit(limit);
    if calls == 0 {
      assert 0 * lim == 0;
    } else {
      PromoteTimesTakesPrefix(q, limit, now, calls - 1);
      PromoteExtends(q, PromoteTimes(q, limit, now, calls - 1), limit, now, (calls - 1) * lim);
      assert calls * lim == (calls - 1) * lim + lim;
    }
  }

  /** Repeated promotion at one instant drains n due jobs in ceil(n / limit) calls: after that
      many calls all due jobs are ready in their original order and none is left behind. */
  lemma PromotionDrains(q: Queue, limit: int, now: Time, calls: nat)
    requires calls * EffectiveLimit(limit) >= |Filter(Due(now), q.delayed)|
    ensures PromoteTimes(q, limit, now, calls).ready == q.ready + Filter(Due(now), q.delayed)
    ensures Filter(Due(now), PromoteTimes(q, limit, now, calls).delayed) == []
  {
    PromoteTimesTakesPrefix(q, limit, now, calls);
    var due := Filter(Due(now), q.delayed);
    assert due[..|due|] == due;
  }

  /** ... and no fewer calls do. */
  lemma PromotionNeedsThatManyCalls(q: Queue, limit: int, now: Time, calls: nat)
    requires calls * EffectiveLimit(limit) < |Filter(Due(now), q.delayed)|
    ensures Filter(Due(now), PromoteTimes(q, limit, now, calls).delayed) != []
  {
    PromoteTimesTakesPrefix(q, limit, now, calls);
  }
}
