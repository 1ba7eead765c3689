/** How often a job can be handed out: every submission, replay or reclaimed lease of a job
    grants at most maxAttempts deliveries, over every run. */
module RetryBudget {
  import opened Domain
  import opened WorkerProtocol
  import opened Delivery
  import Q = QueueSpec

  /** The deliveries the waiting entries of a job are still good for. */
  function Credit(c: Config, jobs: seq<Job>, id: string): int {
    if jobs == [] then 0 else
      var last := jobs[|jobs| - 1];
      Credit(c, jobs[..|jobs| - 1], id) + if last.id == id then c.maxAttempts - last.attempts else 0
  }

  /** The deliveries a worker that has not settled the job may still put back. */
  function PhaseCredit(c: Config, p: Phase, id: string): int {
    if (p.Leased? || p.Failing?) && p.job.id == id then c.maxAttempts - p.job.attempts - 1 else 0
  }

  function HeldCredit(c: Config, ws: seq<Phase>, id: string): int {
    if ws == [] then 0 else
      HeldCredit(c, ws[..|ws| - 1], id) + PhaseCredit(c, ws[|ws| - 1], id)
  }

  function Potential(c: Config, s: State, id: string): int {
    Credit(c, s.queue.ready, id) + Credit(c, s.queue.delayed, id) + HeldCredit(c, s.workers, id)
  }

  lemma {:induction false} CreditConcat(c: Config, a: seq<Job>, b: seq<Job>, id: string)
    ensures Credit(c, a + b, id) == Credit(c, a, id) + Credit(c, b, id)
  {
    if b == [] {
      assert a + b == a;
    } else {
      assert (a + b)[..|a + b| - 1] == a + b[..|b| - 1];
      CreditConcat(c, a, b[..|b| - 1], id);
    }
  }

  lemma CreditOne(c: Config, j: Job, id: string)
    ensures Credit(c, [j], id) == if j.id == id then c.maxAttempts - j.attempts else 0
  {
    assert [j][..0] == [];
  }

  lemma {:induction false} CreditPass(c: Config, sel: Q.Selector, jobs: seq<Job>, limit: nat, id: string)
    ensures Credit(c, Q.Taken(sel, jobs, limit), id) + Credit(c, Q.Kept(sel, jobs, limit), id)
         == Credit(c, jobs, id)
  {
    if jobs != [] {
      var n := |jobs| - 1;
      CreditPass(c, sel, jobs[..n], limit, id);
      CreditConcat(c, Q.Taken(sel, jobs[..n], limit), [jobs[n]], id);
      CreditConcat(c, Q.Kept(sel, jobs[..n], limit), [jobs[n]], id);
      CreditOne(c, jobs[n], id);
    }
  }

  /** Entries with a non-negative attempt count are worth at most maxAttempts each. */
  lemma {:induction false} CreditAtMost(c: Config, jobs: seq<Job>, id: string)
    requires forall j :: j in jobs ==> AttemptsLeft(c, j)
    ensures 0 <= Credit(c, jobs, id) <= c.maxAttempts * Q.Count(jobs, id)
  {
    if jobs != [] {
      var n := |jobs| - 1;
      CreditAtMost(c, jobs[..n], id);
      assert jobs[n] in jobs;
      assert c.maxAttempts * (Q.Count(jobs[..n], id) + 1) == c.maxAttempts * Q.Count(jobs[..n], id) + c.maxAttempts;
    }
  }

  lemma {:induction false} HeldCreditUpdate(c: Config, ws: seq<Phase>, w: nat, p: Phase, id: string)
    requires w < |ws|
    ensures HeldCredit(c, ws[w := p], id) ==
            HeldCredit(c, ws, id) - PhaseCredit(c, ws[w], id) + PhaseCredit(c, p, id)
  {
    var n := |ws| - 1;
    if w < n {
      assert ws[w := p][..n] == ws[..n][w := p];
      HeldCreditUpdate(c, ws[..n], w, p, id);
    } else {
      assert ws[w := p][..n] == ws[..n];
    }
  }

  lemma {:induction false} HeldCreditNonNegative(c: Config, ws: seq<Phase>, id: string)
    requires forall w :: 0 <= w < |ws| ==> PhaseOk(c, ws[w])
    ensures HeldCredit(c, ws, id) >= 0
  {
    if ws != [] {
      HeldCreditNonNegative(c, ws[..|ws| - 1], id);
    }
  }

  // ----- Deliveries and grants of one move

  function Delivers(s: State, m: Move, id: string): nat {
    if HandsOut(s, m, id) then 1 else 0
  }

  /** How many entries of the job the move makes ready anew: one for a submission or a replay,
      one for each lease it reclaims. */
  function Grants(s: State, m: Move, id: string): nat {
    match m.step
    case Submit(i, _, _) => if i == id then 1 else 0
    case Replay(deadId) =>
      var i := Q.FindDead(s.queue.dead, deadId);
      if i >= 0 && s.queue.dead[i].job.id == id then 1 else 0
    case Reclaim(staleAfter, limit) =>
      Q.Count(Q.Taken(Q.Stale(m.now - Q.EffectiveStaleAfter(staleAfter)), s.queue.processing,
                      EffectiveLimit(limit)), id)
    case _ => 0
  }

  lemma PromoteKeepsCredit(c: Config, q: Q.Queue, limit: int, now: Time, id: string)
    ensures Credit(c, Q.PromoteDue(q, limit, now).ready, id) + Credit(c, Q.PromoteDue(q, limit, now).delayed, id)
         == Credit(c, q.ready, id) + Credit(c, q.delayed, id)
  {
    var n := EffectiveLimit(limit);
    CreditPass(c, Q.Due(now), q.delayed, n, id);
    CreditConcat(c, q.ready, Q.Taken(Q.Due(now), q.delayed, n), id);
  }

  lemma LeaseSpendsOne(c: Config, s: State, m: Move, id: string)
    requires Enabled(s, m) && m.step.Lease?
    ensures Potential(c, Apply(c, s, m), id) + Delivers(s, m, id) == Potential(c, s, id)
  {
    PromoteKeepsCredit(c, s.queue, Q.DEQUEUE_PROMOTE_LIMIT, m.now, id);
    var q := Q.Polled(s.queue, m.now);
    if q.ready != [] {
      assert q.ready == [q.ready[0]] + q.ready[1..];
      CreditConcat(c, [q.ready[0]], q.ready[1..], id);
      CreditOne(c, q.ready[0], id);
      HeldCreditUpdate(c, s.workers, m.step.w, Apply(c, s, m).workers[m.step.w], id);
    }
  }

  lemma SettleKeepsPotential(c: Config, s: State, m: Move, id: string)
    requires ValidConfig(c) && Enabled(s, m) && WellFormed(c, s) && m.step.Settle?
    ensures Potential(c, Apply(c, s, m), id) <= Potential(c, s, id)
  {
    var s' := Apply(c, s, m);
    HeldCreditUpdate(c, s.workers, m.step.w, s'.workers[m.step.w], id);
    if |s'.queue.delayed| > |s.queue.delayed| {
      var added := s'.queue.delayed[|s.queue.delayed|];
      CreditConcat(c, s.queue.delayed, [added], id);
      CreditOne(c, added, id);
    }
  }

  lemma ReclaimGrants(c: Config, s: State, m: Move, id: string)
    requires ValidConfig(c) && Enabled(s, m) && WellFormed(c, s) && m.step.Reclaim?
    ensures Potential(c, Apply(c, s, m), id) <= Potential(c, s, id) + c.maxAttempts * Grants(s, m, id)
  {
    var sel := Q.Stale(m.now - Q.EffectiveStaleAfter(m.step.staleAfter));
    var taken := Q.Taken(sel, s.queue.processing, EffectiveLimit(m.step.limit));
    var released := Q.ReleaseAll(taken, m.now);
    CreditConcat(c, s.queue.ready, released, id);
    forall j {
      Q.MembersOfPass(sel, s.queue.processing, EffectiveLimit(m.step.limit), j);
    }
    forall j | j in released
      ensures AttemptsLeft(c, j)
    {
      var i :| 0 <= i < |taken| && j == Q.Release(taken[i], m.now);
      assert taken[i] in s.queue.processing;
    }
    CreditAtMost(c, released, id);
    Q.CountReleaseAll(taken, m.now, id);
  }

  lemma CreditPush(c: Config, jobs: seq<Job>, job: Job, id: string)
    requires job.attempts == 0
    ensures Credit(c, jobs + [job], id) == Credit(c, jobs, id) + if job.id == id then c.maxAttempts else 0
  {
    CreditConcat(c, jobs, [job], id);
    CreditOne(c, job, id);
  }

  lemma SubmitGrants(c: Config, s: State, m: Move, id: string)
    requires Enabled(s, m) && m.step.Submit?
    ensures Potential(c, Apply(c, s, m), id) == Potential(c, s, id) + if m.step.id == id then c.maxAttempts else 0
  {
    var q, q' := s.queue, Apply(c, s, m).queue;
    if m.step.delay.Some? {
      CreditPush(c, q.delayed, q'.delayed[|q.delayed|], id);
    } else {
      CreditPush(c, q.ready, q'.ready[|q.ready|], id);
    }
  }

  lemma ReplayGrants(c: Config, s: State, m: Move, id: string)
    requires Enabled(s, m) && m.step.Replay?
    ensures Potential(c, Apply(c, s, m), id) ==
            Potential(c, s, id) + if Grants(s, m, id) == 1 then c.maxAttempts else 0
  {
    var i := Q.FindDead(s.queue.dead, m.step.deadId);
    if i >= 0 {
      CreditPush(c, s.queue.ready, Q.Revived(s.queue.dead[i].job, m.now), id);
    }
  }

  lemma StepBudget(c: Config, s: State, m: Move, id: string)
    requires ValidConfig(c) && Enabled(s, m) && WellFormed(c, s)
    ensures Delivers(s, m, id) + Potential(c, Apply(c, s, m), id)
         <= Potential(c, s, id) + c.maxAttempts * Grants(s, m, id)
  {
    assert c.maxAttempts * 0 == 0 && c.maxAttempts * 1 == c.maxAttempts;
    match m.step
    case Submit(_, _, _) => SubmitGrants(c, s, m, id);
    case Replay(_) => ReplayGrants(c, s, m, id);
    case Lease(_) => LeaseSpendsOne(c, s, m, id);
    case Settle(_, _) => SettleKeepsPotential(c, s, m, id);
    case Promote(limit) => PromoteKeepsCredit(c, s.queue, limit, m.now, id);
    case Reclaim(_, _) => ReclaimGrants(c, s, m, id);
    case _ => HeldCreditUpdate(c, s.workers, m.step.w, Apply(c, s, m).workers[m.step.w], id);
  }

  // ----- Over any stretch of a run

  /** How often the moves k to n - 1 hand the job out. */
  function Deliveries(states: seq<State>, moves: seq<Move>, id: string, k: nat, n: nat): nat
    requires k <= n <= |moves| < |states|
  {
    if n == k then 0 else
      Deliveries(states, moves, id, k, n - 1) + Delivers(states[n - 1], moves[n - 1], id)
  }

  /** How many entries of it they make ready anew. */
  function Granted(states: seq<State>, moves: seq<Move>, id: string, k: nat, n: nat): nat
    requires k <= n <= |moves| < |states|
  {
    if n == k then 0 else
      Granted(states, moves, id, k, n - 1) + Grants(states[n - 1], moves[n - 1], id)
  }

  /** What those entries are good for, move by move. */
  function Allowance(c: Config, states: seq<State>, moves: seq<Move>, id: string, k: nat, n: nat): int
    requires k <= n <= |moves| < |states|
  {
    if n == k then 0 else
      Allowance(c, states, moves, id, k, n - 1) + c.maxAttempts * Grants(states[n - 1], moves[n - 1], id)
  }

  lemma {:induction false} AllowanceIsPerGrant(c: Config, states: seq<State>, moves: seq<Move>, id: string, k: nat,
                                               n: nat)
    requires k <= n <= |moves| < |states|
    ensures Allowance(c, states, moves, id, k, n) == c.maxAttempts * Granted(states, moves, id, k, n)
    decreases n
  {
    if n > k {
      AllowanceIsPerGrant(c, states, moves, id, k, n - 1);
      Distribute(c.maxAttempts, Granted(states, moves, id, k, n - 1), Grants(states[n - 1], moves[n - 1], id));
    }
  }

  lemma Distribute(k: int, a: int, b: int)
    ensures k * (a + b) == k * a + k * b
  {
  }

  lemma {:induction false} AllowanceHolds(c: Config, states: seq<State>, moves: seq<Move>, id: string, k: nat, n: nat)
    requires IsRun(c, states, moves) && k <= n <= |moves|
    ensures Deliveries(states, moves, id, k, n) + Potential(c, states[n], id)
         <= Potential(c, states[k], id) + Allowance(c, states, moves, id, k, n)
    decreases n
  {
    if n > k {
      AllowanceHolds(c, states, moves, id, k, n - 1);
      NextBudget(c, states, moves, id, n);
      AddUp(Deliveries(states, moves, id, k, n - 1), Delivers(states[n - 1], moves[n - 1], id),
            Potential(c, states[k], id), Potential(c, states[n - 1], id), Potential(c, states[n], id),
            Allowance(c, states, moves, id, k, n - 1), c.maxAttempts * Grants(states[n - 1], moves[n - 1], id),
            Deliveries(states, moves, id, k, n), Allowance(c, states, moves, id, k, n));
    }
  }

  lemma AddUp(delivered: int, delivers: int, start: int, before: int, after: int, allowed: int, allows: int,
              deliveredNow: int, allowedNow: int)
    requires delivered + before <= start + allowed && delivers + after <= before + allows
    requires deliveredNow == delivered + delivers && allowedNow == allowed + allows
    ensures deliveredNow + after <= start + allowedNow
  {
  }

  /** Over any stretch of any run, the deliveries made and those still to come are paid for by the
      attempts left at its start and by maxAttempts for each entry made ready anew. */
  lemma BudgetHolds(c: Config, states: seq<State>, moves: seq<Move>, id: string, k: nat, n: nat)
    requires IsRun(c, states, moves) && k <= n <= |moves|
    ensures Deliveries(states, moves, id, k, n) + Potential(c, states[n], id)
         <= Potential(c, states[k], id) + c.maxAttempts * Granted(states, moves, id, k, n)
  {
    AllowanceHolds(c, states, moves, id, k, n);
    AllowanceIsPerGrant(c, states, moves, id, k, n);
  }

  lemma NextBudget(c: Config, states: seq<State>, moves: seq<Move>, id: string, n: nat)
    requires IsRun(c, states, moves) && 0 < n <= |moves|
    ensures Delivers(states[n - 1], moves[n - 1], id) + Potential(c, states[n], id)
         <= Potential(c, states[n - 1], id) + c.maxAttempts * Grants(states[n - 1], moves[n - 1], id)
  {
    EntriesAreWellFormed(c, states, moves, n - 1);
    var s, m, s' := states[n - 1], moves[n - 1], states[n];
    assert Linked(c, s, m, s');
    StepBudget(c, s, m, id);
  }

  lemma {:induction false} NoHeldCredit(c: Config, ws: seq<Phase>, id: string)
    requires forall w :: 0 <= w < |ws| ==> PhaseCredit(c, ws[w], id) == 0
    ensures HeldCredit(c, ws, id) == 0
  {
    if ws != [] {
      NoHeldCredit(c, ws[..|ws| - 1], id);
    }
  }

  lemma {:induction false} NoCredit(c: Config, jobs: seq<Job>, id: string)
    requires Q.Count(jobs, id) == 0
    ensures Credit(c, jobs, id) == 0
  {
    if jobs != [] {
      NoCredit(c, jobs[..|jobs| - 1], id);
    }
  }

  lemma PotentialIsNatural(c: Config, s: State, id: string)
    requires WellFormed(c, s)
    ensures Potential(c, s, id) >= 0
  {
    CreditAtMost(c, s.queue.ready, id);
    CreditAtMost(c, s.queue.delayed, id);
    HeldCreditNonNegative(c, s.workers, id);
  }

  /** From the start of a run, a job is handed out at most maxAttempts times per submission, replay
      or reclaimed lease. */
  lemma DeliveriesAreBounded(c: Config, states: seq<State>, moves: seq<Move>, id: string, n: nat)
    requires IsRun(c, states, moves) && n <= |moves|
    ensures Deliveries(states, moves, id, 0, n) <= c.maxAttempts * Granted(states, moves, id, 0, n)
  {
    NoHeldCredit(c, states[0].workers, id);
    BudgetHolds(c, states, moves, id, 0, n);
    EntriesAreWellFormed(c, states, moves, n);
    PotentialIsNatural(c, states[n], id);
  }

  // ----- From one submission or replay on

  /** The move submits the job, or replays a dead letter of it that is its only entry and that no
      worker may still put back. */
  ghost predicate Opens(s: State, m: Move, id: string) {
    || (m.step.Submit? && m.step.id == id)
    || (&& m.step.Replay? && Grants(s, m, id) == 1 && Q.Total(s.queue, id) == 1
        && forall w :: 0 <= w < |s.workers| && (s.workers[w].Leased? || s.workers[w].Failing?) ==>
             s.workers[w].job.id != id)
  }

  lemma UnknownHasNoCredit(c: Config, s: State, id: string)
    requires Accounted(s, id) && id !in s.known
    ensures Potential(c, s, id) == 0
  {
    forall w | 0 <= w < |s.workers|
      ensures PhaseCredit(c, s.workers[w], id) == 0
    {
      assert !Holds(s.workers[w], id);
    }
    NoCredit(c, s.queue.ready, id);
    NoCredit(c, s.queue.delayed, id);
    NoHeldCredit(c, s.workers, id);
  }

  /** Before such a move nothing is left of the job to hand out. */
  lemma NothingLeftBefore(c: Config, s: State, m: Move, id: string)
    requires Enabled(s, m) && Accounted(s, id) && Opens(s, m, id)
    ensures Potential(c, s, id) == 0 && Grants(s, m, id) == 1
  {
    if m.step.Submit? {
      UnknownHasNoCredit(c, s, id);
    } else {
      OnlyDead(s.queue, Q.FindDead(s.queue.dead, m.step.deadId), id);
      NoCredit(c, s.queue.ready, id);
      NoCredit(c, s.queue.delayed, id);
      NoHeldCredit(c, s.workers, id);
    }
  }

  lemma OnlyDead(q: Q.Queue, i: nat, id: string)
    requires Q.Total(q, id) == 1 && i < |q.dead| && q.dead[i].job.id == id
    ensures Q.Count(q.ready, id) == 0 && Q.Count(q.delayed, id) == 0
  {
    Q.CountDeadRemoveAt(q.dead, i, id);
  }

  /** The retry bound: from a submission or a replay on, until the next submission, replay or expired
      lease, a job is handed out at most maxAttempts times. */
  lemma AttemptsAreBounded(c: Config, states: seq<State>, moves: seq<Move>, id: string, k: nat, n: nat)
    requires IsRun(c, states, moves) && k < n <= |moves| && Opens(states[k], moves[k], id)
    requires Granted(states, moves, id, k + 1, n) == 0
    ensures Deliveries(states, moves, id, k, n) <= c.maxAttempts
  {
    NoJobIsLost(c, states, moves, k, id);
    assert Linked(c, states[k], moves[k], states[k + 1]);
    NothingLeftBefore(c, states[k], moves[k], id);
    BudgetHolds(c, states, moves, id, k, n);
    GrantedSplits(states, moves, id, k, n);
    EntriesAreWellFormed(c, states, moves, n);
    PotentialIsNatural(c, states[n], id);
    OneGrant(c.maxAttempts, Granted(states, moves, id, k, n), Deliveries(states, moves, id, k, n),
             Potential(c, states[k], id), Potential(c, states[n], id));
  }

  lemma OneGrant(k: int, granted: int, delivered: int, before: int, after: int)
    requires delivered + after <= before + k * granted && granted == 1 && before == 0 <= after
    ensures delivered <= k
  {
  }

  lemma {:induction false} GrantedSplits(states: seq<State>, moves: seq<Move>, id: string, k: nat, n: nat)
    requires k < n <= |moves| < |states|
    ensures Granted(states, moves, id, k, n) == Grants(states[k], moves[k], id) + Granted(states, moves, id, k + 1, n)
    decreases n
  {
    if n > k + 1 {
      GrantedSplits(states, moves, id, k, n - 1);
    }
  }
}
