/** What promotion, reclaim and replay take on Redis, and exactly when a copy is lost. */
module RedisMovers {
  import opened Domain
  import opened RedisProtocol

  /** A mover's command makes a copy disappear exactly if it is the mover's death and the mover carries
      the copy. */
  lemma MoverLosesExactlyByDying(c: Config, s: State, m: Move, id: string)
    requires Enabled(s, m) && m.step.ByMover?
    ensures var s' := Apply(c, s, m);
            Stored(s'.server, id) + Carried(s'.movers, id) < Stored(s.server, id) + Carried(s.movers, id) <==>
            m.step.action.CrashMover? && Carries(s.movers[m.step.v], id) == 1
  {
    CarryBalance(s.server, s.movers[m.step.v], m.step.action, m.now, id);
    CarriedUpdate(s.movers, m.step.v, Apply(c, s, m).movers[m.step.v], id);
  }

  /** The next entry of a reclaim's scan is taken out of the processing list, whoever holds it, exactly
      if it is still there and has no lease written or one as old as the cutoff. */
  lemma ReclaimTakesExactlyTheStale(c: Config, s: State, m: Move)
    requires Enabled(s, m) && m.step.ByMover? && m.step.action.TakeStale? && s.movers[m.step.v].task.batch != []
    ensures var task, p, p' := s.movers[m.step.v].task, s.server.processing, Apply(c, s, m).server.processing;
            var e := task.batch[0];
            multiset(p) == multiset(p') + multiset{e} <==>
            e in p && (e.leasedAt == 0 || e.leasedAt <= task.cutoff)
  {
    var task, p := s.movers[m.step.v].task, s.server.processing;
    if task.batch[0] in p {
      LRemTakesOne(p, task.batch[0]);
    }
    assert multiset(p) != multiset(p) + multiset{task.batch[0]} by {
      assert multiset(p)[task.batch[0]] != (multiset(p) + multiset{task.batch[0]})[task.batch[0]];
    }
  }

  lemma LRemTakesOne<T>(p: seq<T>, e: T)
    requires e in p
    ensures multiset(p) == multiset(LRem(p, e)) + multiset{e}
  {
    var i := Find(p, e);
    assert p == p[..i] + [e] + p[i + 1..];
  }
}
