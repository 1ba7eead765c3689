/** Version numbers. A creation takes its number in one step and stores its deployment in a later
    one, so other creations may come between; still no two deployments of an app, stored or on
    their way, have the same number. */
module Versions {
  import opened Domain
  import opened Deployments
  import opened Lifecycle
  import opened StoreInvariants
  import opened Exits
  import opened WorldInvariants
  import P = WorkerProtocol

  /** Who holds a version number: a stored deployment, or a creation under way. */
  datatype Holder = Stored(id: string) | UnderWay(token: nat)

  datatype Claim = Claim(key: string, version: int)

  predicate Holds(w: World, h: Holder) {
    match h
    case Stored(id) => id in w.store.deployments
    case UnderWay(token) => token in w.pending
  }

  function ClaimOf(w: World, h: Holder): Claim
    requires Holds(w, h)
  {
    match h
    case Stored(id) =>
      var d := w.store.deployments[id]; Claim(VersionKey(d.tenantId, d.appId), d.version)
    case UnderWay(token) =>
      var p := w.pending[token]; Claim(VersionKey(p.tenantId, p.app.id), p.version)
  }

  /** No claim runs ahead of its counter, and no two holders make the same claim. */
  ghost predicate VersionsOk(w: World) {
    && (forall key :: key in w.store.versions ==> w.store.versions[key] >= 0)
    && (forall h :: Holds(w, h) ==> 1 <= ClaimOf(w, h).version <= VersionOf(w.store, ClaimOf(w, h).key))
    && (forall h, k :: Holds(w, h) && Holds(w, k) && h != k ==> ClaimOf(w, h) != ClaimOf(w, k))
  }

  lemma BeginKeepsVersions(c: P.Config, w: World, m: Move)
    requires Enabled(w, m) && m.step.Begin? && VersionsOk(w) && Keyed(w.store)
    ensures VersionsOk(Apply(c, w, m))
  {
    var w', taken := Apply(c, w, m), UnderWay(m.step.token);
    assert forall h :: Holds(w', h) && h != taken ==> Holds(w, h) && ClaimOf(w', h) == ClaimOf(w, h);
  }

  /** Every claim is one that was there before, under another holder at most. */
  lemma SameClaims(w: World, w': World)
    requires VersionsOk(w) && w'.store.versions == w.store.versions && w'.pending == w.pending
    requires w'.store.deployments.Keys == w.store.deployments.Keys
    requires forall id :: id in w.store.deployments ==>
               SameIdentity(w.store.deployments[id], w'.store.deployments[id])
    ensures VersionsOk(w')
  {
    assert forall h :: Holds(w', h) ==> Holds(w, h) && ClaimOf(w', h) == ClaimOf(w, h);
  }

  /** Storing the deployment hands the claim of the creation over to it. */
  lemma FinishKeepsVersions(w: World, w': World, token: nat, id: string, d: Deployment)
    requires VersionsOk(w) && token in w.pending && id !in w.store.deployments
    requires w'.store.versions == w.store.versions && w'.pending == w.pending - {token}
    requires w'.store.deployments == w.store.deployments[id := d]
    requires var p := w.pending[token]; d.tenantId == p.tenantId && d.appId == p.app.id && d.version == p.version
    ensures VersionsOk(w')
  {
    forall h | Holds(w', h)
      ensures Holds(w, Before(h, token, id)) && ClaimOf(w', h) == ClaimOf(w, Before(h, token, id))
    {
    }
  }

  function Before(h: Holder, token: nat, id: string): Holder {
    if h == Stored(id) then UnderWay(token) else h
  }

  lemma ActKeepsVersions(c: P.Config, w: World, m: Move)
    requires Enabled(w, m) && m.step.Do? && VersionsOk(w) && Inv(w)
    ensures VersionsOk(Apply(c, w, m))
  {
    var w', act := Apply(c, w, m), m.step.act;
    StepTouches(c, w, m);
    EffectIsSound(w, act, m.now);
    if act.Finish? {
      FinishKeepsVersions(w, w', act.token, act.id, w'.store.deployments[act.id]);
    } else {
      forall id | id in w.store.deployments
        ensures SameIdentity(w.store.deployments[id], w'.store.deployments[id])
      {
        assert Grows(w.store.deployments[id], w'.store.deployments[id]);
      }
      SameClaims(w, w');
    }
  }

  lemma StepKeepsVersions(c: P.Config, w: World, m: Move)
    requires Enabled(w, m) && VersionsOk(w) && Inv(w)
    ensures VersionsOk(Apply(c, w, m))
  {
    if m.step.Begin? {
      BeginKeepsVersions(c, w, m);
    } else if m.step.Do? {
      ActKeepsVersions(c, w, m);
    } else {
      SameClaims(w, Apply(c, w, m));
    }
  }

  lemma {:induction false} VersionsHold(c: P.Config, worlds: seq<World>, moves: seq<Move>, i: nat)
    requires IsRun(c, worlds, moves) && i < |worlds|
    ensures VersionsOk(worlds[i])
  {
    if i > 0 {
      VersionsHold(c, worlds, moves, i - 1);
      InvHolds(c, worlds, moves, i - 1);
      var w, m, w' := worlds[i - 1], moves[i - 1], worlds[i];
      assert Linked(c, w, m, w');
      StepKeepsVersions(c, w, m);
    }
  }

  /** Two deployments of one app never have the same version, which is at least one. */
  lemma VersionsAreDistinct(c: P.Config, worlds: seq<World>, moves: seq<Move>, i: nat, a: string, b: string)
    requires IsRun(c, worlds, moves) && i < |worlds|
    requires a in worlds[i].store.deployments && b in worlds[i].store.deployments && a != b
    requires worlds[i].store.deployments[a].appId == worlds[i].store.deployments[b].appId
    ensures var st := worlds[i].store;
            1 <= st.deployments[a].version != st.deployments[b].version
  {
    VersionsHold(c, worlds, moves, i);
    InvHolds(c, worlds, moves, i);
    var w := worlds[i];
    assert DeploymentOk(w.store, w.store.deployments[a]) && DeploymentOk(w.store, w.store.deployments[b]);
    assert Holds(w, Stored(a)) && Holds(w, Stored(b));
    assert ClaimOf(w, Stored(a)) != ClaimOf(w, Stored(b));
  }
}
