/** The in-memory repositories: apps, deployments, events and version counters, updated in place. */
module MemoryStore {
  import opened Domain
  import opened Deployments
  import opened Insertion

  class State {
    var apps: map<string, App>
    var deployments: map<string, Deployment>
    var events: map<string, seq<Event>>
    var deployVersion: map<string, int>

    ghost function Value(): Store
      reads this
    {
      Store(apps, deployments, events, deployVersion)
    }

    ghost predicate Valid()
      reads this
    {
      Keyed(Value())
    }

    constructor ()
      ensures Valid() && Value() == Store(map[], map[], map[], map[])
    {
      apps, deployments, events, deployVersion := map[], map[], map[], map[];
    }

    /** Refuses a slug the tenant already uses. */
    method CreateApp(app: App) returns (err: Option<Error>)
      requires Valid()
      modifies `apps
      ensures Valid()
      ensures err == None <==> SlugIsFree(old(Value()), app)
      ensures err == None ==> Value() == old(Value()).(apps := old(apps)[app.id := app])
      ensures err != None ==> err == Some(Conflict) && Value() == old(Value())
    {
      var rest := apps.Keys;
      while rest != {}
        invariant rest <= apps.Keys && unchanged(this)
        invariant forall id :: id in apps.Keys - rest && apps[id].tenantId == app.tenantId ==> apps[id].slug != app.slug
        decreases |rest|
      {
        var id :| id in rest;
        rest := rest - {id};
        if apps[id].tenantId == app.tenantId && apps[id].slug == app.slug {
          return Some(Conflict);
        }
      }
      apps := apps[app.id := app];
      return None;
    }

    method UpdateApp(app: App) returns (err: Option<Error>)
      requires Valid()
      modifies `apps
      ensures Valid()
      ensures if app.id in old(apps) then err == None && Value() == old(Value()).(apps := old(apps)[app.id := app])
              else err == Some(NotFound) && Value() == old(Value())
    {
      if app.id !in apps {
        return Some(NotFound);
      }
      apps := apps[app.id := app];
      return None;
    }

    method FindApp(tenantId: string, id: string) returns (r: Option<App>)
      requires Valid()
      ensures r == GetApp(Value(), tenantId, id) && (r.Some? ==> r.value.id == id)
    {
      if id !in apps || apps[id].tenantId != tenantId {
        return None;
      }
      return Some(apps[id]);
    }

    method CreateDeployment(d: Deployment)
      requires Valid()
      modifies `deployments
      ensures Valid() && Value() == old(Value()).(deployments := old(deployments)[d.id := d])
    {
      deployments := deployments[d.id := d];
    }

    method UpdateDeployment(d: Deployment) returns (err: Option<Error>)
      requires Valid()
      modifies `deployments
      ensures Valid()
      ensures if d.id in old(deployments)
              then err == None && Value() == old(Value()).(deployments := old(deployments)[d.id := d])
              else err == Some(NotFound) && Value() == old(Value())
    {
      if d.id !in deployments {
        return Some(NotFound);
      }
      deployments := deployments[d.id := d];
      return None;
    }

    method FindDeployment(tenantId: string, id: string) returns (r: Option<Deployment>)
      requires Valid()
      ensures r == GetDeployment(Value(), tenantId, id) && (r.Some? ==> r.value.id == id)
    {
      if id !in deployments || deployments[id].tenantId != tenantId {
        return None;
      }
      return Some(deployments[id]);
    }

    method NextVersion(tenantId: string, appId: string) returns (version: int)
      requires Valid()
      modifies `deployVersion
      ensures Valid()
      ensures var key := VersionKey(tenantId, appId);
              && version == VersionOf(old(Value()), key) + 1
              && Value() == old(Value()).(versions := old(deployVersion)[key := version])
    {
      var key := tenantId + ":" + appId;
      version := (if key in deployVersion then deployVersion[key] else 0) + 1;
      deployVersion := deployVersion[key := version];
    }

    method CreateEvent(e: Event)
      requires Valid()
      modifies `events
      ensures Valid() && Value() == AppendEvent(old(Value()), e)
    {
      var log := if e.deploymentId in events then events[e.deploymentId] else [];
      events := events[e.deploymentId := log + [e]];
    }

    /** The active deployments, oldest update first, as many as the limit allows. The map gives
        them in any order. */
    method ListActive(limit: int) returns (out: seq<Deployment>)
      requires Valid()
      ensures OldestActive(Value(), EffectiveLimit(limit), out)
    {
      var lim := if limit <= 0 then DEFAULT_LIMIT else limit;
      var rest := deployments.Keys;
      out := [];
      while rest != {}
        invariant rest <= deployments.Keys
        invariant Collected(Value(), deployments.Keys - rest, out)
        decreases |rest|
      {
        var id :| id in rest;
        ghost var done, before := deployments.Keys - rest, out;
        rest := rest - {id};
        if deployments[id].status in {Queued, Provisioning, Running, Degraded, Recovering, Deleting} {
          out := out + [deployments[id]];
        }
        CollectOne(Value(), done, before, id, out);
        assert deployments.Keys - rest == done + {id};
      }
      assert deployments.Keys - rest == deployments.Keys;
      ghost var all := out;
      out := SortByAge(out);
      SortedIsCollected(Value(), deployments.Keys, all, out);
      CutIsOldest(Value(), out, lim);
      if |out| > lim {
        out := out[..lim];
      }
    }
  }

  // ----- Listing

  predicate DistinctIds(items: seq<Deployment>) {
    forall i, j :: 0 <= i < j < |items| ==> items[i].id != items[j].id
  }

  /** The earlier of two listed deployments: another one, and not updated later. */
  predicate Before(a: Deployment, b: Deployment) {
    a.id != b.id && a.updatedAt <= b.updatedAt
  }

  predicate Genuine(st: Store, d: Deployment) {
    d.id in st.deployments && st.deployments[d.id] == d && Active(d.status)
  }

  /** The list holds exactly the active deployments among the given ids, each once. */
  ghost predicate Collected(st: Store, done: set<string>, out: seq<Deployment>) {
    && (forall d :: d in out ==> Genuine(st, d) && d.id in done)
    && DistinctIds(out)
    && (forall id :: id in done && id in st.deployments && Active(st.deployments[id].status) ==>
          st.deployments[id] in out)
  }

  lemma CollectOne(st: Store, done: set<string>, out: seq<Deployment>, id: string, out': seq<Deployment>)
    requires Keyed(st) && Collected(st, done, out) && id in st.deployments && id !in done
    requires out' == if Active(st.deployments[id].status) then out + [st.deployments[id]] else out
    ensures Collected(st, done + {id}, out')
  {
    forall i, j | 0 <= i < j < |out'|
      ensures out'[i].id != out'[j].id
    {
      assert out'[i] in out;
    }
  }

  lemma SortedIsCollected(st: Store, done: set<string>, out: seq<Deployment>, out': seq<Deployment>)
    requires Collected(st, done, out) && Ordered(Before, out') && forall d :: d in out' <==> d in out
    ensures Collected(st, done, out')
  {
  }

  lemma CutIsOldest(st: Store, all: seq<Deployment>, limit: nat)
    requires Keyed(st) && Collected(st, st.deployments.Keys, all) && Ordered(Before, all)
    ensures OldestActive(st, limit, if |all| > limit then all[..limit] else all)
  {
    var items := if |all| > limit then all[..limit] else all;
    forall id | id in st.deployments && Active(st.deployments[id].status)
      ensures Listed(items, id) ||
              (|items| == limit && forall i :: 0 <= i < |items| ==> items[i].updatedAt <= st.deployments[id].updatedAt)
    {
      var k :| 0 <= k < |all| && all[k] == st.deployments[id];
      assert all[k].id == id by {
        assert all[k] in all;
      }
      if k < |items| {
        assert items[k].id == id;
      }
    }
    forall i | 0 <= i < |items|
      ensures Genuine(st, items[i])
    {
      assert items[i] in all;
    }
  }

  /** Sorting by age: the same deployments, ordered. */
  method SortByAge(items: seq<Deployment>) returns (r: seq<Deployment>)
    requires DistinctIds(items)
    ensures Ordered(Before, r) && |r| == |items|
    ensures forall d :: d in r <==> d in items
  {
    r := [];
    for n := 0 to |items|
      invariant |r| == n && Ordered(Before, r)
      invariant forall d :: d in r <==> d in items[..n]
    {
      var k := n;
      while k > 0 && items[n].updatedAt < r[k - 1].updatedAt
        invariant 0 <= k <= n
        invariant forall i :: k <= i < n ==> items[n].updatedAt < r[i].updatedAt
      {
        k := k - 1;
      }
      assert items[..n + 1] == items[..n] + [items[n]];
      BelongsAt(items, n, r, k);
      InsertedMembers(r, k, items[n]);
      r := Insert(r, k, items[n]);
    }
    assert items[..|items|] == items;
  }

  /** The place found is right, and the insertion keeps the order. */
  lemma BelongsAt(items: seq<Deployment>, n: nat, r: seq<Deployment>, k: nat)
    requires DistinctIds(items) && n < |items| && Ordered(Before, r) && k <= |r|
    requires forall d :: d in r ==> d in items[..n]
    requires k > 0 ==> r[k - 1].updatedAt <= items[n].updatedAt
    requires forall i :: k <= i < |r| ==> items[n].updatedAt <= r[i].updatedAt
    ensures Ordered(Before, Insert(r, k, items[n]))
  {
    var x := items[n];
    forall i | 0 <= i < |r|
      ensures r[i].id != x.id && (i < k ==> Before(r[i], x)) && (k <= i ==> Before(x, r[i]))
    {
      assert r[i] in items[..n];
      assert i < k - 1 ==> Before(r[i], r[k - 1]);
    }
    InsertedInOrder(Before, r, k, x);
  }
}
