/** What the Kubernetes backend makes of the cluster's answers, and that its answers are of the
    kind the handlers rely on. */
module KubernetesBackend {
  import opened Domain
  import opened Deployments
  import opened Naming
  import opened Text

  // ----- Rollout status

  datatype ConditionType = ReplicaFailure | Progressing | OtherCondition

  datatype Condition = Condition(kind: ConditionType, isTrue: bool, reason: string, message: string)

  datatype Rollout = Rollout(
    generation: int, observedGeneration: int, conditions: seq<Condition>, replicas: Option<int>,
    ready: nat, updated: nat, available: nat)

  const DEADLINE := "ProgressDeadlineExceeded"

  /** A condition that makes the rollout a failed one. */
  predicate Fatal(c: Condition) {
    (c.kind == ReplicaFailure && c.isTrue) || (c.kind == Progressing && c.reason == DEADLINE)
  }

  function FatalReason(c: Condition): string {
    if c.message != "" then c.message
    else if c.kind == ReplicaFailure && c.isTrue then c.reason
    else "deployment rollout exceeded progress deadline"
  }

  function Desired(r: Rollout): (n: int)
    ensures n > 0
  {
    if r.replicas.Some? && r.replicas.value > 0 then r.replicas.value else 1
  }

  predicate Observed(r: Rollout) {
    r.generation <= r.observedGeneration
  }

  predicate Healthy(r: Rollout) {
    Observed(r) && forall i :: 0 <= i < |r.conditions| ==> !Fatal(r.conditions[i])
  }

  function Counts(r: Rollout): string {
    Digits(r.ready) + "/" + Digits(Desired(r)) + " replicas"
  }

  /** What a rollout is reported as. Failed exactly on a fatal condition the controller has seen, with the
      reason of the first; running exactly if healthy and fully rolled out; degraded exactly if healthy, not
      fully rolled out and with something up; provisioning otherwise. */
  ghost predicate Describes(r: Rollout, status: Status, reason: string) {
    && status in {Provisioning, Running, Degraded, Failed}
    && (status == Failed <==> Observed(r) && !Healthy(r))
    && (status == Running <==> Healthy(r) && r.ready >= Desired(r) && r.updated >= Desired(r))
    && (status == Degraded <==>
        Healthy(r) && (r.ready < Desired(r) || r.updated < Desired(r)) && (r.ready > 0 || r.available > 0))
    && match status
       case Failed =>
         exists i :: 0 <= i < |r.conditions| && Fatal(r.conditions[i]) && reason == FatalReason(r.conditions[i])
                     && forall k :: 0 <= k < i ==> !Fatal(r.conditions[k])
       case Running => reason == "deployment ready"
       case Degraded => reason == "degraded rollout: ready " + Counts(r)
       case _ =>
         reason == if Observed(r) then "ready " + Counts(r) else "waiting for controller to observe new generation"
  }

  method MapDeploymentStatus(r: Rollout) returns (status: Status, reason: string)
    ensures Describes(r, status, reason)
  {
    if r.generation > r.observedGeneration {
      return Provisioning, "waiting for controller to observe new generation";
    }
    for i := 0 to |r.conditions|
      invariant forall k :: 0 <= k < i ==> !Fatal(r.conditions[k])
    {
      var c := r.conditions[i];
      if c.kind == ReplicaFailure && c.isTrue {
        if c.message != "" {
          return Failed, c.message;
        }
        return Failed, c.reason;
      }
      if c.kind == Progressing && c.reason == DEADLINE {
        if c.message != "" {
          return Failed, c.message;
        }
        return Failed, "deployment rollout exceeded progress deadline";
      }
    }
    var desired := 1;
    if r.replicas.Some? {
      desired := r.replicas.value;
    }
    if desired <= 0 {
      desired := 1;
    }
    if r.ready >= desired && r.updated >= desired {
      return Running, "deployment ready";
    }
    var counts := Digits(r.ready) + "/" + Digits(desired) + " replicas";
    if r.ready > 0 || r.available > 0 {
      return Degraded, "degraded rollout: ready " + counts;
    }
    return Provisioning, "ready " + counts;
  }

  /** What a report means, on the rollout's own fields. */
  lemma ReportMeans(r: Rollout, status: Status, reason: string)
    requires Describes(r, status, reason)
    ensures status == Failed <==>
            && r.generation <= r.observedGeneration
            && exists i :: 0 <= i < |r.conditions| && var c := r.conditions[i];
                           || (c.kind == ReplicaFailure && c.isTrue)
                           || (c.kind == Progressing && c.reason == "ProgressDeadlineExceeded")
    ensures var desired := if r.replicas.Some? && r.replicas.value > 1 then r.replicas.value else 1;
            && (status == Running ==> r.ready >= desired && r.updated >= desired)
            && (status == Degraded ==>
                  (r.ready < desired || r.updated < desired) && (r.ready > 0 || r.available > 0))
            && (status == Provisioning ==>
                  || r.generation > r.observedGeneration
                  || (r.ready == 0 && r.available == 0))
  {
    assert status == Failed ==> exists i :: 0 <= i < |r.conditions| && Fatal(r.conditions[i]);
    assert forall i :: 0 <= i < |r.conditions| ==>
        (Fatal(r.conditions[i]) <==>
         || (r.conditions[i].kind == ReplicaFailure && r.conditions[i].isTrue)
         || (r.conditions[i].kind == Progressing && r.conditions[i].reason == "ProgressDeadlineExceeded"));
  }

  // ----- The answers

  /** What the cluster says about an object. */
  datatype Found = Present(rollout: Rollout) | Absent | Unavailable(message: string)

  /** Reports the rollout of an object that is there, and a failure for one that is not. Echoes the reference,
      with the service filled in where the object was found without one. */
  method GetStatus(ref: BackendRef, found: Found) returns (r: Result<BackendStatus>)
    ensures StatusAnswers(ref, r)
    ensures r.Err? <==> found.Unavailable?
    ensures r.Err? ==>
              r.error == BackendError("get deployment " + ref.namespace + "/" + ref.deployment + ": " + found.message)
    ensures found.Absent? ==> r.value.status == Failed && r.value.reason == "deployment not found"
    ensures found.Present? ==> Describes(found.rollout, r.value.status, r.value.reason)
    ensures r.Ok? ==>
              r.value.ref == if found.Present? && ref.service == "" then ref.(service := ref.deployment) else ref
  {
    match found
    case Unavailable(message) =>
      r := Err(BackendError("get deployment " + ref.namespace + "/" + ref.deployment + ": " + message));
    case Absent => r := Ok(BackendStatus(Failed, "deployment not found", ref));
    case Present(rollout) =>
      var status, reason := MapDeploymentStatus(rollout);
      var echoed := if ref.service == "" then ref.(service := ref.deployment) else ref;
      r := Ok(BackendStatus(status, reason, echoed));
  }

  function NamespaceFor(tenantId: string): string {
    "tenant-" + KubeName(tenantId)
  }

  /** What a submission applies, as its errors name it; only a public app has an ingress. */
  function Applications(namespace: string, name: string, ingress: Option<string>): seq<string> {
    ["ensure namespace " + namespace, "apply network policy in " + namespace, "",
     "apply deployment " + namespace + "/" + name, "apply service " + namespace + "/" + name]
    + if ingress.Some? then ["apply ingress " + namespace + "/" + ingress.value] else []
  }

  function Wrapped(context: string, message: string): string {
    if context == "" then message else context + ": " + message
  }

  function SubmittedRef(app: App, version: nat, public: bool): BackendRef {
    var name := ResourceName(app.slug, version);
    BackendRef(NamespaceFor(app.tenantId), name, name, if public then KubeName(app.slug) else "")
  }

  predicate NoneFailed(failures: seq<Option<string>>) {
    forall i :: 0 <= i < |failures| ==> failures[i] == None
  }

  /** A submission fails with the first object that could not be applied, if there is one, and says which;
      with all of them applied it is provisioning, under a named reference. `failures` is what the
      cluster says to each application in turn. */
  method Submit(app: App, version: nat, public: bool, failures: seq<Option<string>>)
    returns (r: Result<BackendStatus>)
    requires |failures| == if public then 6 else 5
    ensures SubmitAnswers(r)
    ensures r.Ok? <==> NoneFailed(failures)
    ensures r.Ok? ==> r.value.status == Provisioning && r.value.ref == SubmittedRef(app, version, public)
    ensures r.Err? ==>
              var ref := SubmittedRef(app, version, public);
              var what := Applications(ref.namespace, ref.deployment, if public then Some(ref.ingressName) else None);
              exists i :: 0 <= i < |failures| && NoneFailed(failures[..i]) && failures[i].Some?
                          && r.error == BackendError(Wrapped(what[i], failures[i].value))
  {
    var ref := SubmittedRef(app, version, public);
    var what := Applications(ref.namespace, ref.deployment, if public then Some(ref.ingressName) else None);
    for i := 0 to |failures|
      invariant NoneFailed(failures[..i])
    {
      if failures[i].Some? {
        return Err(BackendError(Wrapped(what[i], failures[i].value)));
      }
    }
    assert failures[..|failures|] == failures;
    assert ref.namespace[0] == 't' && ref.deployment[|KubeName(app.slug)|] == '-';
    r := Ok(BackendStatus(Provisioning, "kubernetes resources applied, waiting for rollout", ref));
  }

  // ----- Deletion

  datatype ObjectKind = Ingress | Service | DeploymentObject | ConfigMap | Secret

  datatype Object = Object(kind: ObjectKind, namespace: string, name: string)

  /** The objects a deletion asks the cluster to remove: none without a reference; the configuration and
      the managed secret only once the deployment itself could be removed. */
  function Removals(ref: BackendRef, deploymentRemoved: bool): seq<Object> {
    if !Named(ref) then [] else
      [Object(Ingress, ref.namespace, ref.ingressName), Object(Service, ref.namespace, ref.service),
       Object(DeploymentObject, ref.namespace, ref.deployment)]
      + if !deploymentRemoved then [] else
          [Object(ConfigMap, ref.namespace, KubeName(ref.deployment) + "-config"),
           Object(Secret, ref.namespace, ManagedSecretName(ref.deployment))]
  }

  /** Deleting without a reference does nothing and succeeds; an object already gone is as good as
      deleted; only the answer about the deployment itself counts. */
  method Delete(ref: BackendRef, outcome: Result<()>, missing: bool) returns (r: Result<()>, removals: seq<Object>)
    ensures DeleteAnswers(ref, r)
    ensures r.Err? <==> Named(ref) && outcome.Err? && !missing
    ensures removals == Removals(ref, outcome.Ok?)
  {
    removals := [];
    if ref.namespace == "" || ref.deployment == "" {
      return Ok(()), removals;
    }
    removals := [Object(Ingress, ref.namespace, ref.ingressName), Object(Service, ref.namespace, ref.service),
                 Object(DeploymentObject, ref.namespace, ref.deployment)];
    if outcome.Err? {
      return if missing then Ok(()) else outcome, removals;
    }
    removals := removals + [Object(ConfigMap, ref.namespace, KubeName(ref.deployment) + "-config")]
                + [Object(Secret, ref.namespace, ManagedSecretName(ref.deployment))];
    return Ok(()), removals;
  }

  /** A deletion removes what a submission made, by name and in the tenant's namespace. */
  lemma DeletionUndoesSubmission(app: App, version: nat, public: bool)
    ensures var namespace, name := "tenant-" + KubeName(app.tenantId), KubeName(app.slug) + "-v" + Digits(version);
            Removals(SubmittedRef(app, version, public), true) ==
            [Object(Ingress, namespace, if public then KubeName(app.slug) else ""), Object(Service, namespace, name),
             Object(DeploymentObject, namespace, name), Object(ConfigMap, namespace, KubeName(name) + "-config"),
             Object(Secret, namespace, KubeName(name) + "-secrets")]
  {
    var ref := SubmittedRef(app, version, public);
    assert ref.namespace[0] == 't' && ref.deployment[|KubeName(app.slug)|] == '-';
  }

  /** Deleting one version of an app removes the managed secret of another exactly if the digits of their
      numbers that fit into its name agree. */
  lemma DeletingRemovesSecretOf(app: App, version: nat, version': nat, public: bool)
    ensures Object(Secret, NamespaceFor(app.tenantId), ManagedSecretName(ResourceName(app.slug, version'))) in
            Removals(SubmittedRef(app, version, public), true)
            <==> Clip(Digits(version), DigitsKept(app.slug)) == Clip(Digits(version'), DigitsKept(app.slug))
  {
    SecretNamesAgree(app.slug, version, version');
    var ref := SubmittedRef(app, version, public);
    assert ref.namespace[0] == 't' && ref.deployment[|KubeName(app.slug)|] == '-';
    OneSecretIsRemoved(ref, Object(Secret, ref.namespace, ManagedSecretName(ResourceName(app.slug, version'))));
  }

  lemma OneSecretIsRemoved(ref: BackendRef, o: Object)
    requires Named(ref) && o.kind == Secret
    ensures o in Removals(ref, true) <==> o == Object(Secret, ref.namespace, ManagedSecretName(ref.deployment))
  {
    var removals := Removals(ref, true);
    assert removals[4] == Object(Secret, ref.namespace, ManagedSecretName(ref.deployment));
    assert removals[0].kind != Secret && removals[1].kind != Secret && removals[2].kind != Secret
           && removals[3].kind != Secret;
  }
}
