/** Defaults for an app's reliability policy. */
module Policy {
  import opened Domain

  const DEFAULT_REPAIR_ATTEMPTS := 3
  const DEFAULT_HEALTH_TIMEOUT := 3
  const DEFAULT_PROVIDER_TIMEOUT := 20

  function NormalProvider(p: Provider, index: nat): Provider {
    p.(priority := if p.priority <= 0 then index + 1 else p.priority,
       timeoutSeconds := if p.timeoutSeconds <= 0 then DEFAULT_PROVIDER_TIMEOUT else p.timeoutSeconds)
  }

  function NormalProviders(ps: seq<Provider>): seq<Provider> {
    seq(|ps|, i requires 0 <= i < |ps| => NormalProvider(ps[i], i))
  }

  /** A policy that says nothing at all gets auto-repair switched on. */
  predicate Unset(p: ReliabilityPolicy) {
    !p.autoRepair && p.maxRepairAttempts == 0 && p.healthCheckPath == "" && p.fallbackProviders == []
  }

  /** How many repair rounds a policy allows, and whether it repairs at all. */
  function RepairLimitOf(p: ReliabilityPolicy): int {
    if p.maxRepairAttempts <= 0 then DEFAULT_REPAIR_ATTEMPTS else p.maxRepairAttempts
  }

  predicate RepairsOf(p: ReliabilityPolicy) {
    p.autoRepair || Unset(p)
  }

  function Normalize(p: ReliabilityPolicy): ReliabilityPolicy {
    p.(autoRepair := RepairsOf(p),
       maxRepairAttempts := RepairLimitOf(p),
       healthCheckTimeoutSeconds :=
         if p.healthCheckTimeoutSeconds <= 0 then DEFAULT_HEALTH_TIMEOUT else p.healthCheckTimeoutSeconds,
       fallbackProviders := NormalProviders(p.fallbackProviders))
  }

  /** Normalising again changes nothing, so the repair limit of a stored policy is the same
      however often it is normalised, and it is at least one. */
  lemma NormalizeIsIdempotent(p: ReliabilityPolicy)
    ensures Normalize(Normalize(p)) == Normalize(p)
    ensures RepairLimitOf(Normalize(p)) == RepairLimitOf(p) >= 1
    ensures RepairsOf(Normalize(p)) == RepairsOf(p)
  {
    var n := Normalize(p);
    assert NormalProviders(n.fallbackProviders) == n.fallbackProviders;
    assert !Unset(n);
  }

  /** A positive limit is the limit, and otherwise it is three. Auto-repair is on if it is switched on or if
      the policy says nothing at all: off, with anything else set, stays off. */
  lemma RepairPolicy(p: ReliabilityPolicy)
    ensures p.maxRepairAttempts > 0 ==> RepairLimitOf(p) == p.maxRepairAttempts
    ensures p.maxRepairAttempts <= 0 ==> RepairLimitOf(p) == 3
    ensures p.autoRepair ==> RepairsOf(p)
    ensures !p.autoRepair ==>
              (RepairsOf(p) <==> p.maxRepairAttempts == 0 && p.healthCheckPath == "" && |p.fallbackProviders| == 0)
  {
  }

  /** What is set stays; what is not gets its default: three seconds for the health check, the place in the list
      for a provider's priority and twenty seconds for its timeout. */
  lemma NormalizeFills(p: ReliabilityPolicy)
    ensures var n := Normalize(p);
            && n.autoRepair == RepairsOf(p) && n.maxRepairAttempts == RepairLimitOf(p)
            && n.healthCheckPath == p.healthCheckPath
            && n.rollbackOnFailedHealthCheck == p.rollbackOnFailedHealthCheck
            && n.healthCheckTimeoutSeconds > 0
            && n.healthCheckTimeoutSeconds in {p.healthCheckTimeoutSeconds, 3}
            && (p.healthCheckTimeoutSeconds > 0 ==> n.healthCheckTimeoutSeconds == p.healthCheckTimeoutSeconds)
            && |n.fallbackProviders| == |p.fallbackProviders|
            && forall i :: 0 <= i < |p.fallbackProviders| ==> Fills(p.fallbackProviders[i], i, n.fallbackProviders[i])
  {
  }

  predicate Fills(p: Provider, index: nat, n: Provider) {
    && n.name == p.name && n.model == p.model && n.baseUrl == p.baseUrl
    && n.priority > 0 && n.priority in {p.priority, index + 1} && (p.priority > 0 ==> n.priority == p.priority)
    && n.timeoutSeconds > 0 && n.timeoutSeconds in {p.timeoutSeconds, 20}
    && (p.timeoutSeconds > 0 ==> n.timeoutSeconds == p.timeoutSeconds)
  }

  /** The normalisation as it runs. The provider slice is shared with the caller and is filled
      in place; the other fields belong to the copy that is returned. */
  method NormalizeReliability(policy: ReliabilityPolicy, providers: array<Provider>)
    returns (r: ReliabilityPolicy)
    requires policy.fallbackProviders == providers[..]
    modifies providers
    ensures r == Normalize(policy)
    ensures providers[..] == NormalProviders(old(providers[..]))
  {
    r := policy;
    if !r.autoRepair && r.maxRepairAttempts == 0 && r.healthCheckPath == "" && providers.Length == 0 {
      r := r.(autoRepair := true);
    }
    if r.maxRepairAttempts <= 0 {
      r := r.(maxRepairAttempts := 3);
    }
    if r.healthCheckTimeoutSeconds <= 0 {
      r := r.(healthCheckTimeoutSeconds := 3);
    }
    for i := 0 to providers.Length
      invariant forall k :: 0 <= k < i ==> providers[k] == NormalProvider(policy.fallbackProviders[k], k)
      invariant forall k :: i <= k < providers.Length ==> providers[k] == policy.fallbackProviders[k]
    {
      if providers[i].priority <= 0 {
        providers[i] := providers[i].(priority := i + 1);
      }
      if providers[i].timeoutSeconds <= 0 {
        providers[i] := providers[i].(timeoutSeconds := 20);
      }
    }
    assert providers[..] == NormalProviders(policy.fallbackProviders);
    r := r.(fallbackProviders := providers[..]);
  }
}
