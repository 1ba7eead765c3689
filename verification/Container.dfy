/** The environment and the secret data as the backend builds them: upserts into a list, and loops
    over maps whose order nobody controls. */
module Container {
  import opened Domain
  import opened Text
  import opened EnvAssembly

  class Container {
    var env: seq<EnvVar>

    constructor ()
      ensures env == []
    {
      env := [];
    }

    method Upsert(name: string, source: Source)
      modifies this
      ensures env == EnvAssembly.Upsert(old(env), name, source)
    {
      for i := 0 to |env|
        invariant unchanged(this)
        invariant forall k :: 0 <= k < i ==> env[k].name != name
      {
        if env[i].name == name {
          env := env[i := EnvVar(name, source)];
          return;
        }
      }
      env := env + [EnvVar(name, source)];
    }

    method UpsertLiteral(name: string, value: string)
      modifies this
      ensures env == EnvAssembly.Upsert(old(env), name, Literal(value))
    {
      Upsert(name, Literal(value));
    }

    method UpsertSecret(name: string, secret: string, key: string)
      modifies this
      ensures env == EnvAssembly.Upsert(old(env), name, SecretRef(secret, key))
    {
      Upsert(name, SecretRef(secret, key));
    }

    method AppendSorted(values: map<string, string>)
      modifies this
      ensures env == UpsertKeys(old(env), Sorted(values.Keys), LiteralPlan(values))
    {
      var keys := SortedKeys(values);
      for i := 0 to |keys|
        invariant env == UpsertKeys(old(env), keys[..i], LiteralPlan(values))
      {
        assert keys[..i + 1][..i] == keys[..i] && keys[i] in keys;
        if Trim(keys[i]) == "" {
          continue;
        }
        UpsertLiteral(keys[i], values[keys[i]]);
      }
      assert keys[..|keys|] == keys;
    }

    method AppendProviders(oc: OpenClawConfig, secretName: string, managed: string)
      requires secretName == SecretUsed(oc, managed)
      modifies this
      ensures env == UpsertKeys(old(env), Sorted(oc.providerApiKeys.Keys), ProviderPlan(oc, managed))
    {
      var keys := SortedKeys(oc.providerApiKeys);
      for i := 0 to |keys|
        invariant env == UpsertKeys(old(env), keys[..i], ProviderPlan(oc, managed))
      {
        assert keys[..i + 1][..i] == keys[..i] && keys[i] in keys;
        if Trim(keys[i]) == "" {
          continue;
        }
        if secretName == managed && Trim(oc.providerApiKeys[keys[i]]) == "" {
          continue;
        }
        UpsertSecret(keys[i], secretName, keys[i]);
      }
      assert keys[..|keys|] == keys;
    }

    method ConfigureRuntime(oc: OpenClawConfig, managed: string, fallbacks: Option<string>)
      modifies this
      ensures env == Runtime(old(env), oc, managed, fallbacks)
      ensures Configured(old(env), env, oc, managed, fallbacks)
    {
      RuntimeConfigures(env, oc, managed, fallbacks);
      if Trim(oc.gatewayBindAddress) != "" {
        UpsertLiteral(BIND, Trim(oc.gatewayBindAddress));
      }
      if oc.gatewayPort > 0 {
        UpsertLiteral(PORT, Digits(oc.gatewayPort));
      }
      var secretName := Trim(oc.existingSecretName);
      if secretName == "" {
        secretName := managed;
      }
      if Trim(oc.gatewayToken) != "" || oc.existingSecretName != "" {
        UpsertSecret(TOKEN, secretName, TOKEN);
      }
      assert env == Gateway(old(env), oc, managed);
      AppendProviders(oc, secretName, managed);
      AppendSorted(oc.extraEnv);
      if fallbacks.Some? {
        UpsertLiteral(FALLBACKS, fallbacks.value);
      }
    }

    /** The whole environment of a deployment's container. */
    method Assemble(values: map<string, string>, openClaw: Option<OpenClawConfig>, managed: string,
                    fallbacks: Option<string>)
      requires env == []
      modifies this
      ensures env == Assembled(values, openClaw, managed, fallbacks) && DistinctNames(env)
      ensures forall name :: Lookup(env, name) == Expected(values, openClaw, managed, fallbacks, name)
    {
      forall name { AssembledLookup(values, openClaw, managed, fallbacks, name); }
      AppendSorted(values);
      if openClaw.Some? && openClaw.value.enabled {
        ConfigureRuntime(openClaw.value, managed, fallbacks);
      }
    }
  }

  /** The entry counts and has been met already. */
  predicate Met(oc: OpenClawConfig, rest: set<string>, k: string) {
    Provides(oc, k) && k !in rest
  }

  /** The key is in the secret exactly if it should be, and holds what it may: the trimmed value of
      a provider entry with that trimmed key, or the trimmed token if no such entry claims it. */
  ghost predicate KeyOk(oc: OpenClawConfig, rest: set<string>, data: map<string, string>, key: string) {
    if exists k :: Met(oc, rest, k) && Trim(k) == key then
      key in data && exists k :: Met(oc, rest, k) && Trim(k) == key && data[key] == Trim(oc.providerApiKeys[k])
    else if key == TOKEN && !Blank(oc.gatewayToken) then
      key in data && data[key] == Trim(oc.gatewayToken)
    else
      key !in data
  }

  lemma SkippedKey(oc: OpenClawConfig, rest: set<string>, k: string, data: map<string, string>, key: string)
    requires KeyOk(oc, rest, data, key) && !Provides(oc, k)
    ensures KeyOk(oc, rest - {k}, data, key)
  {
    assert forall x :: Met(oc, rest - {k}, x) <==> Met(oc, rest, x);
  }

  lemma FilledKey(oc: OpenClawConfig, rest: set<string>, k: string, data: map<string, string>,
                  rest': set<string>, data': map<string, string>, key: string)
    requires KeyOk(oc, rest, data, key) && Provides(oc, k) && k in rest
    requires rest' == rest - {k} && data' == data[Trim(k) := Trim(oc.providerApiKeys[k])]
    ensures KeyOk(oc, rest', data', key)
  {
    assert Met(oc, rest', k);
    assert forall x :: Met(oc, rest', x) <==> Met(oc, rest, x) || x == k;
  }

  /** The data of the managed secret: none if the configuration names a secret. Whatever order the
      map gives its entries in, the keys are those the references are checked against. */
  method SecretData(oc: OpenClawConfig) returns (data: map<string, string>)
    ensures forall key :: key in data <==> key in SecretKeys(oc)
    ensures oc.existingSecretName == "" ==> forall key :: KeyOk(oc, {}, data, key)
  {
    data := map[];
    if oc.existingSecretName != "" {
      return;
    }
    if Trim(oc.gatewayToken) != "" {
      data := data[TOKEN := Trim(oc.gatewayToken)];
    }
    var rest := oc.providerApiKeys.Keys;
    while rest != {}
      invariant rest <= oc.providerApiKeys.Keys
      invariant forall key :: KeyOk(oc, rest, data, key)
      decreases |rest|
    {
      var k :| k in rest;
      ghost var before, was := rest, data;
      rest := rest - {k};
      var key := Trim(k);
      if key == "" || Trim(oc.providerApiKeys[k]) == "" {
        forall x { SkippedKey(oc, before, k, was, x); }
        continue;
      }
      data := data[key := Trim(oc.providerApiKeys[k])];
      forall x { FilledKey(oc, before, k, was, rest, data, x); }
    }
    forall x { AllKeys(oc, data, x); }
  }

  lemma AllKeys(oc: OpenClawConfig, data: map<string, string>, key: string)
    requires oc.existingSecretName == "" && KeyOk(oc, {}, data, key)
    ensures key in data <==> key in SecretKeys(oc)
  {
    assert forall k :: Met(oc, {}, k) <==> Provides(oc, k);
  }
}
