/** The container's environment and the Secret it refers to. They are put together by separate
    code from the same configuration; here is when they agree. */
module EnvAssembly {
  import opened Domain
  import opened Text

  const BIND := "OPENCLAW_GATEWAY_BIND_ADDRESS"
  const PORT := "OPENCLAW_GATEWAY_PORT"
  const TOKEN := "OPENCLAW_GATEWAY_TOKEN"
  const FALLBACKS := "CLAWFLUX_INFERENCE_FALLBACKS"

  datatype Source = Literal(value: string) | SecretRef(secret: string, key: string)

  datatype EnvVar = EnvVar(name: string, source: Source)

  predicate Blank(s: string) {
    Trim(s) == ""
  }

  // ----- Upserts

  function IndexOf(env: seq<EnvVar>, name: string): (i: int)
    ensures -1 <= i < |env|
    ensures i >= 0 ==> env[i].name == name
    ensures forall k :: 0 <= k < (if i < 0 then |env| else i) ==> env[k].name != name
  {
    if env == [] then -1 else
      var n := |env| - 1;
      var i := IndexOf(env[..n], name);
      if i >= 0 then i else if env[n].name == name then n else -1
  }

  /** Overwrites the first variable of that name in place, or appends a new one. */
  function Upsert(env: seq<EnvVar>, name: string, source: Source): seq<EnvVar> {
    var i := IndexOf(env, name);
    if i >= 0 then env[i := EnvVar(name, source)] else env + [EnvVar(name, source)]
  }

  predicate DistinctNames(env: seq<EnvVar>) {
    forall i, j :: 0 <= i < j < |env| ==> env[i].name != env[j].name
  }

  function Lookup(env: seq<EnvVar>, name: string): Option<Source> {
    var i := IndexOf(env, name);
    if i >= 0 then Some(env[i].source) else None
  }

  lemma LookupAt(env: seq<EnvVar>, i: nat)
    requires i < |env| && DistinctNames(env)
    ensures Lookup(env, env[i].name) == Some(env[i].source)
  {
    var k := IndexOf(env, env[i].name);
    assert k == i;
  }

  /** The variable is in its place, every other one where it was. */
  lemma UpsertPlaces(env: seq<EnvVar>, name: string, source: Source) returns (p: nat)
    requires DistinctNames(env)
    ensures var env' := Upsert(env, name, source);
            && p < |env'| && env'[p] == EnvVar(name, source) && |env| <= |env'| <= |env| + 1
            && (forall k :: 0 <= k < |env| && k != p ==> env'[k] == env[k] && env[k].name != name)
            && (|env'| == |env| + 1 ==> p == |env|)
  {
    p := if IndexOf(env, name) >= 0 then IndexOf(env, name) else |env|;
  }

  lemma UpsertIsDistinct(env: seq<EnvVar>, name: string, source: Source)
    requires DistinctNames(env)
    ensures DistinctNames(Upsert(env, name, source))
  {
    var p := UpsertPlaces(env, name, source);
  }

  lemma UpsertLookup(env: seq<EnvVar>, name: string, source: Source, other: string)
    requires DistinctNames(env)
    ensures DistinctNames(Upsert(env, name, source))
    ensures Lookup(Upsert(env, name, source), other) == if other == name then Some(source) else Lookup(env, other)
  {
    var env' := Upsert(env, name, source);
    UpsertIsDistinct(env, name, source);
    var p := UpsertPlaces(env, name, source);
    var i := IndexOf(env, other);
    if other == name {
      LookupAt(env', p);
    } else if i >= 0 {
      assert i != p;
      LookupAt(env', i);
    } else {
      assert forall k :: 0 <= k < |env'| ==> env'[k].name != other;
    }
  }

  /** Upserts for the keys in order, skipping those the plan leaves out. */
  function UpsertKeys(env: seq<EnvVar>, keys: seq<string>, plan: map<string, Source>): seq<EnvVar> {
    if keys == [] then env else
      var n := |keys| - 1;
      var e := UpsertKeys(env, keys[..n], plan);
      if keys[n] in plan then Upsert(e, keys[n], plan[keys[n]]) else e
  }

  lemma UpsertKeyLookup(env: seq<EnvVar>, key: string, plan: map<string, Source>, env': seq<EnvVar>, other: string)
    requires DistinctNames(env) && env' == if key in plan then Upsert(env, key, plan[key]) else env
    ensures DistinctNames(env')
    ensures Lookup(env', other) == if other == key && other in plan then Some(plan[other]) else Lookup(env, other)
  {
    if key in plan {
      UpsertLookup(env, key, plan[key], other);
    }
  }

  lemma {:induction false} UpsertKeysLookup(env: seq<EnvVar>, keys: seq<string>, plan: map<string, Source>,
                                            other: string)
    requires DistinctNames(env)
    ensures DistinctNames(UpsertKeys(env, keys, plan))
    ensures Lookup(UpsertKeys(env, keys, plan), other) ==
            if other in keys && other in plan then Some(plan[other]) else Lookup(env, other)
  {
    if keys != [] {
      var n := |keys| - 1;
      UpsertKeysLookup(env, keys[..n], plan, other);
      assert keys == keys[..n] + [keys[n]];
      UpsertKeyLookup(UpsertKeys(env, keys[..n], plan), keys[n], plan, UpsertKeys(env, keys, plan), other);
    }
  }

  // ----- The environment

  function LiteralPlan(values: map<string, string>): map<string, Source> {
    map k | k in values && !Blank(k) :: Literal(values[k])
  }

  /** The secret the references point into: the named one, or the managed one. */
  function SecretUsed(oc: OpenClawConfig, managed: string): string {
    if Blank(oc.existingSecretName) then managed else Trim(oc.existingSecretName)
  }

  function ProviderPlan(oc: OpenClawConfig, managed: string): map<string, Source> {
    map k | k in oc.providerApiKeys && !Blank(k)
            && !(SecretUsed(oc, managed) == managed && Blank(oc.providerApiKeys[k]))
         :: SecretRef(SecretUsed(oc, managed), k)
  }

  predicate RefersToToken(oc: OpenClawConfig) {
    !Blank(oc.gatewayToken) || oc.existingSecretName != ""
  }

  ghost function Gateway(env: seq<EnvVar>, oc: OpenClawConfig, managed: string): seq<EnvVar> {
    var e1 := if !Blank(oc.gatewayBindAddress) then Upsert(env, BIND, Literal(Trim(oc.gatewayBindAddress))) else env;
    var e2 := if oc.gatewayPort > 0 then Upsert(e1, PORT, Literal(Digits(oc.gatewayPort))) else e1;
    if RefersToToken(oc) then Upsert(e2, TOKEN, SecretRef(SecretUsed(oc, managed), TOKEN)) else e2
  }

  /** The runtime settings, in the order they are upserted. `fallbacks` is the rendered provider
      list, if there is one. */
  ghost function Runtime(env: seq<EnvVar>, oc: OpenClawConfig, managed: string, fallbacks: Option<string>)
    : seq<EnvVar>
  {
    var e3 := Gateway(env, oc, managed);
    var e4 := UpsertKeys(e3, Sorted(oc.providerApiKeys.Keys), ProviderPlan(oc, managed));
    var e5 := UpsertKeys(e4, Sorted(oc.extraEnv.Keys), LiteralPlan(oc.extraEnv));
    if fallbacks.Some? then Upsert(e5, FALLBACKS, Literal(fallbacks.value)) else e5
  }

  ghost function Assembled(values: map<string, string>, openClaw: Option<OpenClawConfig>, managed: string,
                           fallbacks: Option<string>): seq<EnvVar> {
    var env := UpsertKeys([], Sorted(values.Keys), LiteralPlan(values));
    if openClaw.Some? && openClaw.value.enabled then Runtime(env, openClaw.value, managed, fallbacks) else env
  }

  /** What a variable must be, by who has the last word: the fallback list, the extra variables,
      the provider keys and the gateway settings if the runtime is on, and the app's own variables. */
  function Expected(values: map<string, string>, openClaw: Option<OpenClawConfig>, managed: string,
                    fallbacks: Option<string>, name: string): Option<Source> {
    var own := if name in values && Trim(name) != "" then Some(Literal(values[name])) else None;
    if openClaw.Some? && openClaw.value.enabled
    then ExpectedRuntime(openClaw.value, managed, fallbacks, name, own) else own
  }

  function ExpectedRuntime(oc: OpenClawConfig, managed: string, fallbacks: Option<string>, name: string,
                           own: Option<Source>): Option<Source> {
    var secret := if Trim(oc.existingSecretName) != "" then Trim(oc.existingSecretName) else managed;
    if fallbacks.Some? && name == "CLAWFLUX_INFERENCE_FALLBACKS" then Some(Literal(fallbacks.value))
    else if name in oc.extraEnv && Trim(name) != "" then Some(Literal(oc.extraEnv[name]))
    else if name in oc.providerApiKeys && Trim(name) != ""
            && (Trim(oc.providerApiKeys[name]) != "" || secret != managed)
    then Some(SecretRef(secret, name))
    else if name == "OPENCLAW_GATEWAY_TOKEN" && (Trim(oc.gatewayToken) != "" || oc.existingSecretName != "")
    then Some(SecretRef(secret, name))
    else if name == "OPENCLAW_GATEWAY_PORT" && oc.gatewayPort > 0 then Some(Literal(Digits(oc.gatewayPort)))
    else if name == "OPENCLAW_GATEWAY_BIND_ADDRESS" && Trim(oc.gatewayBindAddress) != ""
    then Some(Literal(Trim(oc.gatewayBindAddress)))
    else own
  }

  lemma GatewayLookup(env: seq<EnvVar>, oc: OpenClawConfig, managed: string, name: string)
    requires DistinctNames(env)
    ensures DistinctNames(Gateway(env, oc, managed))
    ensures Lookup(Gateway(env, oc, managed), name) ==
            if name == TOKEN && RefersToToken(oc) then Some(SecretRef(SecretUsed(oc, managed), TOKEN))
            else if name == PORT && oc.gatewayPort > 0 then Some(Literal(Digits(oc.gatewayPort)))
            else if name == BIND && !Blank(oc.gatewayBindAddress) then Some(Literal(Trim(oc.gatewayBindAddress)))
            else Lookup(env, name)
  {
    var bind, port := Literal(Trim(oc.gatewayBindAddress)), oc.gatewayPort;
    var ref := SecretRef(SecretUsed(oc, managed), TOKEN);
    UpsertLookup(env, BIND, bind, name);
    var e1 := if !Blank(oc.gatewayBindAddress) then Upsert(env, BIND, bind) else env;
    if port > 0 {
      UpsertLookup(e1, PORT, Literal(Digits(port)), name);
    }
    var e2 := if port > 0 then Upsert(e1, PORT, Literal(Digits(port))) else e1;
    UpsertLookup(e2, TOKEN, ref, name);
  }

  lemma ExpectedIs(oc: OpenClawConfig, managed: string, fallbacks: Option<string>, name: string, own: Option<Source>)
    ensures ExpectedRuntime(oc, managed, fallbacks, name, own) ==
            if fallbacks.Some? && name == FALLBACKS then Some(Literal(fallbacks.value))
            else if name in oc.extraEnv && !Blank(name) then Some(Literal(oc.extraEnv[name]))
            else if name in ProviderPlan(oc, managed) then Some(SecretRef(SecretUsed(oc, managed), name))
            else if name == TOKEN && RefersToToken(oc) then Some(SecretRef(SecretUsed(oc, managed), TOKEN))
            else if name == PORT && oc.gatewayPort > 0 then Some(Literal(Digits(oc.gatewayPort)))
            else if name == BIND && !Blank(oc.gatewayBindAddress) then Some(Literal(Trim(oc.gatewayBindAddress)))
            else own
  {
  }

  lemma ProviderLookup(env: seq<EnvVar>, oc: OpenClawConfig, managed: string, fallbacks: Option<string>, name: string)
    requires DistinctNames(Gateway(env, oc, managed))
    ensures DistinctNames(Runtime(env, oc, managed, fallbacks))
    ensures Lookup(Runtime(env, oc, managed, fallbacks), name) ==
            if fallbacks.Some? && name == FALLBACKS then Some(Literal(fallbacks.value))
            else if name in oc.extraEnv && !Blank(name) then Some(Literal(oc.extraEnv[name]))
            else if name in ProviderPlan(oc, managed) then Some(SecretRef(SecretUsed(oc, managed), name))
            else Lookup(Gateway(env, oc, managed), name)
  {
    var e3 := Gateway(env, oc, managed);
    UpsertKeysLookup(e3, Sorted(oc.providerApiKeys.Keys), ProviderPlan(oc, managed), name);
    var e4 := UpsertKeys(e3, Sorted(oc.providerApiKeys.Keys), ProviderPlan(oc, managed));
    UpsertKeysLookup(e4, Sorted(oc.extraEnv.Keys), LiteralPlan(oc.extraEnv), name);
    var e5 := UpsertKeys(e4, Sorted(oc.extraEnv.Keys), LiteralPlan(oc.extraEnv));
    if fallbacks.Some? {
      UpsertLookup(e5, FALLBACKS, Literal(fallbacks.value), name);
    }
  }

  /** With the runtime on, whatever was there before. */
  lemma RuntimeLookup(env: seq<EnvVar>, oc: OpenClawConfig, managed: string, fallbacks: Option<string>, name: string)
    requires DistinctNames(env)
    ensures DistinctNames(Runtime(env, oc, managed, fallbacks))
    ensures Lookup(Runtime(env, oc, managed, fallbacks), name) ==
            ExpectedRuntime(oc, managed, fallbacks, name, Lookup(env, name))
  {
    GatewayLookup(env, oc, managed, name);
    ProviderLookup(env, oc, managed, fallbacks, name);
    ExpectedIs(oc, managed, fallbacks, name, Lookup(env, name));
  }

  /** Every variable is what it must be, given what it was. */
  ghost predicate Configured(env: seq<EnvVar>, env': seq<EnvVar>, oc: OpenClawConfig, managed: string,
                             fallbacks: Option<string>) {
    DistinctNames(env) ==>
      && DistinctNames(env')
      && forall name :: Lookup(env', name) == ExpectedRuntime(oc, managed, fallbacks, name, Lookup(env, name))
  }

  lemma RuntimeConfigures(env: seq<EnvVar>, oc: OpenClawConfig, managed: string, fallbacks: Option<string>)
    ensures Configured(env, Runtime(env, oc, managed, fallbacks), oc, managed, fallbacks)
  {
    var env' := Runtime(env, oc, managed, fallbacks);
    if DistinctNames(env) {
      RuntimeLookup(env, oc, managed, fallbacks, "");
      forall name
        ensures Lookup(env', name) == ExpectedRuntime(oc, managed, fallbacks, name, Lookup(env, name))
      {
        RuntimeLookup(env, oc, managed, fallbacks, name);
      }
    }
  }

  /** Names are pairwise distinct, and each variable is what it must be. */
  lemma AssembledLookup(values: map<string, string>, openClaw: Option<OpenClawConfig>, managed: string,
                        fallbacks: Option<string>, name: string)
    ensures var env := Assembled(values, openClaw, managed, fallbacks);
            DistinctNames(env) && Lookup(env, name) == Expected(values, openClaw, managed, fallbacks, name)
  {
    var env := UpsertKeys([], Sorted(values.Keys), LiteralPlan(values));
    UpsertKeysLookup([], Sorted(values.Keys), LiteralPlan(values), name);
    if openClaw.Some? && openClaw.value.enabled {
      RuntimeLookup(env, openClaw.value, managed, fallbacks, name);
    }
  }

  // ----- The secret

  /** The provider entry ends up in the managed secret. */
  predicate Provides(oc: OpenClawConfig, k: string) {
    k in oc.providerApiKeys && !Blank(k) && !Blank(oc.providerApiKeys[k])
  }

  /** The keys of the managed secret; none if the configuration names a secret of its own. */
  ghost function SecretKeys(oc: OpenClawConfig): iset<string> {
    if oc.existingSecretName != "" then iset{} else
      (iset k | Provides(oc, k) :: Trim(k)) + if Blank(oc.gatewayToken) then iset{} else iset{TOKEN}
  }

  // ----- Agreement

  /** Every reference into the managed secret names one of its keys. */
  ghost predicate Agrees(env: seq<EnvVar>, oc: OpenClawConfig, managed: string) {
    forall v :: v in env && v.source.SecretRef? && v.source.secret == managed ==> v.source.key in SecretKeys(oc)
  }

  /** A variable that a later upsert turns into a literal. */
  predicate Overridden(oc: OpenClawConfig, fallbacks: Option<string>, name: string) {
    (fallbacks.Some? && name == FALLBACKS) || (name in oc.extraEnv && Trim(name) != "")
  }

  /** A reference into the managed secret that is still there at the end. */
  predicate Survives(oc: OpenClawConfig, fallbacks: Option<string>, name: string) {
    && oc.enabled && !Overridden(oc, fallbacks, name)
    && ((name == TOKEN && RefersToToken(oc)) || Provides(oc, name))
  }

  /** When the references fit the secret. With the runtime off there are none, and a configuration
      that names another secret is not about the managed one. Otherwise, without an existing secret
      name no provider key left may have surrounding white space; and with one that is blank (or is the
      managed name), which keeps the managed secret from being written, neither the token nor a provider
      key may be left. */
  ghost predicate Fits(oc: OpenClawConfig, managed: string, fallbacks: Option<string>) {
    || !oc.enabled
    || (Trim(oc.existingSecretName) != "" && Trim(oc.existingSecretName) != managed)
    || (if oc.existingSecretName == ""
        then forall k :: Provides(oc, k) && !Overridden(oc, fallbacks, k) ==> Trim(k) == k
        else
          && Overridden(oc, fallbacks, TOKEN)
          && forall k :: Provides(oc, k) ==> Overridden(oc, fallbacks, k))
  }

  lemma TrimmedKeysAreProvided(oc: OpenClawConfig, k: string)
    requires Provides(oc, k) && oc.existingSecretName == ""
    ensures k in SecretKeys(oc) <==> Trim(k) == k
  {
    if k in SecretKeys(oc) && k != TOKEN {
      var other :| Provides(oc, other) && Trim(other) == k;
      TrimIsIdempotent(other);
    }
    assert k == TOKEN ==> Trim(k) == k by {
      assert !Space(TOKEN[0]) && !Space(TOKEN[|TOKEN| - 1]);
    }
  }

  lemma InByLookup(env: seq<EnvVar>, v: EnvVar)
    requires DistinctNames(env)
    ensures v in env <==> Lookup(env, v.name) == Some(v.source)
  {
    if v in env {
      var i :| 0 <= i < |env| && env[i] == v;
      LookupAt(env, i);
    }
  }

  /** Which variables are references, and what they refer to: the token if there is one or a secret is
      named, and the provider keys with a value or, in a secret of the configuration's own, all of them;
      unless an extra variable or the fallback list overwrites them. */
  lemma ReferencesAre(values: map<string, string>, oc: OpenClawConfig, managed: string, fallbacks: Option<string>,
                      v: EnvVar)
    requires v.source.SecretRef?
    ensures v in Assembled(values, Some(oc), managed, fallbacks) <==>
            && oc.enabled && v.source.key == v.name
            && v.source.secret == (if Trim(oc.existingSecretName) != "" then Trim(oc.existingSecretName) else managed)
            && !(fallbacks.Some? && v.name == "CLAWFLUX_INFERENCE_FALLBACKS")
            && !(v.name in oc.extraEnv && Trim(v.name) != "")
            && (|| (&& v.name == "OPENCLAW_GATEWAY_TOKEN"
                    && (Trim(oc.gatewayToken) != "" || oc.existingSecretName != ""))
                || (&& v.name in oc.providerApiKeys && Trim(v.name) != ""
                    && (Trim(oc.providerApiKeys[v.name]) != "" || v.source.secret != managed)))
  {
    AssembledLookup(values, Some(oc), managed, fallbacks, v.name);
    InByLookup(Assembled(values, Some(oc), managed, fallbacks), v);
  }

  /** All references point into one secret: the one the configuration names, and if it names none the managed
      one. */
  lemma OneSecretIsUsed(values: map<string, string>, oc: OpenClawConfig, managed: string, fallbacks: Option<string>)
    ensures var env := Assembled(values, Some(oc), managed, fallbacks);
            && (Trim(oc.existingSecretName) != "" ==>
                  forall v :: v in env && v.source.SecretRef? ==> v.source.secret == Trim(oc.existingSecretName))
            && (oc.existingSecretName == "" ==>
                  forall v :: v in env && v.source.SecretRef? ==> v.source.secret == managed)
            && (Trim(oc.existingSecretName) == "" ==>
                  forall v :: v in env && v.source.SecretRef? ==> v.source.secret == managed)
  {
    var env := Assembled(values, Some(oc), managed, fallbacks);
    forall v | v in env && v.source.SecretRef?
      ensures v.source.secret ==
              if Trim(oc.existingSecretName) != "" then Trim(oc.existingSecretName) else managed
    {
      ReferencesAre(values, oc, managed, fallbacks, v);
    }
    assert Trim("") == "";
  }

  /** A configuration with a secret of its own never refers to the managed one. */
  lemma OwnSecretAgrees(values: map<string, string>, oc: OpenClawConfig, managed: string, fallbacks: Option<string>)
    requires Trim(oc.existingSecretName) != "" && Trim(oc.existingSecretName) != managed
    ensures Agrees(Assembled(values, Some(oc), managed, fallbacks), oc, managed)
  {
    OneSecretIsUsed(values, oc, managed, fallbacks);
  }

  lemma ReferencesSurvive(values: map<string, string>, oc: OpenClawConfig, managed: string, fallbacks: Option<string>,
                          v: EnvVar)
    requires Trim(oc.existingSecretName) == "" || Trim(oc.existingSecretName) == managed
    ensures v in Assembled(values, Some(oc), managed, fallbacks) && v.source.SecretRef? <==>
            Survives(oc, fallbacks, v.name) && v.source == SecretRef(managed, v.name)
  {
    if v.source.SecretRef? {
      ReferencesAre(values, oc, managed, fallbacks, v);
    }
  }

  lemma AgreesBySurvivors(values: map<string, string>, oc: OpenClawConfig, managed: string, fallbacks: Option<string>)
    requires Trim(oc.existingSecretName) == "" || Trim(oc.existingSecretName) == managed
    ensures Agrees(Assembled(values, Some(oc), managed, fallbacks), oc, managed) <==>
            forall k :: Survives(oc, fallbacks, k) ==> k in SecretKeys(oc)
  {
    var env := Assembled(values, Some(oc), managed, fallbacks);
    forall v | v in env && v.source.SecretRef?
      ensures Survives(oc, fallbacks, v.name) && v.source == SecretRef(managed, v.name)
    {
      ReferencesSurvive(values, oc, managed, fallbacks, v);
    }
    forall k | Survives(oc, fallbacks, k)
      ensures EnvVar(k, SecretRef(managed, k)) in env
    {
      ReferencesSurvive(values, oc, managed, fallbacks, EnvVar(k, SecretRef(managed, k)));
    }
    if Agrees(env, oc, managed) {
      forall k | Survives(oc, fallbacks, k)
        ensures k in SecretKeys(oc)
      {
        var v := EnvVar(k, SecretRef(managed, k));
        assert v in env && v.source.SecretRef?;
      }
    }
  }

  lemma SurvivorsFit(oc: OpenClawConfig, managed: string, fallbacks: Option<string>)
    requires Trim(oc.existingSecretName) == "" || Trim(oc.existingSecretName) == managed
    ensures Fits(oc, managed, fallbacks) <==> forall k :: Survives(oc, fallbacks, k) ==> k in SecretKeys(oc)
  {
    if oc.existingSecretName == "" {
      forall k | Provides(oc, k)
        ensures k in SecretKeys(oc) <==> Trim(k) == k
      {
        TrimmedKeysAreProvided(oc, k);
      }
    } else if oc.enabled {
      assert Survives(oc, fallbacks, TOKEN) <==> !Overridden(oc, fallbacks, TOKEN);
      assert forall k :: Provides(oc, k) ==> (Survives(oc, fallbacks, k) <==> !Overridden(oc, fallbacks, k));
    }
  }

  /** The environment agrees with the managed secret exactly if the configuration fits. */
  lemma EnvAgreesWithSecret(values: map<string, string>, oc: OpenClawConfig, managed: string, fallbacks: Option<string>)
    ensures Agrees(Assembled(values, Some(oc), managed, fallbacks), oc, managed) <==> Fits(oc, managed, fallbacks)
  {
    if Trim(oc.existingSecretName) == "" || Trim(oc.existingSecretName) == managed {
      AgreesBySurvivors(values, oc, managed, fallbacks);
      SurvivorsFit(oc, managed, fallbacks);
    } else {
      OwnSecretAgrees(values, oc, managed, fallbacks);
    }
  }

  // ----- Where they do not

  /** The key " KEY" of a provider is referred to under that name but stored as "KEY". */
  lemma PaddedKeyDangles()
    ensures var oc := OpenClawConfig(true, "", 0, "", map[" KEY" := "x"], map[], "");
            !Agrees(Assembled(map[], Some(oc), "m", None), oc, "m")
  {
    var oc := OpenClawConfig(true, "", 0, "", map[" KEY" := "x"], map[], "");
    PaddedKey();
    assert Trim("x") == "x";
    assert Provides(oc, " KEY") && !Overridden(oc, None, " KEY");
    EnvAgreesWithSecret(map[], oc, "m", None);
  }

  lemma PaddedKey()
    ensures Trim(" KEY") == "KEY" != " KEY"
  {
    assert " KEY"[1..] == "KEY";
    assert TrimStart(" KEY") == TrimStart("KEY") == "KEY";
  }

  /** A blank secret name keeps the managed secret from being written, and yet the token is
      looked up in it. */
  lemma BlankNameDangles()
    ensures var oc := OpenClawConfig(true, "", 0, "t", map[], map[], " ");
            !Agrees(Assembled(map[], Some(oc), "m", None), oc, "m")
  {
    var oc := OpenClawConfig(true, "", 0, "t", map[], map[], " ");
    assert " "[1..] == "" && Blank(" ");
    assert !Overridden(oc, None, TOKEN);
    EnvAgreesWithSecret(map[], oc, "m", None);
  }
}
