/** Names of backend objects. */
module Naming {
  import opened Lifecycle
  import opened Resp
  import opened StoreInvariants
  import opened Text
  import opened WorldInvariants
  import Versions
  import P = WorkerProtocol

  const NAME_LIMIT := 40

  // ----- Kubernetes names

  function KubeChar(c: char): char {
    if c == '_' || c == '.' then '-' else if 'A' <= c <= 'Z' then (c as int + 32) as char else c
  }

  function KubeChars(s: string): string {
    seq(|s|, i requires 0 <= i < |s| => KubeChar(s[i]))
  }

  function Clip(s: string, n: nat): string {
    if |s| > n then s[..n] else s
  }

  function StripLeft(s: string): string {
    if s != [] && s[0] == '-' then StripLeft(s[1..]) else s
  }

  function StripRight(s: string): string {
    if s != [] && s[|s| - 1] == '-' then StripRight(s[..|s| - 1]) else s
  }

  function KubeName(s: string): string {
    StripRight(StripLeft(Clip(KubeChars(s), NAME_LIMIT)))
  }

  function ResourceName(slug: string, version: nat): string {
    KubeName(slug) + "-v" + Digits(version)
  }

  function ManagedSecretName(deploymentName: string): string {
    KubeName(deploymentName) + "-secrets"
  }

  // ----- Resource names are as distinct as slug and version

  predicate AllDecimal(s: string) {
    forall i :: 0 <= i < |s| ==> '0' <= s[i] <= '9'
  }

  /** A name splits into the part before "-v" and the digits after it in one way only. */
  lemma SplitIsUnique(s: string, d: string, t: string, e: string)
    requires AllDecimal(d) && AllDecimal(e) && s + "-v" + d == t + "-v" + e
    ensures s == t && d == e
  {
    var n, m := s + "-v" + d, t + "-v" + e;
    assert n[|s| + 1] == 'v' && m[|t| + 1] == 'v';
    assert forall i :: |s| + 2 <= i < |n| ==> n[i] == d[i - |s| - 2];
    assert forall i :: |t| + 2 <= i < |m| ==> m[i] == e[i - |t| - 2];
    if |s| == |t| {
      assert s == n[..|s|] == m[..|t|] == t;
      assert d == n[|s| + 2..] == m[|t| + 2..] == e;
    }
  }

  lemma ResourceNamesAgree(slug: string, version: nat, slug': string, version': nat)
    ensures ResourceName(slug, version) == ResourceName(slug', version')
            <==> KubeName(slug) == KubeName(slug') && version == version'
  {
    if ResourceName(slug, version) == ResourceName(slug', version') {
      SplitIsUnique(KubeName(slug), Digits(version), KubeName(slug'), Digits(version'));
      DigitsInjective(version, version');
    }
  }

  /** Slugs that differ need not give different names. */
  lemma SlugsCanCollide()
    ensures "a_b" != "a-b" && ResourceName("a_b", 1) == ResourceName("a-b", 1)
  {
    assert KubeChars("a_b") == KubeChars("a-b");
  }

  /** In every world of every run, two deployments of one app have different backend names. */
  lemma BackendNamesDiffer(c: P.Config, worlds: seq<World>, moves: seq<Move>, i: nat, a: string, b: string)
    requires IsRun(c, worlds, moves) && i < |worlds|
    requires a in worlds[i].store.deployments && b in worlds[i].store.deployments && a != b
    requires worlds[i].store.deployments[a].appId == worlds[i].store.deployments[b].appId
    ensures var st := worlds[i].store;
            var d, e := st.deployments[a], st.deployments[b];
            && d.appId in st.apps && d.version >= 0 && e.version >= 0
            && ResourceName(st.apps[d.appId].slug, d.version) != ResourceName(st.apps[e.appId].slug, e.version)
  {
    InvHolds(c, worlds, moves, i);
    var st := worlds[i].store;
    var d, e := st.deployments[a], st.deployments[b];
    assert DeploymentOk(st, d);
    Versions.VersionsAreDistinct(c, worlds, moves, i, a, b);
    Versions.VersionsAreDistinct(c, worlds, moves, i, b, a);
    ResourceNamesAgree(st.apps[d.appId].slug, d.version, st.apps[e.appId].slug, e.version);
  }

  // ----- Managed secret names are not

  predicate Plain(s: string) {
    forall i :: 0 <= i < |s| ==> KubeChar(s[i]) == s[i]
  }

  lemma {:induction false} StripLeftKeeps(s: string)
    requires Plain(s)
    ensures Plain(StripLeft(s)) && |StripLeft(s)| <= |s|
    ensures StripLeft(s) == [] || StripLeft(s)[0] != '-'
  {
    if s != [] && s[0] == '-' {
      StripLeftKeeps(s[1..]);
    }
  }

  lemma {:induction false} StripRightKeeps(s: string)
    requires Plain(s) && (s == [] || s[0] != '-')
    ensures Plain(StripRight(s)) && |StripRight(s)| <= |s|
    ensures StripRight(s) == [] || (StripRight(s)[0] != '-' && StripRight(s)[|StripRight(s)| - 1] != '-')
  {
    if s != [] && s[|s| - 1] == '-' {
      StripRightKeeps(s[..|s| - 1]);
    }
  }

  lemma KubeNameIsPlain(s: string)
    ensures var t := KubeName(s);
            && Plain(t) && |t| <= NAME_LIMIT
            && (t == [] || (t[0] != '-' && t[|t| - 1] != '-'))
  {
    var cut := Clip(KubeChars(s), NAME_LIMIT);
    assert Plain(cut);
    StripLeftKeeps(cut);
    StripRightKeeps(StripLeft(cut));
  }

  /** A name is short, has no capitals, underscores or dots, and no dash at either end. */
  lemma KubeNameIs(s: string)
    ensures var t := KubeName(s);
            && |t| <= 40 && (t != "" ==> t[0] != '-' && t[|t| - 1] != '-')
            && forall i :: 0 <= i < |t| ==> t[i] != '_' && t[i] != '.' && !('A' <= t[i] <= 'Z')
  {
    KubeNameIsPlain(s);
  }

  /** Characters keep their places: capitals become small, underscores and dots dashes, all others stay. */
  lemma CharsAre(s: string, i: nat)
    requires i < |s|
    ensures |KubeChars(s)| == |s|
    ensures var c, k := s[i], KubeChars(s)[i];
            && (c == '_' || c == '.' ==> k == '-')
            && ('A' <= c <= 'Z' ==> 'a' <= k <= 'z' && k as int - 'a' as int == c as int - 'A' as int)
            && (c != '_' && c != '.' && !('A' <= c <= 'Z') ==> k == c)
  {
  }

  /** A string that is such a name already is its own name. */
  lemma GoodNamesStay(s: string)
    requires |s| <= 40 && (s != "" ==> s[0] != '-' && s[|s| - 1] != '-')
    requires forall i :: 0 <= i < |s| ==> s[i] != '_' && s[i] != '.' && !('A' <= s[i] <= 'Z')
    ensures KubeName(s) == s
  {
    assert KubeChars(s) == s;
  }

  /** How many digits of the version survive in the name of the secret. */
  function DigitsKept(slug: string): nat {
    var n := |KubeName(slug)| + 2;
    if n < NAME_LIMIT then NAME_LIMIT - n else 0
  }

  /** The secret's name, with the double truncation worked out. */
  function SecretStem(t: string, digits: string): string {
    if |t| >= NAME_LIMIT - 1 then t else (if t == [] then "v" else t + "-v") + digits
  }

  lemma SecretNameClosedForm(slug: string, version: nat)
    ensures KubeName(ResourceName(slug, version)) ==
            SecretStem(KubeName(slug), Clip(Digits(version), DigitsKept(slug)))
  {
    var t, d, name := KubeName(slug), Digits(version), ResourceName(slug, version);
    KubeNameIsPlain(slug);
    assert AllDecimal(d);
    assert KubeChars(name) == name;
    ClippedName(t, d, DigitsKept(slug));
    NameOfClipped(t, Clip(d, DigitsKept(slug)));
  }

  lemma ClippedName(t: string, d: string, kept: nat)
    requires |t| <= NAME_LIMIT && kept == if |t| + 2 < NAME_LIMIT then NAME_LIMIT - |t| - 2 else 0
    requires d != []
    ensures Clip(t + "-v" + d, NAME_LIMIT) == Clip(t + "-v", NAME_LIMIT) + Clip(d, kept)
  {
  }

  lemma NameOfClipped(t: string, d: string)
    requires |t| <= NAME_LIMIT && (t == [] || (t[0] != '-' && t[|t| - 1] != '-')) && AllDecimal(d)
    requires |t| + 2 > NAME_LIMIT ==> d == []
    ensures StripRight(StripLeft(Clip(t + "-v", NAME_LIMIT) + d)) == SecretStem(t, d)
  {
    var cut := Clip(t + "-v", NAME_LIMIT) + d;
    if t == [] {
      assert cut[1..] == "v" + d;
      assert StripLeft(cut) == "v" + d;
      assert StripRight("v" + d) == "v" + d;
    } else if |t| == NAME_LIMIT {
      assert cut == t;
    } else if |t| == NAME_LIMIT - 1 {
      assert cut == t + "-" && cut[..|t|] == t;
    } else {
      assert cut == t + "-v" + d;
    }
  }

  /** Two versions of one app share the managed secret exactly if the digits of their numbers
      that fit into the name agree. */
  lemma SecretNamesAgree(slug: string, version: nat, version': nat)
    ensures ManagedSecretName(ResourceName(slug, version)) == ManagedSecretName(ResourceName(slug, version'))
            <==> Clip(Digits(version), DigitsKept(slug)) == Clip(Digits(version'), DigitsKept(slug))
  {
    SecretNameClosedForm(slug, version);
    SecretNameClosedForm(slug, version');
    var a, b := KubeName(ResourceName(slug, version)), KubeName(ResourceName(slug, version'));
    var x, y := Clip(Digits(version), DigitsKept(slug)), Clip(Digits(version'), DigitsKept(slug));
    if ManagedSecretName(ResourceName(slug, version)) == ManagedSecretName(ResourceName(slug, version')) {
      assert a == (a + "-secrets")[..|a|] && b == (b + "-secrets")[..|b|];
      var t := KubeName(slug);
      var stem := if t == [] then "v" else t + "-v";
      if |t| < NAME_LIMIT - 1 {
        assert x == (stem + x)[|stem|..] && y == (stem + y)[|stem|..];
      }
    }
  }

  /** Names long enough to leave no digit share one secret for all versions; where all digits
      fit, different versions have different secrets. */
  lemma SecretNamesByLength(slug: string, version: nat, version': nat)
    ensures |KubeName(slug)| >= NAME_LIMIT - 2 ==>
              ManagedSecretName(ResourceName(slug, version)) == ManagedSecretName(ResourceName(slug, version'))
    ensures |ResourceName(slug, version)| <= NAME_LIMIT && |ResourceName(slug, version')| <= NAME_LIMIT
            && version != version' ==>
              ManagedSecretName(ResourceName(slug, version)) != ManagedSecretName(ResourceName(slug, version'))
  {
    SecretNamesAgree(slug, version, version');
    if Digits(version) == Digits(version') {
      DigitsInjective(version, version');
    }
  }

  /** A slug of n letters. */
  function Letters(n: nat): string {
    seq(n, _ => 'a')
  }

  lemma LettersAreTheirName(n: nat)
    requires n <= NAME_LIMIT
    ensures KubeName(Letters(n)) == Letters(n)
  {
    assert KubeChars(Letters(n)) == Letters(n);
  }

  lemma OneAndTwoDigits()
    ensures Digits(1) == "1" && Digits(2) == "2" && Digits(10) == "10"
  {
    assert Itoa(10) == Itoa(1) + [ZERO];
  }

  /** With 38 letters versions 1 and 2, two resources, share one secret. */
  lemma LongNameSharesItsSecret()
    ensures ResourceName(Letters(38), 1) != ResourceName(Letters(38), 2)
    ensures ManagedSecretName(ResourceName(Letters(38), 1)) == ManagedSecretName(ResourceName(Letters(38), 2))
  {
    LettersAreTheirName(38);
    ResourceNamesAgree(Letters(38), 1, Letters(38), 2);
    SecretNamesAgree(Letters(38), 1, 2);
  }

  /** With 37 letters one digit fits: versions 1 and 10 share one secret, versions 1 and 2 do not. */
  lemma OneDigitFits()
    ensures ManagedSecretName(ResourceName(Letters(37), 1)) == ManagedSecretName(ResourceName(Letters(37), 10))
    ensures ManagedSecretName(ResourceName(Letters(37), 1)) != ManagedSecretName(ResourceName(Letters(37), 2))
  {
    LettersAreTheirName(37);
    OneAndTwoDigits();
    SecretNamesAgree(Letters(37), 1, 10);
    SecretNamesAgree(Letters(37), 1, 2);
  }
}
