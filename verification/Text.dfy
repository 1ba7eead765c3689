/** Strings: decimal numerals, surrounding white space, and keys in sorted order. */
module Text {
  import opened Insertion
  import opened Resp

  function Digits(n: nat): string {
    var s := Itoa(n);
    seq(|s|, i requires 0 <= i < |s| => s[i] as char)
  }

  lemma DigitsInjective(a: nat, b: nat)
    requires Digits(a) == Digits(b)
    ensures a == b
  {
    var s, t := Itoa(a), Itoa(b);
    assert |s| == |Digits(a)| == |t|;
    forall i | 0 <= i < |s|
      ensures s[i] == t[i]
    {
      assert Digits(a)[i] == Digits(b)[i];
    }
    assert s == t;
    ItoaInjective(a, b);
  }

  // ----- White space

  /** The characters Unicode calls white space. */
  predicate Space(c: char) {
    || '\t' <= c <= '\r' || c == ' ' || c == '\U{85}' || c == '\U{A0}' || c == '\U{1680}'
    || '\U{2000}' <= c <= '\U{200A}' || c == '\U{2028}' || c == '\U{2029}' || c == '\U{202F}'
    || c == '\U{205F}' || c == '\U{3000}'
  }

  function TrimStart(s: string): string {
    if s != [] && Space(s[0]) then TrimStart(s[1..]) else s
  }

  function TrimEnd(s: string): string {
    if s != [] && Space(s[|s| - 1]) then TrimEnd(s[..|s| - 1]) else s
  }

  function Trim(s: string): string {
    TrimEnd(TrimStart(s))
  }

  lemma {:induction false} TrimStartEnds(s: string)
    ensures TrimStart(s) == [] || !Space(TrimStart(s)[0])
  {
    if s != [] && Space(s[0]) {
      TrimStartEnds(s[1..]);
    }
  }

  lemma {:induction false} TrimEndEnds(s: string)
    ensures var t := TrimEnd(s); t == [] || (t[0] == s[0] && !Space(t[|t| - 1]))
  {
    if s != [] && Space(s[|s| - 1]) {
      TrimEndEnds(s[..|s| - 1]);
    }
  }

  /** A trimmed string stays as it is. */
  lemma TrimIsIdempotent(s: string)
    ensures Trim(Trim(s)) == Trim(s)
  {
    TrimStartEnds(s);
    TrimEndEnds(TrimStart(s));
  }

  predicate AllSpace(s: string) {
    forall i :: 0 <= i < |s| ==> Space(s[i])
  }

  lemma {:induction false} TrimStartSplits(s: string) returns (before: string)
    ensures s == before + TrimStart(s) && AllSpace(before)
  {
    if s != [] && Space(s[0]) {
      before := TrimStartSplits(s[1..]);
      before := [s[0]] + before;
    } else {
      before := [];
    }
  }

  lemma {:induction false} TrimEndSplits(s: string) returns (after: string)
    ensures s == TrimEnd(s) + after && AllSpace(after)
  {
    if s != [] && Space(s[|s| - 1]) {
      after := TrimEndSplits(s[..|s| - 1]);
      after := after + [s[|s| - 1]];
    } else {
      after := [];
    }
  }

  /** Trimming takes white space off both ends, all of it and nothing else. */
  lemma TrimSplits(s: string) returns (before: string, after: string)
    ensures s == before + Trim(s) + after && AllSpace(before) && AllSpace(after)
    ensures Trim(s) != "" ==> !Space(Trim(s)[0]) && !Space(Trim(s)[|Trim(s)| - 1])
  {
    before := TrimStartSplits(s);
    after := TrimEndSplits(TrimStart(s));
    TrimStartEnds(s);
    TrimEndEnds(TrimStart(s));
  }

  // ----- Sorted keys

  /** Lexicographic order by code point, which is the byte order of UTF-8. */
  predicate Less(a: string, b: string) {
    b != [] && (a == [] || a[0] < b[0] || (a[0] == b[0] && Less(a[1..], b[1..])))
  }

  /** One string comes before another if it is smaller at the first place where they differ, or is a proper
      prefix of it. */
  lemma {:induction false} LessIs(a: string, b: string)
    ensures Less(a, b) <==>
            exists i :: && 0 <= i <= |a| && i < |b| && a[..i] == b[..i]
                        && (i == |a| || a[i] < b[i])
  {
    if a == [] {
      assert b != [] ==> a[..0] == b[..0];
    } else if b != [] && a[0] == b[0] {
      LessIs(a[1..], b[1..]);
      if Less(a, b) {
        var i :| && 0 <= i <= |a[1..]| && i < |b[1..]| && a[1..][..i] == b[1..][..i]
                 && (i == |a[1..]| || a[1..][i] < b[1..][i]);
        assert a[..i + 1] == [a[0]] + a[1..][..i] && b[..i + 1] == [b[0]] + b[1..][..i];
      }
      if i :| 0 <= i <= |a| && i < |b| && a[..i] == b[..i] && (i == |a| || a[i] < b[i]) {
        assert i > 0;
        assert a[1..][..i - 1] == a[..i][1..] && b[1..][..i - 1] == b[..i][1..];
        assert i == |a| || a[1..][i - 1] < b[1..][i - 1];
      }
    } else if b != [] {
      assert a[..0] == b[..0];
      assert forall i :: 0 < i <= |a| && i < |b| ==> a[..i][0] != b[..i][0];
    }
  }

  lemma {:induction false} LessTransitive(a: string, b: string, c: string)
    requires Less(a, b) && Less(b, c)
    ensures Less(a, c)
  {
    if a != [] && a[0] == b[0] && b[0] == c[0] {
      LessTransitive(a[1..], b[1..], c[1..]);
    }
  }

  lemma {:induction false} LessIsTotal(a: string, b: string)
    ensures a == b || Less(a, b) || Less(b, a)
  {
    if a != [] && b != [] && a[0] == b[0] {
      LessIsTotal(a[1..], b[1..]);
      assert a == [a[0]] + a[1..] && b == [b[0]] + b[1..];
    }
  }

  lemma {:induction false} LessIsStrict(a: string)
    ensures !Less(a, a)
  {
    if a != [] {
      LessIsStrict(a[1..]);
    }
  }

  /** The members of the set, in increasing order. */
  ghost predicate Lists(keys: seq<string>, s: set<string>) {
    Ordered(Less, keys) && forall k :: k in keys <==> k in s
  }

  /** There is only one such list, whatever order the members were met in. */
  lemma {:induction false} ListIsUnique(a: seq<string>, b: seq<string>, s: set<string>)
    requires Lists(a, s) && Lists(b, s)
    ensures a == b
    decreases |a|
  {
    EmptyList(a, s);
    EmptyList(b, s);
    if a != [] {
      SameHead(a, b, s);
      TailLists(a, s);
      TailLists(b, s);
      ListIsUnique(a[1..], b[1..], s - {a[0]});
      assert a == [a[0]] + a[1..] && b == [b[0]] + b[1..];
    }
  }

  lemma EmptyList(a: seq<string>, s: set<string>)
    requires Lists(a, s)
    ensures a == [] <==> s == {}
  {
    if a != [] {
      assert a[0] in s;
    }
  }

  lemma SameHead(a: seq<string>, b: seq<string>, s: set<string>)
    requires Lists(a, s) && Lists(b, s) && a != [] && b != []
    ensures a[0] == b[0]
  {
    assert a[0] in b && b[0] in a;
    var i, j :| 0 <= i < |b| && b[i] == a[0] && 0 <= j < |a| && a[j] == b[0];
    if i > 0 && j > 0 {
      LessTransitive(a[0], b[0], a[0]);
      LessIsStrict(a[0]);
    }
  }

  lemma TailLists(a: seq<string>, s: set<string>)
    requires Lists(a, s) && a != []
    ensures Lists(a[1..], s - {a[0]})
  {
    forall k | k in s && k != a[0]
      ensures k in a[1..]
    {
      var i :| 0 <= i < |a| && a[i] == k;
      assert a[1..][i - 1] == k;
    }
    forall i | 0 <= i < |a[1..]|
      ensures a[1..][i] in s && a[1..][i] != a[0]
    {
      assert a[1..][i] == a[i + 1] && a[i + 1] in a;
      LessIsStrict(a[0]);
    }
  }

  lemma {:induction false} ListExists(s: set<string>)
    ensures exists keys :: Lists(keys, s)
  {
    if s == {} {
      assert Lists([], s);
    } else {
      var x :| x in s;
      ListExists(s - {x});
      var keys :| Lists(keys, s - {x});
      var k := Place(keys, x);
      Placed(keys, s - {x}, x, k);
      assert s - {x} + {x} == s;
    }
  }

  /** Where a new key belongs. */
  function Place(keys: seq<string>, x: string): (k: nat)
    ensures k <= |keys| && (k > 0 ==> !Less(x, keys[k - 1]))
    ensures forall i :: k <= i < |keys| ==> Less(x, keys[i])
  {
    if keys == [] || !Less(x, keys[|keys| - 1]) then |keys| else Place(keys[..|keys| - 1], x)
  }

  lemma Placed(keys: seq<string>, s: set<string>, x: string, k: nat)
    requires Lists(keys, s) && x !in s && k <= |keys|
    requires k > 0 ==> !Less(x, keys[k - 1])
    requires forall i :: k <= i < |keys| ==> Less(x, keys[i])
    ensures Lists(Insert(keys, k, x), s + {x})
  {
    if k > 0 {
      assert keys[k - 1] in keys;
      LessIsTotal(x, keys[k - 1]);
    }
    AllBelow(keys, x, k);
    InsertedInOrder(Less, keys, k, x);
    InsertedMembers(keys, k, x);
  }

  lemma AllBelow(keys: seq<string>, x: string, k: nat)
    requires Ordered(Less, keys) && k <= |keys| && (k > 0 ==> Less(keys[k - 1], x))
    ensures forall i :: 0 <= i < k ==> Less(keys[i], x)
  {
    forall i | 0 <= i < k
      ensures Less(keys[i], x)
    {
      if i < k - 1 {
        LessTransitive(keys[i], keys[k - 1], x);
      }
    }
  }

  ghost function Sorted(s: set<string>): (keys: seq<string>)
    ensures Lists(keys, s)
  {
    ListExists(s);
    var keys :| Lists(keys, s);
    keys
  }

  /** The keys of a map, met in any order, come out in the one sorted order. */
  method SortedKeys(values: map<string, string>) returns (keys: seq<string>)
    ensures keys == Sorted(values.Keys)
  {
    var rest := values.Keys;
    keys := [];
    while rest != {}
      invariant rest <= values.Keys && Lists(keys, values.Keys - rest)
      decreases |rest|
    {
      var x :| x in rest;
      ghost var done := values.Keys - rest;
      var k := |keys|;
      while k > 0 && Less(x, keys[k - 1])
        invariant 0 <= k <= |keys|
        invariant forall i :: k <= i < |keys| ==> Less(x, keys[i])
      {
        k := k - 1;
      }
      Placed(keys, done, x, k);
      keys := Insert(keys, k, x);
      rest := rest - {x};
      assert values.Keys - rest == done + {x};
    }
    assert values.Keys - rest == values.Keys;
    ListIsUnique(keys, Sorted(values.Keys), values.Keys);
  }
}
