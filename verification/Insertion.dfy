/** Inserting into an ordered list, for any relation that should hold between earlier and later
    elements. */
module Insertion {

  function Insert<T>(s: seq<T>, k: nat, x: T): seq<T>
    requires k <= |s|
  {
    s[..k] + [x] + s[k..]
  }

  predicate Ordered<T>(before: (T, T) -> bool, s: seq<T>) {
    forall i, j :: 0 <= i < j < |s| ==> before(s[i], s[j])
  }

  lemma InsertedMembers<T(!new)>(s: seq<T>, k: nat, x: T)
    requires k <= |s|
    ensures forall y :: y in Insert(s, k, x) <==> y in s || y == x
  {
    assert s == s[..k] + s[k..];
    assert Insert(s, k, x)[k] == x;
  }

  lemma InsertedAt<T>(s: seq<T>, k: nat, x: T, i: nat)
    requires k <= |s| && i <= |s|
    ensures Insert(s, k, x)[i] == if i < k then s[i] else if i == k then x else s[i - 1]
  {
  }

  lemma InsertedInOrder<T>(before: (T, T) -> bool, s: seq<T>, k: nat, x: T)
    requires k <= |s| && Ordered(before, s)
    requires forall i :: 0 <= i < k ==> before(s[i], x)
    requires forall i :: k <= i < |s| ==> before(x, s[i])
    ensures Ordered(before, Insert(s, k, x))
  {
    var r := Insert(s, k, x);
    forall i, j | 0 <= i < j < |r|
      ensures before(r[i], r[j])
    {
      InsertedAt(s, k, x, i);
      InsertedAt(s, k, x, j);
    }
  }
}
