/** Sorting by a total preorder. */
module Sorting {
  ghost predicate Sorted<T(!new)>(le: (T, T) -> bool, s: seq<T>) {
    forall i, j :: 0 <= i < j < |s| ==> le(s[i], s[j])
  }

  ghost predicate TotalPreorder<T(!new)>(le: (T, T) -> bool) {
    && (forall a, b :: le(a, b) || le(b, a))
    && (forall a, b, c :: le(a, b) && le(b, c) ==> le(a, c))
  }

  lemma InsertedIsSorted<T(!new)>(le: (T, T) -> bool, s: seq<T>, i: nat, x: T)
    requires Sorted(le, s) && i <= |s|
    requires forall k :: 0 <= k < i ==> le(s[k], x)
    requires forall k :: i <= k < |s| ==> le(x, s[k])
    ensures Sorted(le, s[..i] + [x] + s[i..])
  {
    var r := s[..i] + [x] + s[i..];
    forall a, b | 0 <= a < b < |r|
      ensures le(r[a], r[b])
    {
      assert r[a] == if a < i then s[a] else if a == i then x else s[a - 1];
      assert r[b] == if b < i then s[b] else if b == i then x else s[b - 1];
    }
  }

  method Insert<T(!new, ==)>(le: (T, T) -> bool, s: seq<T>, x: T) returns (r: seq<T>)
    requires TotalPreorder(le) && Sorted(le, s)
    ensures Sorted(le, r) && multiset(r) == multiset(s) + multiset{x}
  {
    var i := |s|;
    while i > 0 && !le(s[i - 1], x)
      invariant 0 <= i <= |s|
      invariant forall k :: i <= k < |s| ==> le(x, s[k])
    {
      i := i - 1;
    }
    assert forall k :: 0 <= k < i - 1 ==> le(s[k], s[i - 1]);
    InsertedIsSorted(le, s, i, x);
    r := s[..i] + [x] + s[i..];
    assert s == s[..i] + s[i..];
  }

  /** A sorted permutation. */
  method Sort<T(!new, ==)>(le: (T, T) -> bool, s: seq<T>) returns (r: seq<T>)
    requires TotalPreorder(le)
    ensures Sorted(le, r) && multiset(r) == multiset(s)
  {
    r := [];
    for i := 0 to |s|
      invariant Sorted(le, r) && multiset(r) == multiset(s[..i])
    {
      r := Insert(le, r, s[i]);
      assert s[..i + 1] == s[..i] + [s[i]];
    }
    assert s[..|s|] == s;
  }
}

/** The order of text by its characters. */
module Lexicographic {
  /** Strict lexicographic order. */
  predicate Below(a: string, b: string) {
    b != [] && (a == [] || a[0] < b[0] || (a[0] == b[0] && Below(a[1..], b[1..])))
  }

  lemma {:induction false} BelowIsTotal(a: string, b: string)
    ensures Below(a, b) || Below(b, a) || a == b
  {
    if a != [] && b != [] && a[0] == b[0] {
      BelowIsTotal(a[1..], b[1..]);
      assert a == [a[0]] + a[1..] && b == [b[0]] + b[1..];
    }
  }

  lemma {:induction false} BelowIsTransitive(a: string, b: string, c: string)
    requires Below(a, b) && Below(b, c)
    ensures Below(a, c)
  {
    if a != [] && a[0] == b[0] && b[0] == c[0] {
      BelowIsTransitive(a[1..], b[1..], c[1..]);
    }
  }

  lemma {:induction false} BelowIsStrict(a: string, b: string)
    requires Below(a, b)
    ensures !Below(b, a) && a != b
  {
    if a != [] && a[0] == b[0] {
      BelowIsStrict(a[1..], b[1..]);
    }
  }

  lemma {:induction false} PrefixIsBelow(a: string, b: string)
    requires a < b
    ensures Below(a, b)
  {
    if a != [] {
      assert a[1..] < b[1..] by {
        assert b[..|a|] == a;
      }
      PrefixIsBelow(a[1..], b[1..]);
    }
  }
}
