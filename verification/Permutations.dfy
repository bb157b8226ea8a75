/** Sequences with the same elements in a different order. */
module Permutations {

  lemma TakeOut<T>(a: seq<T>, b: seq<T>) returns (j: nat)
    requires multiset(a) == multiset(b) && a != []
    ensures j < |b| && b[j] == a[0] && multiset(a[1..]) == multiset(b[..j] + b[j + 1..])
  {
    assert a[0] in multiset(b);
    j :| 0 <= j < |b| && b[j] == a[0];
    assert a == [a[0]] + a[1..];
    assert b == b[..j] + ([b[j]] + b[j + 1..]);
    assert multiset(b) == multiset(b[..j]) + (multiset{b[j]} + multiset(b[j + 1..]));
    assert multiset(a[1..]) == multiset(a) - multiset{a[0]};
  }

  function Mapped<T, U>(s: seq<T>, f: T -> U): (r: seq<U>)
    ensures |r| == |s| && forall i :: 0 <= i < |s| ==> r[i] == f(s[i])
  {
    seq(|s|, i requires 0 <= i < |s| => f(s[i]))
  }

  lemma {:induction false} MappedAlike<T, U>(a: seq<T>, b: seq<T>, f: T -> U)
    requires multiset(a) == multiset(b)
    ensures multiset(Mapped(a, f)) == multiset(Mapped(b, f))
    decreases |a|
  {
    assert |multiset(a)| == |multiset(b)|;
    if a == [] {
      assert Mapped(a, f) == Mapped(b, f);
    } else {
      var j := TakeOut(a, b);
      MappedAlike(a[1..], b[..j] + b[j + 1..], f);
      assert Mapped(a, f) == [f(a[0])] + Mapped(a[1..], f);
      var front, back := Mapped(b[..j], f), Mapped(b[j + 1..], f);
      assert Mapped(b, f) == front + ([f(b[j])] + back);
      assert Mapped(b[..j] + b[j + 1..], f) == front + back;
    }
  }

  ghost predicate Unique<T>(s: seq<T>) { forall i, j :: 0 <= i < j < |s| ==> s[i] != s[j] }

  lemma UniqueMore<T>(s: seq<T>, x: T)
    ensures Unique(s + [x]) <==> Unique(s) && x !in s
  {
    if Unique(s + [x]) {
      forall i, j | 0 <= i < j < |s| ensures s[i] != s[j] { assert (s + [x])[i] != (s + [x])[j]; }
      forall i | 0 <= i < |s| ensures s[i] != x { assert (s + [x])[i] != (s + [x])[|s|]; }
    }
  }

  lemma {:induction false} UniqueAlike<T>(a: seq<T>, b: seq<T>)
    requires multiset(a) == multiset(b) && Unique(a)
    ensures Unique(b)
    decreases |a|
  {
    assert |multiset(a)| == |multiset(b)|;
    if a != [] {
      var j := TakeOut(a, b);
      var rest := b[..j] + b[j + 1..];
      UniqueAlike(a[1..], rest);
      assert a[0] !in multiset(a[1..]);
      forall k, l | 0 <= k < l < |b| ensures b[k] != b[l] {
        assert k < j ==> rest[k] == b[k];
        assert k > j ==> rest[k - 1] == b[k];
        assert l < j ==> rest[l] == b[l];
        assert l > j ==> rest[l - 1] == b[l];
        assert k == j ==> b[l] in multiset(rest);
        assert l == j ==> b[k] in multiset(rest);
      }
    }
  }

  ghost predicate Ascending(s: seq<int>) { forall i, j :: 0 <= i < j < |s| ==> s[i] <= s[j] }

  /** Ascending sequences of the same numbers are the same. */
  lemma {:induction false} AscendingIsUnique(a: seq<int>, b: seq<int>)
    requires Ascending(a) && Ascending(b) && multiset(a) == multiset(b)
    ensures a == b
    decreases |a|
  {
    assert |multiset(a)| == |multiset(b)|;
    if a != [] {
      LeastFirst(a, b);
      assert a == [a[0]] + a[1..] && b == [b[0]] + b[1..];
      assert multiset(a[1..]) == multiset(a) - multiset{a[0]};
      assert multiset(b[1..]) == multiset(b) - multiset{b[0]};
      AscendingIsUnique(a[1..], b[1..]);
    }
  }

  lemma LeastFirst(a: seq<int>, b: seq<int>)
    requires Ascending(a) && Ascending(b) && multiset(a) == multiset(b) && a != [] && b != []
    ensures a[0] == b[0]
  {
    assert a[0] in multiset(b) && b[0] in multiset(a);
  }
}
