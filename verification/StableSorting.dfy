/** The array sort of the language, which is stable: what it returns, by insertion. */
module StableSorting {

  function Insert<T>(x: T, s: seq<T>, leq: (T, T) -> bool): seq<T> {
    if s == [] || leq(x, s[0]) then [x] + s else [s[0]] + Insert(x, s[1..], leq)
  }

  function Sort<T>(s: seq<T>, leq: (T, T) -> bool): seq<T> {
    if s == [] then [] else Insert(s[0], Sort(s[1..], leq), leq)
  }

  ghost predicate TotalPreorder<T(!new)>(leq: (T, T) -> bool) {
    && (forall a, b :: leq(a, b) || leq(b, a))
    && (forall a, b, c :: leq(a, b) && leq(b, c) ==> leq(a, c))
  }

  ghost predicate Ordered<T>(s: seq<T>, leq: (T, T) -> bool) {
    forall i, j :: 0 <= i < j < |s| ==> leq(s[i], s[j])
  }

  lemma {:induction false} InsertKeeps<T>(x: T, s: seq<T>, leq: (T, T) -> bool)
    ensures multiset(Insert(x, s, leq)) == multiset{x} + multiset(s)
    decreases |s|
  {
    if s == [] || leq(x, s[0]) {
    } else {
      InsertKeeps(x, s[1..], leq);
      assert s == [s[0]] + s[1..];
    }
  }

  lemma {:induction false} SortKeeps<T>(s: seq<T>, leq: (T, T) -> bool)
    ensures multiset(Sort(s, leq)) == multiset(s)
    decreases |s|
  {
    if s != [] {
      SortKeeps(s[1..], leq);
      InsertKeeps(s[0], Sort(s[1..], leq), leq);
      assert s == [s[0]] + s[1..];
    }
  }

  lemma SortLength<T>(s: seq<T>, leq: (T, T) -> bool)
    ensures |Sort(s, leq)| == |s|
  {
    SortKeeps(s, leq);
    assert |multiset(Sort(s, leq))| == |multiset(s)|;
  }

  lemma SortMembers<T>(s: seq<T>, leq: (T, T) -> bool, x: T)
    ensures x in Sort(s, leq) <==> x in s
  {
    SortKeeps(s, leq);
    assert x in Sort(s, leq) <==> x in multiset(Sort(s, leq));
    assert x in s <==> x in multiset(s);
  }

  lemma {:induction false} InsertOrders<T(!new)>(x: T, s: seq<T>, leq: (T, T) -> bool)
    requires TotalPreorder(leq) && Ordered(s, leq)
    ensures Ordered(Insert(x, s, leq), leq)
    decreases |s|
  {
    if s == [] || leq(x, s[0]) {
    } else {
      var rest := Insert(x, s[1..], leq);
      InsertOrders(x, s[1..], leq);
      InsertKeeps(x, s[1..], leq);
      forall j | 0 <= j < |rest| ensures leq(s[0], rest[j]) {
        assert rest[j] in multiset(rest);
      }
    }
  }

  lemma {:induction false} SortOrders<T(!new)>(s: seq<T>, leq: (T, T) -> bool)
    requires TotalPreorder(leq)
    ensures Ordered(Sort(s, leq), leq)
    decreases |s|
  {
    if s != [] {
      SortOrders(s[1..], leq);
      InsertOrders(s[0], Sort(s[1..], leq), leq);
    }
  }

  /** The elements that compare equal to a given one, in their order. */
  function Peers<T>(s: seq<T>, of: T, leq: (T, T) -> bool): seq<T> {
    if s == [] then []
    else (if leq(s[0], of) && leq(of, s[0]) then [s[0]] else []) + Peers(s[1..], of, leq)
  }

  lemma {:induction false} InsertIsStable<T(!new)>(x: T, s: seq<T>, of: T, leq: (T, T) -> bool)
    requires TotalPreorder(leq)
    ensures Peers(Insert(x, s, leq), of, leq) == (if leq(x, of) && leq(of, x) then [x] else []) + Peers(s, of, leq)
    decreases |s|
  {
    if s == [] || leq(x, s[0]) {
      assert ([x] + s)[1..] == s;
    } else {
      InsertIsStable(x, s[1..], of, leq);
      var rest := Insert(x, s[1..], leq);
      assert ([s[0]] + rest)[1..] == rest;
    }
  }

  /** Elements that compare equal stay in the order they came in. */
  lemma {:induction false} SortIsStable<T(!new)>(s: seq<T>, of: T, leq: (T, T) -> bool)
    requires TotalPreorder(leq)
    ensures Peers(Sort(s, leq), of, leq) == Peers(s, of, leq)
    decreases |s|
  {
    if s != [] {
      SortIsStable(s[1..], of, leq);
      InsertIsStable(s[0], Sort(s[1..], leq), of, leq);
    }
  }
}
