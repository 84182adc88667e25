/** Python's stable `sorted`, and the two facts used about it: it permutes, and on keys that
    tell elements apart its result depends only on which elements there are. */
module Sorting {
  import opened Prelude


  ghost predicate Preorder<T(!new)>(leq: (T, T) -> bool) {
    && (forall x, y :: leq(x, y) || leq(y, x))
    && (forall x, y, z :: leq(x, y) && leq(y, z) ==> leq(x, z))
  }

  ghost predicate Ordered<T>(leq: (T, T) -> bool, s: seq<T>) {
    forall i, j :: 0 <= i < j < |s| ==> leq(s[i], s[j])
  }

  /** The key tells the elements of s apart. */
  ghost predicate Separates<T(!new)>(leq: (T, T) -> bool, s: seq<T>) {
    forall x, y :: x in s && y in s && leq(x, y) && leq(y, x) ==> x == y
  }

  function Insert<T>(leq: (T, T) -> bool, x: T, s: seq<T>): seq<T> {
    if s == [] || leq(x, s[0]) then [x] + s else [s[0]] + Insert(leq, x, s[1..])
  }

  function Sort<T>(leq: (T, T) -> bool, s: seq<T>): seq<T> {
    if s == [] then [] else Insert(leq, s[0], Sort(leq, s[1..]))
  }

  lemma SortOne<A>(leq: (A, A) -> bool, x: A)
    ensures Sort(leq, [x]) == [x]
  {
    assert [x][1..] == [];
  }

  lemma SortTwo<A>(leq: (A, A) -> bool, a: A, b: A)
    ensures Sort(leq, [a, b]) == if leq(a, b) then [a, b] else [b, a]
  {
    SortOne(leq, b);
    assert [a, b][1..] == [b] && [b][1..] == [];
    assert Insert(leq, a, []) == [a];
    assert Insert(leq, a, [b]) == if leq(a, b) then [a, b] else [b] + [a];
    assert Sort(leq, [a, b]) == Insert(leq, a, [b]);
  }

  lemma {:induction false} InsertPermutes<T>(leq: (T, T) -> bool, x: T, s: seq<T>)
    ensures multiset(Insert(leq, x, s)) == multiset{x} + multiset(s)
  {
    if s != [] && !leq(x, s[0]) {
      InsertPermutes(leq, x, s[1..]);
      assert s == [s[0]] + s[1..];
    }
  }

  lemma {:induction false} SortPermutes<T>(leq: (T, T) -> bool, s: seq<T>)
    ensures multiset(Sort(leq, s)) == multiset(s)
    ensures |Sort(leq, s)| == |s|
    ensures forall x :: x in Sort(leq, s) <==> x in s
  {
    if s != [] {
      SortPermutes(leq, s[1..]);
      InsertPermutes(leq, s[0], Sort(leq, s[1..]));
      assert s == [s[0]] + s[1..];
    }
    SameElements(Sort(leq, s), s);
  }

  lemma SameElements<T>(a: seq<T>, b: seq<T>)
    requires multiset(a) == multiset(b)
    ensures |a| == |b|
    ensures forall x :: x in a <==> x in b
  {
    assert |multiset(a)| == |a| && |multiset(b)| == |b|;
    forall x ensures x in a <==> x in b {
      assert x in a <==> x in multiset(a);
      assert x in b <==> x in multiset(b);
    }
  }

  lemma {:induction false} InsertOrders<T(!new)>(leq: (T, T) -> bool, x: T, s: seq<T>)
    requires Preorder(leq) && Ordered(leq, s)
    ensures Ordered(leq, Insert(leq, x, s))
  {
    if s != [] && !leq(x, s[0]) {
      InsertOrders(leq, x, s[1..]);
      InsertPermutes(leq, x, s[1..]);
      var tail := Insert(leq, x, s[1..]);
      forall j | 0 <= j < |tail| ensures leq(s[0], tail[j]) {
        assert tail[j] in multiset(tail);
      }
    }
  }

  lemma {:induction false} SortOrders<T(!new)>(leq: (T, T) -> bool, s: seq<T>)
    requires Preorder(leq)
    ensures Ordered(leq, Sort(leq, s))
  {
    if s != [] {
      SortOrders(leq, s[1..]);
      InsertOrders(leq, s[0], Sort(leq, s[1..]));
    }
  }

  lemma {:induction false} SortFixesOrdered<T>(leq: (T, T) -> bool, s: seq<T>)
    requires Ordered(leq, s)
    ensures Sort(leq, s) == s
  {
    if s != [] {
      SortFixesOrdered(leq, s[1..]);
    }
  }

  lemma RemoveOne<T>(s: seq<T>, i: nat)
    requires i < |s|
    ensures s == s[..i] + [s[i]] + s[i+1..]
    ensures multiset(s[..i] + s[i+1..]) == multiset(s) - multiset{s[i]}
  {
    assert s == s[..i] + [s[i]] + s[i+1..];
  }

  /** Find the first element of one list in a permutation of it. */
  lemma SplitAround<T>(a: seq<T>, b: seq<T>) returns (before: seq<T>, after: seq<T>)
    requires multiset(a) == multiset(b) && a != []
    ensures b == before + [a[0]] + after
    ensures multiset(a[1..]) == multiset(before + after)
  {
    SameElements(a, b);
    assert a[0] in b;
    var i :| 0 <= i < |b| && b[i] == a[0];
    before, after := b[..i], b[i+1..];
    RemoveOne(b, i);
    RemoveOne(a, 0);
    assert a[..0] + a[1..] == a[1..];
  }

  lemma {:induction false} MapPermutes<A, B>(a: seq<A>, b: seq<A>, f: A -> B)
    requires multiset(a) == multiset(b)
    ensures multiset(Map(a, f)) == multiset(Map(b, f))
    decreases |a|
  {
    SameElements(a, b);
    if a != [] {
      var before, after := SplitAround(a, b);
      MapPermutes(a[1..], before + after, f);
      assert Map(a, f) == [f(a[0])] + Map(a[1..], f);
      assert Map(b, f) == Map(before, f) + [f(a[0])] + Map(after, f);
      assert Map(before + after, f) == Map(before, f) + Map(after, f);
    }
  }

  lemma {:induction false} FilterSplits<T>(s: seq<T>, keep: T -> bool, drop: T -> bool)
    requires forall x :: x in s ==> drop(x) == !keep(x)
    ensures multiset(Filter(s, keep)) + multiset(Filter(s, drop)) == multiset(s)
  {
    if s != [] {
      var init, last := s[..|s|-1], s[|s|-1];
      FilterSplits(init, keep, drop);
      assert s == init + [last];
      assert multiset(s) == multiset(init) + multiset{last};
      var kept, dropped := Filter(init, keep), Filter(init, drop);
      if keep(last) {
        assert Filter(s, keep) == kept + [last] && Filter(s, drop) == dropped;
      } else {
        assert Filter(s, keep) == kept && Filter(s, drop) == dropped + [last];
      }
    }
  }

  lemma {:induction false} FilterConcat<T>(a: seq<T>, b: seq<T>, keep: T -> bool)
    ensures Filter(a + b, keep) == Filter(a, keep) + Filter(b, keep)
  {
    if b == [] {
      assert a + b == a;
    } else {
      FilterConcat(a, b[..|b|-1], keep);
      assert (a + b)[..|a + b|-1] == a + b[..|b|-1];
    }
  }

  lemma {:induction false} FilterPermutes<T>(a: seq<T>, b: seq<T>, keep: T -> bool)
    requires multiset(a) == multiset(b)
    ensures multiset(Filter(a, keep)) == multiset(Filter(b, keep))
    decreases |a|
  {
    SameElements(a, b);
    if a != [] {
      var before, after := SplitAround(a, b);
      FilterPermutes(a[1..], before + after, keep);
      assert a == [a[0]] + a[1..];
      FilterConcat([a[0]], a[1..], keep);
      FilterConcat(before, after, keep);
      FilterConcat(before, [a[0]] + after, keep);
      FilterConcat([a[0]], after, keep);
      assert before + ([a[0]] + after) == b;
    }
  }

  lemma OrderedHeads<T(!new)>(leq: (T, T) -> bool, a: seq<T>, b: seq<T>)
    requires Ordered(leq, a) && Ordered(leq, b) && Separates(leq, a)
    requires multiset(a) == multiset(b) && a != []
    ensures b != [] && a[0] == b[0]
    ensures multiset(a[1..]) == multiset(b[1..])
  {
    SameElements(a, b);
    HeadIsLeast(leq, a, b[0]);
    HeadIsLeast(leq, b, a[0]);
    RestOfMultiset(a);
    RestOfMultiset(b);
  }

  lemma HeadIsLeast<T(!new)>(leq: (T, T) -> bool, s: seq<T>, x: T)
    requires Ordered(leq, s) && x in s
    ensures x == s[0] || leq(s[0], x)
  {
    var i :| 0 <= i < |s| && s[i] == x;
    assert i == 0 || leq(s[0], s[i]);
  }

  lemma RestOfMultiset<T>(s: seq<T>)
    requires s != []
    ensures multiset(s[1..]) == multiset(s) - multiset{s[0]}
  {
    assert s == [s[0]] + s[1..];
  }

  /** Two ordered lists of the same distinguishable elements are the same list. */
  lemma {:induction false} OrderedIsUnique<T(!new)>(leq: (T, T) -> bool, a: seq<T>, b: seq<T>)
    requires Ordered(leq, a) && Ordered(leq, b) && Separates(leq, a)
    requires multiset(a) == multiset(b)
    ensures a == b
  {
    SameElements(a, b);
    if a != [] {
      OrderedHeads(leq, a, b);
      OrderedIsUnique(leq, a[1..], b[1..]);
      assert a == [a[0]] + a[1..] && b == [b[0]] + b[1..];
    }
  }

  lemma SortIsCanonical<T(!new)>(leq: (T, T) -> bool, a: seq<T>, b: seq<T>)
    requires Preorder(leq) && Separates(leq, a)
    requires multiset(a) == multiset(b)
    ensures Sort(leq, a) == Sort(leq, b)
  {
    SortPermutes(leq, a);
    SortPermutes(leq, b);
    SortOrders(leq, a);
    SortOrders(leq, b);
    OrderedIsUnique(leq, Sort(leq, a), Sort(leq, b));
  }

  /** Python's order on text: code point by code point. */
  predicate TextLeq(a: string, b: string) {
    a == "" || (b != "" && (a[0] < b[0] || (a[0] == b[0] && TextLeq(a[1..], b[1..]))))
  }

  lemma {:induction false} TextTotal(a: string, b: string)
    ensures TextLeq(a, b) || TextLeq(b, a)
    ensures TextLeq(a, b) && TextLeq(b, a) ==> a == b
  {
    if a != "" && b != "" {
      TextTotal(a[1..], b[1..]);
      assert a == [a[0]] + a[1..] && b == [b[0]] + b[1..];
    }
  }

  lemma {:induction false} TextTransitive(a: string, b: string, c: string)
    requires TextLeq(a, b) && TextLeq(b, c)
    ensures TextLeq(a, c)
  {
    if a != "" && a[0] == b[0] && b[0] == c[0] {
      TextTransitive(a[1..], b[1..], c[1..]);
    }
  }
}
