/** Small shared vocabulary: results, list comprehensions and insertion-ordered dictionaries. */
module Prelude {

  datatype Option<+T> = None | Some(value: T)

  datatype Result<+T, +E> = Ok(value: T) | Err(error: E)

  predicate Distinct<T(==)>(s: seq<T>) {
    forall i, j :: 0 <= i < j < |s| ==> s[i] != s[j]
  }

  /** The list comprehension `[y for x in s for y in f(x)]`. */
  function FlatMap<A, B>(s: seq<A>, f: A -> seq<B>): seq<B> {
    if s == [] then [] else FlatMap(s[..|s|-1], f) + f(s[|s|-1])
  }

  lemma FlatMapStep<A, B>(s: seq<A>, i: nat, f: A -> seq<B>)
    requires i < |s|
    ensures FlatMap(s[..i+1], f) == FlatMap(s[..i], f) + f(s[i])
  {
    assert s[..i+1][..i] == s[..i];
  }

  lemma FlatMapOne<A, B>(x: A, f: A -> seq<B>)
    ensures FlatMap([x], f) == f(x)
  {
    assert [x][..0] == [];
  }

  lemma FlatMapTwo<A, B>(x: A, y: A, f: A -> seq<B>)
    ensures FlatMap([x, y], f) == f(x) + f(y)
  {
    assert [x, y][..1] == [x];
    FlatMapOne(x, f);
  }

  lemma {:induction false} FlatMapMember<A, B>(s: seq<A>, f: A -> seq<B>, y: B)
    ensures y in FlatMap(s, f) <==> exists x :: x in s && y in f(x)
  {
    if s != [] {
      var last := |s| - 1;
      FlatMapMember(s[..last], f, y);
      assert s == s[..last] + [s[last]];
    }
  }

  lemma {:induction false} FlatMapEmpty<A, B>(s: seq<A>, f: A -> seq<B>)
    ensures FlatMap(s, f) == [] <==> forall x :: x in s ==> f(x) == []
  {
    if s != [] {
      var last := |s| - 1;
      FlatMapEmpty(s[..last], f);
      assert s == s[..last] + [s[last]];
    }
  }

  lemma {:induction false} FlatMapConcat<A, B>(a: seq<A>, b: seq<A>, f: A -> seq<B>)
    ensures FlatMap(a + b, f) == FlatMap(a, f) + FlatMap(b, f)
  {
    if b == [] {
      assert a + b == a;
    } else {
      var last := |b| - 1;
      FlatMapConcat(a, b[..last], f);
      assert (a + b)[..|a + b| - 1] == a + b[..last];
    }
  }

  lemma {:induction false} FlatMapAgree<A, B>(s: seq<A>, f: A -> seq<B>, g: A -> seq<B>)
    requires forall x :: x in s ==> f(x) == g(x)
    ensures FlatMap(s, f) == FlatMap(s, g)
  {
    if s != [] {
      FlatMapAgree(s[..|s|-1], f, g);
    }
  }

  /** The list comprehension `[x for x in s if keep(x)]`. */
  function Filter<A>(s: seq<A>, keep: A -> bool): seq<A> {
    if s == [] then [] else Filter(s[..|s|-1], keep) + (if keep(s[|s|-1]) then [s[|s|-1]] else [])
  }

  lemma FilterTwo<A>(x: A, y: A, keep: A -> bool)
    ensures Filter([x, y], keep) == (if keep(x) then [x] else []) + (if keep(y) then [y] else [])
  {
    assert [x, y][..1] == [x] && [x][..0] == [];
    assert Filter([x], keep) == if keep(x) then [x] else [];
  }

  lemma FilterStep<A>(s: seq<A>, i: nat, keep: A -> bool)
    requires i < |s|
    ensures Filter(s[..i+1], keep) == Filter(s[..i], keep) + (if keep(s[i]) then [s[i]] else [])
  {
    assert s[..i+1][..i] == s[..i];
  }

  lemma {:induction false} FilterMember<A>(s: seq<A>, keep: A -> bool)
    ensures forall x :: x in Filter(s, keep) <==> x in s && keep(x)
  {
    if s != [] {
      var last := |s| - 1;
      FilterMember(s[..last], keep);
      assert s == s[..last] + [s[last]];
    }
  }

  lemma {:induction false} FilterAgree<A>(s: seq<A>, f: A -> bool, g: A -> bool)
    requires forall x :: x in s ==> f(x) == g(x)
    ensures Filter(s, f) == Filter(s, g)
  {
    if s != [] {
      FilterAgree(s[..|s|-1], f, g);
    }
  }

  /** Keeping exactly what comes at or after position m. */
  lemma {:induction false} FilterSuffix<A>(s: seq<A>, m: nat, keep: A -> bool)
    requires m <= |s| && forall i :: 0 <= i < |s| ==> (keep(s[i]) <==> m <= i)
    ensures Filter(s, keep) == s[m..]
  {
    if m == |s| {
      FilterNothing(s, keep);
    } else {
      var last := |s| - 1;
      FilterSuffix(s[..last], m, keep);
      assert s[m..] == s[..last][m..] + [s[last]];
    }
  }

  lemma {:induction false} FilterNothing<A>(s: seq<A>, keep: A -> bool)
    requires forall i :: 0 <= i < |s| ==> !keep(s[i])
    ensures Filter(s, keep) == []
  {
    if s != [] {
      FilterNothing(s[..|s|-1], keep);
    }
  }

  /** The list comprehension `[f(x) for x in s]`. */
  function Map<A, B>(s: seq<A>, f: A -> B): (r: seq<B>)
    ensures |r| == |s| && forall i :: 0 <= i < |s| ==> r[i] == f(s[i])
  {
    seq(|s|, i requires 0 <= i < |s| => f(s[i]))
  }

  /** A Python dictionary: keys in insertion order, a later value replaces an earlier one in place. */
  type Dict<K, V> = seq<(K, V)>

  function Put<K(==), V>(d: Dict<K, V>, k: K, v: V): Dict<K, V> {
    if d == [] then [(k, v)]
    else if d[0].0 == k then [(k, v)] + d[1..]
    else [d[0]] + Put(d[1..], k, v)
  }

  function Get<K(==), V>(d: Dict<K, V>, k: K): Option<V> {
    if d == [] then None
    else if d[0].0 == k then Some(d[0].1)
    else Get(d[1..], k)
  }

  function Values<K, V>(d: Dict<K, V>): seq<V> {
    Map(d, (e: (K, V)) => e.1)
  }

  /** The dictionary comprehension `{key(x): x for x in s}`. */
  function ByKey<K(==), V>(s: seq<V>, key: V -> K): Dict<K, V> {
    if s == [] then [] else Put(ByKey(s[..|s|-1], key), key(s[|s|-1]), s[|s|-1])
  }

  lemma {:induction false} GetPut<K, V>(d: Dict<K, V>, k: K, v: V, k': K)
    ensures Get(Put(d, k, v), k') == if k' == k then Some(v) else Get(d, k')
  {
    if d != [] && d[0].0 != k {
      GetPut(d[1..], k, v, k');
    }
  }

  lemma {:induction false} PutMember<K, V>(d: Dict<K, V>, k: K, v: V)
    ensures (k, v) in Put(d, k, v)
    ensures forall e :: e in Put(d, k, v) ==> e == (k, v) || (e in d && (Keyed(d) ==> e.0 != k))
    ensures forall e :: e in d && e.0 != k ==> e in Put(d, k, v)
    ensures Keyed(d) ==> Keyed(Put(d, k, v))
  {
    if d != [] && d[0].0 != k {
      PutMember(d[1..], k, v);
      if Keyed(d) {
        var r := Put(d[1..], k, v);
        forall j | 0 <= j < |r| ensures r[j].0 != d[0].0 {
          assert r[j] in r;
        }
      }
    }
  }

  predicate Keyed<K(==), V>(d: Dict<K, V>) {
    forall i, j :: 0 <= i < j < |d| ==> d[i].0 != d[j].0
  }

  lemma {:induction false} GetMember<K, V>(d: Dict<K, V>, k: K)
    ensures Get(d, k).None? <==> forall e :: e in d ==> e.0 != k
    ensures Get(d, k).Some? ==> (k, Get(d, k).value) in d
    ensures forall v :: Keyed(d) && (k, v) in d ==> Get(d, k) == Some(v)
  {
    if d != [] && d[0].0 != k {
      GetMember(d[1..], k);
    }
  }

  /** What a comprehension dictionary holds, and that distinct keys make it exact. */
  lemma {:induction false} ByKeyLookup<K, V>(s: seq<V>, key: V -> K, k: K)
    ensures Keyed(ByKey(s, key))
    ensures forall e :: e in ByKey(s, key) ==> e.1 in s && key(e.1) == e.0
    ensures Get(ByKey(s, key), k).Some? ==>
              var v := Get(ByKey(s, key), k).value; v in s && key(v) == k
    ensures Get(ByKey(s, key), k).Some? <==> exists x :: x in s && key(x) == k
  {
    if s != [] {
      var last := |s| - 1;
      ByKeyLookup(s[..last], key, k);
      GetPut(ByKey(s[..last], key), key(s[last]), s[last], k);
      PutMember(ByKey(s[..last], key), key(s[last]), s[last]);
      assert s == s[..last] + [s[last]];
    }
  }

  lemma ByKeyExact<K, V>(s: seq<V>, key: V -> K, x: V)
    requires x in s
    requires forall y :: y in s && key(y) == key(x) ==> y == x
    ensures Get(ByKey(s, key), key(x)) == Some(x)
  {
    ByKeyLookup(s, key, key(x));
  }

  lemma ValuesMember<K, V>(d: Dict<K, V>, v: V)
    ensures v in Values(d) <==> exists e :: e in d && e.1 == v
  {
    var vs := Values(d);
    if v in vs {
      var i :| 0 <= i < |vs| && vs[i] == v;
      assert d[i] in d;
    }
    if e :| e in d && e.1 == v {
      var i :| 0 <= i < |d| && d[i] == e;
      assert vs[i] == v;
    }
  }
}
