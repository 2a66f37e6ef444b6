/**
 * Walking a finite map in some order. Go randomises the order in which
 * `range` visits a map, so the model takes the order as a parameter and
 * proves here, once and for any element type, what does not depend on it.
 */
module Enumerations {

  /** No key is visited twice. */
  predicate Distinct<K(==)>(order: seq<K>)
  {
    forall i, j :: 0 <= i < j < |order| ==> order[i] != order[j]
  }

  /** The outputs of `f` for the keys in `order`, one after the other. */
  function Flatten<K, V>(order: seq<K>, f: K -> seq<V>): seq<V>
  {
    if order == [] then [] else Flatten(order[..|order| - 1], f) + f(order[|order| - 1])
  }

  /** How many keys in `order` satisfy `p`. */
  function Count<K>(order: seq<K>, p: K -> bool): nat
  {
    if order == [] then 0 else Count(order[..|order| - 1], p) + (if p(order[|order| - 1]) then 1 else 0)
  }

  lemma {:induction false} FlattenAppend<K, V>(u: seq<K>, v: seq<K>, f: K -> seq<V>)
    ensures Flatten(u + v, f) == Flatten(u, f) + Flatten(v, f)
    decreases |v|
  {
    if v == [] {
      assert u + v == u;
    } else {
      var w := v[..|v| - 1];
      FlattenAppend(u, w, f);
      assert (u + v)[..|u + v| - 1] == u + w;
    }
  }

  /** Removing the same key from two equal multisets leaves equal multisets. */
  lemma MultisetCancel<K>(m1: multiset<K>, m2: multiset<K>, x: K)
    requires m1 + multiset{x} == m2 + multiset{x}
    ensures m1 == m2
  {
    forall y ensures m1[y] == m2[y] {
      assert (m1 + multiset{x})[y] == m1[y] + multiset{x}[y];
      assert (m2 + multiset{x})[y] == m2[y] + multiset{x}[y];
    }
  }

  /** Takes the last key of `o1` out of both of two permutations. */
  lemma TakeOutLast<K>(o1: seq<K>, o2: seq<K>) returns (p: seq<K>, x: K, a: seq<K>, b: seq<K>)
    requires o1 != [] && multiset(o1) == multiset(o2)
    ensures o1 == p + [x] && o2 == a + [x] + b
    ensures multiset(p) == multiset(a + b)
  {
    x := o1[|o1| - 1];
    p := o1[..|o1| - 1];
    assert o1 == p + [x];
    assert x in o2 by {
      assert x in multiset(o1);
    }
    var j :| 0 <= j < |o2| && o2[j] == x;
    a, b := o2[..j], o2[j + 1..];
    assert o2 == a + [x] + b;
    assert multiset(p) + multiset{x} == multiset(a + b) + multiset{x} by {
      assert multiset(o1) == multiset(p) + multiset{x};
      assert multiset(o2) == multiset(a) + multiset{x} + multiset(b);
      assert multiset(a + b) == multiset(a) + multiset(b);
    }
    MultisetCancel(multiset(p), multiset(a + b), x);
  }

  /** Permuting the keys permutes the output. */
  lemma {:induction false} FlattenPermutation<K, V>(o1: seq<K>, o2: seq<K>, f: K -> seq<V>)
    requires multiset(o1) == multiset(o2)
    ensures multiset(Flatten(o1, f)) == multiset(Flatten(o2, f))
    decreases |o1|
  {
    if o1 == [] {
      assert |o2| == |multiset(o2)| == 0;
    } else {
      var p, x, a, b := TakeOutLast(o1, o2);
      FlattenPermutation(p, a + b, f);
      FlattenAppend(a, [x], f);
      FlattenAppend(a + [x], b, f);
      FlattenAppend(a, b, f);
      assert [x][..0] == [];
      assert o1[..|o1| - 1] == p;
    }
  }

  lemma {:induction false} FlattenMembers<K, V>(order: seq<K>, f: K -> seq<V>, y: V)
    ensures y in Flatten(order, f) <==> exists k :: k in order && y in f(k)
    decreases |order|
  {
    if order != [] {
      var q, x := order[..|order| - 1], order[|order| - 1];
      FlattenMembers(q, f, y);
      assert order == q + [x];
      if y in Flatten(order, f) && y !in Flatten(q, f) {
        assert x in order && y in f(x);
      }
    }
  }

  /** When every key yields `n` outputs or none, the output has `n` per key satisfying `p`. */
  lemma {:induction false} FlattenLength<K, V>(order: seq<K>, f: K -> seq<V>, p: K -> bool, n: nat)
    requires forall k :: |f(k)| == if p(k) then n else 0
    ensures |Flatten(order, f)| == n * Count(order, p)
    decreases |order|
  {
    if order != [] {
      var q := order[..|order| - 1];
      FlattenLength(q, f, p, n);
      assert n * (Count(q, p) + 1) == n * Count(q, p) + n;
    }
  }

  /** `Flatten` over a walk of three keys. */
  lemma FlattenThree<K, V>(x: K, y: K, z: K, f: K -> seq<V>)
    ensures Flatten([x, y, z], f) == f(x) + f(y) + f(z)
  {
    assert Flatten([x], f) == f(x) by {
      assert [x][..0] == [];
    }
    assert Flatten([x, y], f) == Flatten([x], f) + f(y) by {
      assert [x, y][..1] == [x];
    }
    assert [x, y, z][..2] == [x, y];
  }

  /** One more key adds one to the count when it satisfies `p`. */
  lemma CountSnoc<K>(q: seq<K>, x: K, p: K -> bool)
    ensures Count(q + [x], p) == Count(q, p) + (if p(x) then 1 else 0)
  {
    assert (q + [x])[..|q|] == q;
  }

  /** `Count` over a walk of three keys. */
  lemma CountThree<K>(x: K, y: K, z: K, p: K -> bool)
    ensures Count([x, y, z], p) == (if p(x) then 1 else 0) + (if p(y) then 1 else 0) + (if p(z) then 1 else 0)
  {
    assert Count([x], p) == if p(x) then 1 else 0 by {
      assert [x][..0] == [];
    }
    assert Count([x, y], p) == Count([x], p) + (if p(y) then 1 else 0) by {
      assert [x, y][..1] == [x];
    }
    assert [x, y, z][..2] == [x, y];
  }

  /** The keys in `order` that satisfy `p`. */
  function Selected<K>(order: seq<K>, p: K -> bool): set<K>
  {
    set k | k in order && p(k)
  }

  /** Adding a key not yet visited adds it to the selection when it satisfies `p`. */
  lemma SelectedSnoc<K>(q: seq<K>, x: K, p: K -> bool)
    requires x !in q
    ensures |Selected(q + [x], p)| == |Selected(q, p)| + (if p(x) then 1 else 0)
  {
    var before, after := Selected(q, p), Selected(q + [x], p);
    assert x !in before;
    if p(x) {
      assert after == before + {x};
    } else {
      assert after == before;
    }
  }

  /** Without repeated keys, counting the keys is the size of the set of them. */
  lemma {:induction false} CountIsCardinality<K>(order: seq<K>, p: K -> bool)
    requires Distinct(order)
    ensures Count(order, p) == |Selected(order, p)|
    decreases |order|
  {
    if order != [] {
      var x, q := order[|order| - 1], order[..|order| - 1];
      CountIsCardinality(q, p);
      assert order == q + [x];
      SelectedSnoc(q, x, p);
    }
  }

  lemma {:induction false} DistinctMultiplicity<K>(order: seq<K>, k: K)
    requires Distinct(order)
    ensures multiset(order)[k] == if k in order then 1 else 0
    decreases |order|
  {
    if order != [] {
      var q := order[..|order| - 1];
      assert order == q + [order[|order| - 1]];
      DistinctMultiplicity(q, k);
    }
  }

  /** Two duplicate-free orders of the same keys are permutations of each other. */
  lemma SameKeysArePermutations<K>(o1: seq<K>, o2: seq<K>)
    requires Distinct(o1) && Distinct(o2)
    requires forall k :: k in o1 <==> k in o2
    ensures multiset(o1) == multiset(o2)
  {
    forall k ensures multiset(o1)[k] == multiset(o2)[k] {
      DistinctMultiplicity(o1, k);
      DistinctMultiplicity(o2, k);
    }
  }
}
