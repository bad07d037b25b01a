/** Concatenating per-element chunks, and what stays true when the order of the elements changes. */
module Seqs {

  /** Concatenation, in the order of `ks`, of `g`'s chunk for each element. */
  function FlatMap<K, T>(ks: seq<K>, g: K -> seq<T>): seq<T>
  {
    if ks == [] then [] else g(ks[0]) + FlatMap(ks[1..], g)
  }

  /** `order` lists every element of `keys` exactly once (Go's range over a map). */
  predicate Enumerates<K(==)>(order: seq<K>, keys: set<K>)
  {
    && (forall i :: 0 <= i < |order| ==> order[i] in keys)
    && (forall k :: k in keys ==> k in order)
    && (forall i, j :: 0 <= i < j < |order| ==> order[i] != order[j])
  }

  lemma {:induction false} FlatMapAppend<K, T>(a: seq<K>, b: seq<K>, g: K -> seq<T>)
    ensures FlatMap(a + b, g) == FlatMap(a, g) + FlatMap(b, g)
  {
    if a == [] {
      assert a + b == b;
    } else {
      assert (a + b)[1..] == a[1..] + b;
      FlatMapAppend(a[1..], b, g);
    }
  }

  lemma FlatMapSnoc<K, T>(a: seq<K>, k: K, g: K -> seq<T>)
    ensures FlatMap(a + [k], g) == FlatMap(a, g) + g(k)
  {
    FlatMapAppend(a, [k], g);
    assert FlatMap([k], g) == g(k) + FlatMap([], g);
  }

  /** An element is in the concatenation exactly when some chunk holds it. */
  lemma {:induction false} FlatMapMembers<K, T>(ks: seq<K>, g: K -> seq<T>, x: T)
    ensures x in FlatMap(ks, g) <==> exists i :: 0 <= i < |ks| && x in g(ks[i])
  {
    if ks != [] {
      FlatMapMembers(ks[1..], g, x);
      if x in FlatMap(ks[1..], g) {
        var i :| 0 <= i < |ks[1..]| && x in g(ks[1..][i]);
        assert x in g(ks[i + 1]);
      }
      if i :| 0 <= i < |ks| && x in g(ks[i]) {
        if i > 0 {
          assert x in g(ks[1..][i - 1]);
        }
      }
    }
  }

  /** The concatenation's elements do not depend on the order of the chunks. */
  lemma {:induction false} FlatMapPermutation<K, T>(ks1: seq<K>, ks2: seq<K>, g: K -> seq<T>)
    requires multiset(ks1) == multiset(ks2)
    ensures multiset(FlatMap(ks1, g)) == multiset(FlatMap(ks2, g))
  {
    if ks1 == [] {
      assert |ks2| == |multiset(ks2)| == 0;
    } else {
      var a := ks1[0];
      assert ks1 == [a] + ks1[1..];
      assert a in multiset(ks2);
      var j :| 0 <= j < |ks2| && ks2[j] == a;
      var before, after := ks2[..j], ks2[j + 1..];
      assert ks2 == before + [a] + after;
      calc {
        multiset{a} + multiset(ks1[1..]);
        multiset(ks1);
        multiset(ks2);
        multiset(before) + multiset{a} + multiset(after);
      }
      assert multiset(before + after) == multiset(before) + multiset(after);
      forall x ensures multiset(ks1[1..])[x] == multiset(before + after)[x] {
        assert (multiset{a} + multiset(ks1[1..]))[x] == (multiset(before) + multiset{a} + multiset(after))[x];
      }
      assert multiset(ks1[1..]) == multiset(before + after);
      FlatMapPermutation(ks1[1..], before + after, g);
      FlatMapAppend(before, after, g);
      FlatMapAppend(before + [a], after, g);
      FlatMapSnoc(before, a, g);
    }
  }

  lemma {:induction false} EnumerationCount<K>(order: seq<K>, keys: set<K>, x: K)
    requires Enumerates(order, keys)
    ensures multiset(order)[x] == if x in keys then 1 else 0
  {
    if order != [] {
      var last := order[|order| - 1];
      var init := order[..|order| - 1];
      assert order == init + [last];
      assert last !in init;
      EnumerationCount(init, keys - {last}, x);
    }
  }

  /** Two enumerations of the same keys are permutations of each other. */
  lemma EnumerationsArePermutations<K>(o1: seq<K>, o2: seq<K>, keys: set<K>)
    requires Enumerates(o1, keys) && Enumerates(o2, keys)
    ensures multiset(o1) == multiset(o2)
  {
    forall x ensures multiset(o1)[x] == multiset(o2)[x] {
      EnumerationCount(o1, keys, x);
      EnumerationCount(o2, keys, x);
    }
  }

  /** An enumeration lists exactly as many elements as the set has. */
  lemma {:induction false} EnumerationLength<K>(order: seq<K>, keys: set<K>)
    requires Enumerates(order, keys)
    ensures |order| == |keys|
  {
    if order != [] {
      var last := order[|order| - 1];
      var init := order[..|order| - 1];
      assert order == init + [last];
      assert Enumerates(init, keys - {last});
      EnumerationLength(init, keys - {last});
    }
  }

  /** When every chunk has at most one element, there are at most as many elements as chunks. */
  lemma {:induction false} FlatMapAtMostOneEach<K, T>(ks: seq<K>, g: K -> seq<T>)
    requires forall i :: 0 <= i < |ks| ==> |g(ks[i])| <= 1
    ensures |FlatMap(ks, g)| <= |ks|
  {
    if ks != [] {
      FlatMapAtMostOneEach(ks[1..], g);
    }
  }

  lemma {:induction false} FlatMapOfEmptyChunks<K, T>(ks: seq<K>, g: K -> seq<T>)
    requires forall i :: 0 <= i < |ks| ==> g(ks[i]) == []
    ensures FlatMap(ks, g) == []
  {
    if ks != [] {
      FlatMapOfEmptyChunks(ks[1..], g);
    }
  }
}
