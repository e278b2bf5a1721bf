/** The "first occurrence of each key wins" policy shared by both deduplicators of the core.
    An item's key is `Some(k)`, or `None` for an item that is never compared and always kept.
    `Kept(xs, keyOf, n)` is the reference definition: the items among the first `n` that no
    earlier item shares a key with, in their original order. */
module Dedupe {
  import opened Common

  /** No item before index `i` has the key of `xs[i]`. */
  predicate FirstOfKey<T, K(==)>(xs: seq<T>, keyOf: T -> Option<K>, i: nat)
    requires i < |xs|
  {
    keyOf(xs[i]).None? || forall j :: 0 <= j < i ==> keyOf(xs[j]) != keyOf(xs[i])
  }

  /** The items of `xs[..n]` that are first of their key, in order. */
  function Kept<T, K(==)>(xs: seq<T>, keyOf: T -> Option<K>, n: nat): (r: seq<T>)
    requires n <= |xs|
    ensures |r| <= n
    decreases n
  {
    if n == 0 then []
    else Kept(xs, keyOf, n - 1) + (if FirstOfKey(xs, keyOf, n - 1) then [xs[n - 1]] else [])
  }

  /** The keys carried by the items of `xs[..n]`. */
  function KeysOf<T, K>(xs: seq<T>, keyOf: T -> Option<K>, n: nat): set<K>
    requires n <= |xs|
    decreases n
  {
    if n == 0 then {}
    else KeysOf(xs, keyOf, n - 1) + (match keyOf(xs[n - 1]) case Some(k) => {k} case None => {})
  }

  /** No two items of `ys` share a key. */
  predicate DistinctKeys<T, K(==)>(ys: seq<T>, keyOf: T -> Option<K>) {
    forall i, j :: 0 <= i < j < |ys| && keyOf(ys[j]).Some? ==> keyOf(ys[i]) != keyOf(ys[j])
  }

  /** The items of `ys` that carry no key, in order. */
  function Keyless<T, K>(ys: seq<T>, keyOf: T -> Option<K>): seq<T>
    decreases |ys|
  {
    if ys == [] then []
    else Keyless(ys[..|ys| - 1], keyOf) + (if keyOf(ys[|ys| - 1]).None? then [ys[|ys| - 1]] else [])
  }

  /** `ys` is an order-preserving subsequence of `xs`. */
  predicate IsSubsequence<T(==)>(ys: seq<T>, xs: seq<T>)
    decreases |xs|
  {
    if ys == [] then true
    else if xs == [] then false
    else IsSubsequence(ys, xs[..|xs| - 1])
         || (ys[|ys| - 1] == xs[|xs| - 1] && IsSubsequence(ys[..|ys| - 1], xs[..|xs| - 1]))
  }

  /** A key is among the seen keys exactly when an earlier item carries it. */
  lemma {:induction false} KeysOfMeans<T, K>(xs: seq<T>, keyOf: T -> Option<K>, n: nat, k: K)
    requires n <= |xs|
    ensures k in KeysOf(xs, keyOf, n) <==> exists j :: 0 <= j < n && keyOf(xs[j]) == Some(k)
    decreases n
  {
    if n > 0 {
      KeysOfMeans(xs, keyOf, n - 1, k);
    }
  }

  /** What the deduplicating loops test: an item is first of its key iff it carries no key
      or its key has not been seen yet. */
  lemma FirstOfKeyBySeen<T, K>(xs: seq<T>, keyOf: T -> Option<K>, i: nat)
    requires i < |xs|
    ensures FirstOfKey(xs, keyOf, i) <==> keyOf(xs[i]).None? || keyOf(xs[i]).value !in KeysOf(xs, keyOf, i)
  {
    if keyOf(xs[i]).Some? {
      KeysOfMeans(xs, keyOf, i, keyOf(xs[i]).value);
    }
  }

  /** Every kept item is one of the first `n` input items. */
  lemma {:induction false} KeptFrom<T, K>(xs: seq<T>, keyOf: T -> Option<K>, n: nat, y: T)
    requires n <= |xs|
    requires y in Kept(xs, keyOf, n)
    ensures exists j :: 0 <= j < n && xs[j] == y
    decreases n
  {
    var prev := Kept(xs, keyOf, n - 1);
    if y in prev {
      KeptFrom(xs, keyOf, n - 1, y);
    } else {
      assert xs[n - 1] == y;
    }
  }

  /** The output never holds two items with the same key. */
  lemma {:induction false} KeptDistinct<T, K>(xs: seq<T>, keyOf: T -> Option<K>, n: nat)
    requires n <= |xs|
    ensures DistinctKeys(Kept(xs, keyOf, n), keyOf)
    decreases n
  {
    if n > 0 {
      KeptDistinct(xs, keyOf, n - 1);
      var prev := Kept(xs, keyOf, n - 1);
      if FirstOfKey(xs, keyOf, n - 1) {
        var r := prev + [xs[n - 1]];
        forall i, j | 0 <= i < j < |r| && keyOf(r[j]).Some?
          ensures keyOf(r[i]) != keyOf(r[j])
        {
          if j == |r| - 1 {
            assert r[i] in prev;
            KeptFrom(xs, keyOf, n - 1, r[i]);
          } else {
            assert r[i] == prev[i] && r[j] == prev[j];
          }
        }
      }
    }
  }

  /** Every key of the input is still carried by some kept item. */
  lemma {:induction false} KeptCoversKeys<T, K>(xs: seq<T>, keyOf: T -> Option<K>, n: nat, j: nat)
    requires j < n <= |xs|
    requires keyOf(xs[j]).Some?
    ensures exists y :: y in Kept(xs, keyOf, n) && keyOf(y) == keyOf(xs[j])
    decreases n
  {
    var prev := Kept(xs, keyOf, n - 1);
    assert prev <= Kept(xs, keyOf, n);
    if j < n - 1 {
      KeptCoversKeys(xs, keyOf, n - 1, j);
    } else if FirstOfKey(xs, keyOf, n - 1) {
      assert xs[j] in Kept(xs, keyOf, n);
    } else {
      var i :| 0 <= i < n - 1 && keyOf(xs[i]) == keyOf(xs[j]);
      KeptCoversKeys(xs, keyOf, n - 1, i);
    }
  }

  /** Input without repeated keys comes out unchanged. */
  lemma {:induction false} KeptOfDistinct<T, K>(ys: seq<T>, keyOf: T -> Option<K>, n: nat)
    requires n <= |ys|
    requires DistinctKeys(ys, keyOf)
    ensures Kept(ys, keyOf, n) == ys[..n]
    decreases n
  {
    if n > 0 {
      KeptOfDistinct(ys, keyOf, n - 1);
      assert FirstOfKey(ys, keyOf, n - 1);
      assert ys[..n] == ys[..n - 1] + [ys[n - 1]];
    }
  }

  /** Deduplicating twice is deduplicating once. */
  lemma KeptIdempotent<T, K>(xs: seq<T>, keyOf: T -> Option<K>)
    ensures var once := Kept(xs, keyOf, |xs|); Kept(once, keyOf, |once|) == once
  {
    var once := Kept(xs, keyOf, |xs|);
    KeptDistinct(xs, keyOf, |xs|);
    KeptOfDistinct(once, keyOf, |once|);
    assert once[..|once|] == once;
  }

  /** Items without a key all survive, in their original order. */
  lemma {:induction false} KeptKeepsKeyless<T, K>(xs: seq<T>, keyOf: T -> Option<K>, n: nat)
    requires n <= |xs|
    ensures Keyless(Kept(xs, keyOf, n), keyOf) == Keyless(xs[..n], keyOf)
    decreases n
  {
    if n > 0 {
      KeptKeepsKeyless(xs, keyOf, n - 1);
      var prev := Kept(xs, keyOf, n - 1);
      assert xs[..n][..n - 1] == xs[..n - 1];
      var x := xs[n - 1];
      assert xs[..n] == xs[..n - 1] + [x];
      if FirstOfKey(xs, keyOf, n - 1) {
        var r := prev + [x];
        assert r[..|r| - 1] == prev && r[|r| - 1] == x;
        assert Keyless(r, keyOf) == Keyless(prev, keyOf) + (if keyOf(x).None? then [x] else []);
      } else {
        assert Kept(xs, keyOf, n) == prev;
      }
    }
  }

  /** The output is an order-preserving subsequence of the input. */
  lemma {:induction false} KeptIsSubsequence<T, K>(xs: seq<T>, keyOf: T -> Option<K>, n: nat)
    requires n <= |xs|
    ensures IsSubsequence(Kept(xs, keyOf, n), xs[..n])
    decreases n
  {
    if n > 0 {
      KeptIsSubsequence(xs, keyOf, n - 1);
      var prev := Kept(xs, keyOf, n - 1);
      assert xs[..n][..n - 1] == xs[..n - 1];
      if FirstOfKey(xs, keyOf, n - 1) {
        var r := prev + [xs[n - 1]];
        assert r[..|r| - 1] == prev;
      } else {
        assert Kept(xs, keyOf, n) == prev;
        if prev != [] {
          assert IsSubsequence(prev, xs[..n][..n - 1]);
        }
      }
    }
  }
}
