/** Counting the entries of a cart: occurrence counts, the quantity map built from them,
    first-occurrence deduplication and sums over both. */
module Tally {

  /** Number of occurrences of x in s, taken from the back (the last entry decides one step). */
  function Count<T(==)>(s: seq<T>, x: T): nat
    decreases |s|
  {
    if s == [] then 0
    else Count(s[..|s| - 1], x) + (if s[|s| - 1] == x then 1 else 0)
  }

  /** Count agrees with the multiplicity of x in the multiset of s. */
  lemma {:induction false} CountIsMultiplicity<T>(s: seq<T>, x: T)
    ensures Count(s, x) == multiset(s)[x]
    decreases |s|
  {
    if s != [] {
      var p, y := s[..|s| - 1], s[|s| - 1];
      CountIsMultiplicity(p, x);
      assert s == p + [y];
      assert multiset(s) == multiset(p) + multiset{y};
    }
  }

  /** An id is counted at least once exactly when it occurs. */
  lemma CountPositive<T>(s: seq<T>, x: T)
    ensures Count(s, x) > 0 <==> x in s
  {
    CountIsMultiplicity(s, x);
  }

  lemma CountSnoc<T>(s: seq<T>, y: T, x: T)
    ensures Count(s + [y], x) == Count(s, x) + (if y == x then 1 else 0)
  {
    assert (s + [y])[..|s + [y]| - 1] == s;
  }

  lemma CountCons<T>(y: T, s: seq<T>, x: T)
    ensures Count([y] + s, x) == (if y == x then 1 else 0) + Count(s, x)
  {
    CountIsMultiplicity([y] + s, x);
    CountIsMultiplicity(s, x);
    assert multiset([y] + s) == multiset{y} + multiset(s);
  }

  lemma CountConcat<T>(a: seq<T>, b: seq<T>, x: T)
    ensures Count(a + b, x) == Count(a, x) + Count(b, x)
  {
    CountIsMultiplicity(a + b, x);
    CountIsMultiplicity(a, x);
    CountIsMultiplicity(b, x);
    assert multiset(a + b) == multiset(a) + multiset(b);
  }

  /** The quantity map of a list of ids: every id that occurs, mapped to its number of
      occurrences. This is the dictionary the cart components build entry by entry. */
  function TallyOf<T(==)>(s: seq<T>): map<T, nat>
  {
    map x | x in s :: Count(s, x)
  }

  /** What one more visited entry does to the quantity map: its count goes up by one,
      starting from zero when it was not yet a key. */
  lemma {:induction false} TallyOfSnoc<T>(s: seq<T>, y: T)
    ensures TallyOf(s + [y]) == TallyOf(s)[y := (if y in TallyOf(s) then TallyOf(s)[y] else 0) + 1]
  {
    var a := TallyOf(s + [y]);
    var b := TallyOf(s)[y := (if y in TallyOf(s) then TallyOf(s)[y] else 0) + 1];
    forall x
      ensures (x in a <==> x in b) && (x in a ==> a[x] == b[x])
    {
      CountSnoc(s, y, x);
      if x == y && y !in s {
        CountPositive(s, y);
      }
    }
    assert a == b;
  }

  /** Every key of the quantity map has a count of at least one, and the keys are exactly
      the ids that occur. */
  lemma TallyOfKeysAndCounts<T>(s: seq<T>)
    ensures forall x :: x in TallyOf(s) <==> x in s
    ensures forall x :: x in TallyOf(s) ==> TallyOf(s)[x] == Count(s, x) >= 1
  {
    forall x | x in s
      ensures Count(s, x) >= 1
    {
      CountPositive(s, x);
    }
  }

  predicate NoDuplicates<T(==)>(s: seq<T>)
  {
    forall i, j :: 0 <= i < j < |s| ==> s[i] != s[j]
  }

  /** The entries of s without repeats, in order of first occurrence: an entry is appended
      when it is met for the first time, as insertion into a JavaScript Set does. */
  function Dedup<T(==,!new)>(s: seq<T>): (d: seq<T>)
    ensures NoDuplicates(d)
    ensures forall x :: x in d <==> x in s
    ensures |d| <= |s|
    decreases |s|
  {
    if s == [] then []
    else
      var p, x := s[..|s| - 1], s[|s| - 1];
      assert s == p + [x];
      var d := Dedup(p);
      if x in d then d else d + [x]
  }

  /** The position of the first occurrence of x in s. */
  function FirstIndex<T(==)>(s: seq<T>, x: T): (k: nat)
    requires x in s
    ensures k < |s| && s[k] == x && x !in s[..k]
    decreases |s|
  {
    var p := s[..|s| - 1];
    if x in p then FirstIndex(p, x) else |s| - 1
  }

  /** Dedup lists the ids in the order in which they first appear. */
  lemma {:induction false} DedupKeepsFirstOccurrenceOrder<T(!new)>(s: seq<T>)
    ensures forall i, j :: 0 <= i < j < |Dedup(s)| ==>
      FirstIndex(s, Dedup(s)[i]) < FirstIndex(s, Dedup(s)[j])
    decreases |s|
  {
    if s != [] {
      var p, x := s[..|s| - 1], s[|s| - 1];
      assert s == p + [x];
      DedupKeepsFirstOccurrenceOrder(p);
      var d := Dedup(p);
      forall y | y in p
        ensures FirstIndex(s, y) == FirstIndex(p, y) < |p|
      {
      }
      if x !in d {
        assert FirstIndex(s, x) == |s| - 1;
      }
    }
  }

  lemma {:induction false} DistinctCardinality<T>(d: seq<T>)
    requires NoDuplicates(d)
    ensures |set x | x in d| == |d|
    decreases |d|
  {
    if d != [] {
      var t := d[1..];
      assert NoDuplicates(t);
      DistinctCardinality(t);
      assert d[0] !in t;
      assert (set x | x in d) == {d[0]} + (set x | x in t);
    }
  }

  /** The deduplicated list is exactly as long as the quantity map has keys. */
  lemma DedupSizeIsKeyCount<T(!new)>(s: seq<T>)
    ensures |Dedup(s)| == |TallyOf(s).Keys|
  {
    var d := Dedup(s);
    DistinctCardinality(d);
    assert TallyOf(s).Keys == set x | x in d;
  }

  /** The sum of w over every entry of s: one term per unit in the cart. */
  function SumOver<T>(s: seq<T>, w: T -> int): int
    decreases |s|
  {
    if s == [] then 0 else SumOver(s[..|s| - 1], w) + w(s[|s| - 1])
  }

  /** The sum, over the listed keys, of w(key) times the key's occurrence count in s. */
  function WeightedCount<T(==)>(keys: seq<T>, s: seq<T>, w: T -> int): int
    decreases |keys|
  {
    if keys == [] then 0 else w(keys[0]) * Count(s, keys[0]) + WeightedCount(keys[1..], s, w)
  }

  lemma {:induction false} WeightedCountSnoc<T>(keys: seq<T>, s: seq<T>, y: T, w: T -> int)
    requires NoDuplicates(keys)
    ensures WeightedCount(keys, s + [y], w) == WeightedCount(keys, s, w) + (if y in keys then w(y) else 0)
    decreases |keys|
  {
    if keys != [] {
      var k, t := keys[0], keys[1..];
      assert NoDuplicates(t);
      WeightedCountSnoc(t, s, y, w);
      CountSnoc(s, y, k);
      assert y in keys <==> y == k || y in t;
      assert k == y ==> y !in t;
      if k == y {
        assert w(k) * Count(s + [y], k) == w(k) * Count(s, k) + w(k);
      }
    }
  }

  lemma {:induction false} WeightedCountAppendKey<T>(keys: seq<T>, k: T, s: seq<T>, w: T -> int)
    ensures WeightedCount(keys + [k], s, w) == WeightedCount(keys, s, w) + w(k) * Count(s, k)
    decreases |keys|
  {
    if keys != [] {
      assert (keys + [k])[1..] == keys[1..] + [k];
      WeightedCountAppendKey(keys[1..], k, s, w);
    }
  }

  /** Weighting each distinct id by its count is the same as summing over every unit. */
  lemma {:induction false} DedupWeightedCount<T(!new)>(s: seq<T>, w: T -> int)
    ensures WeightedCount(Dedup(s), s, w) == SumOver(s, w)
    decreases |s|
  {
    if s != [] {
      var p, x := s[..|s| - 1], s[|s| - 1];
      assert s == p + [x];
      var d := Dedup(p);
      DedupWeightedCount(p, w);
      WeightedCountSnoc(d, p, x, w);
      if x !in d {
        WeightedCountAppendKey(d, x, s, w);
        CountSnoc(p, x, x);
        CountPositive(p, x);
      }
    }
  }

  lemma {:induction false} SumOverOnes<T>(s: seq<T>, w: T -> int)
    requires forall x :: w(x) == 1
    ensures SumOver(s, w) == |s|
    decreases |s|
  {
    if s != [] {
      SumOverOnes(s[..|s| - 1], w);
    }
  }

  /** With every weight 1: the counts of the distinct ids add up to the number of entries. */
  lemma CountsSumToLength<T(!new)>(s: seq<T>)
    ensures WeightedCount(Dedup(s), s, x => 1) == |s|
  {
    DedupWeightedCount(s, x => 1);
    SumOverOnes(s, x => 1);
  }

  lemma {:induction false} WeightedCountConcat<T>(a: seq<T>, b: seq<T>, s: seq<T>, w: T -> int)
    ensures WeightedCount(a + b, s, w) == WeightedCount(a, s, w) + WeightedCount(b, s, w)
    decreases |a|
  {
    if a != [] {
      var ab := a + b;
      assert ab != [] && ab[0] == a[0] && ab[1..] == a[1..] + b;
      WeightedCountConcat(a[1..], b, s, w);
      assert WeightedCount(ab, s, w) == w(a[0]) * Count(s, a[0]) + WeightedCount(a[1..] + b, s, w);
    } else {
      assert a + b == b;
    }
  }

  lemma CancelOne<T>(x: T, t: seq<T>, b1: seq<T>, b2: seq<T>)
    requires multiset([x] + t) == multiset(b1 + [x] + b2)
    ensures multiset(t) == multiset(b1 + b2)
  {
    assert multiset([x] + t) == multiset{x} + multiset(t);
    assert multiset(b1 + [x] + b2) == multiset(b1 + [x]) + multiset(b2);
    assert multiset(b1 + [x]) == multiset(b1) + multiset{x};
    assert multiset(b1 + b2) == multiset(b1) + multiset(b2);
    forall y
      ensures multiset(t)[y] == multiset(b1 + b2)[y]
    {
      assert multiset([x] + t)[y] == multiset(b1 + [x] + b2)[y];
    }
  }

  /** The weighted count does not depend on the order in which the keys are listed. */
  lemma {:induction false} WeightedCountPermutation<T>(a: seq<T>, b: seq<T>, s: seq<T>, w: T -> int)
    requires multiset(a) == multiset(b)
    ensures WeightedCount(a, s, w) == WeightedCount(b, s, w)
    decreases |a|
  {
    if a != [] {
      var x, t := a[0], a[1..];
      assert a == [x] + t;
      assert x in multiset(b);
      var k :| 0 <= k < |b| && b[k] == x;
      var b1, b2 := b[..k], b[k + 1..];
      assert b == b1 + [x] + b2;
      CancelOne(x, t, b1, b2);
      WeightedCountPermutation(t, b1 + b2, s, w);
      WeightedCountConcat(b1, b2, s, w);
      WeightedCountConcat(b1 + [x], b2, s, w);
      WeightedCountConcat(b1, [x], s, w);
    }
  }
}
