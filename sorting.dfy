/** Go's `sort.Sort` and `sort.Strings`: an in-place sort of a slice by
    Go's string order on a key. Go's sort is not stable, so nothing is
    promised about the relative order of elements with equal keys. */
module Sorting {
  import opened StringOps

  /** `s` is non-decreasing in Go's string order on `key`. */
  ghost predicate SortedBy<T>(s: seq<T>, key: T -> string)
  {
    forall i, j :: 0 <= i < j < |s| ==> AtMost(key(s[i]), key(s[j]))
  }

  /** Every pair of positions carries distinct keys. */
  ghost predicate DistinctKeys<T>(s: seq<T>, key: T -> string)
  {
    forall i, j :: 0 <= i < j < |s| ==> key(s[i]) != key(s[j])
  }

  /** The `Swap` of Go's `sort.Interface`. */
  method Swap<T>(a: array<T>, i: int, j: int)
    requires 0 <= i < a.Length && 0 <= j < a.Length
    modifies a
    ensures a[i] == old(a[j]) && a[j] == old(a[i])
    ensures forall k :: 0 <= k < a.Length && k != i && k != j ==> a[k] == old(a[k])
    ensures multiset(a[..]) == old(multiset(a[..]))
  {
    a[i], a[j] := a[j], a[i];
  }

  /** Sorts `a` in place by `key`: the result is ordered and a permutation
      of the input. */
  method SortBy<T>(a: array<T>, key: T -> string)
    modifies a
    ensures SortedBy(a[..], key)
    ensures multiset(a[..]) == old(multiset(a[..]))
  {
    var i := 0;
    while i < a.Length
      invariant 0 <= i <= a.Length
      invariant forall k, l :: 0 <= k < l < i ==> AtMost(key(a[k]), key(a[l]))
      invariant multiset(a[..]) == old(multiset(a[..]))
    {
      var j := i;
      while 0 < j && Less(key(a[j]), key(a[j - 1]))
        invariant 0 <= j <= i
        invariant forall k, l :: 0 <= k < l <= i && l != j ==> AtMost(key(a[k]), key(a[l]))
        invariant forall k, l :: 0 <= k < j < l <= i ==> AtMost(key(a[k]), key(a[l]))
        invariant multiset(a[..]) == old(multiset(a[..]))
      {
        LessAsymmetric(key(a[j]), key(a[j - 1]));
        Swap(a, j - 1, j);
        j := j - 1;
      }
      if 0 < j {
        forall k | 0 <= k < j - 1
          ensures AtMost(key(a[k]), key(a[j]))
        {
          AtMostTransitive(key(a[k]), key(a[j - 1]), key(a[j]));
        }
      }
      i := i + 1;
    }
  }

  /** Two sorted permutations of one sequence whose keys are distinct are
      the same sequence: with distinct keys the sort is deterministic. */
  lemma {:induction false} SortedPermutationUnique<T>(a: seq<T>, b: seq<T>, key: T -> string)
    requires SortedBy(a, key) && SortedBy(b, key)
    requires multiset(a) == multiset(b)
    requires DistinctKeys(a, key)
    ensures a == b
    decreases |a|
  {
    assert |b| == |multiset(b)| == |a|;
    if |a| != 0 {
      SameHead(a, b, key);
      TailMultiset(a, b);
      SortedTail(a, key);
      SortedTail(b, key);
      SortedPermutationUnique(a[1..], b[1..], key);
      assert a == [a[0]] + a[1..] && b == [b[0]] + b[1..];
    }
  }

  lemma SameHead<T>(a: seq<T>, b: seq<T>, key: T -> string)
    requires SortedBy(a, key) && SortedBy(b, key)
    requires multiset(a) == multiset(b) && |a| > 0
    requires DistinctKeys(a, key)
    ensures |b| > 0 && a[0] == b[0]
  {
    assert |b| == |multiset(b)| == |a|;
    assert b[0] in multiset(a);
    var m :| 0 <= m < |a| && a[m] == b[0];
    assert a[0] in multiset(b);
    var n :| 0 <= n < |b| && b[n] == a[0];
    LessIrreflexive(key(a[0]));
    assert AtMost(key(a[0]), key(a[m]));
    assert AtMost(key(b[0]), key(b[n]));
    AtMostAntisymmetric(key(a[0]), key(a[m]));
  }

  lemma TailMultiset<T>(a: seq<T>, b: seq<T>)
    requires multiset(a) == multiset(b) && |a| > 0 && |b| > 0 && a[0] == b[0]
    ensures multiset(a[1..]) == multiset(b[1..])
  {
    assert a == [a[0]] + a[1..] && b == [b[0]] + b[1..];
    assert multiset(a) == multiset{a[0]} + multiset(a[1..]);
    assert multiset(b) == multiset{b[0]} + multiset(b[1..]);
    assert multiset(a[1..]) == multiset(a) - multiset{a[0]};
    assert multiset(b[1..]) == multiset(b) - multiset{b[0]};
  }

  lemma SortedTail<T>(a: seq<T>, key: T -> string)
    requires |a| > 0
    ensures SortedBy(a, key) ==> SortedBy(a[1..], key)
    ensures DistinctKeys(a, key) ==> DistinctKeys(a[1..], key)
  {
    if SortedBy(a, key) {
      forall i, j | 0 <= i < j < |a| - 1
        ensures AtMost(key(a[1..][i]), key(a[1..][j]))
      {
        assert a[1..][i] == a[i + 1] && a[1..][j] == a[j + 1];
      }
    }
    if DistinctKeys(a, key) {
      forall i, j | 0 <= i < j < |a| - 1
        ensures key(a[1..][i]) != key(a[1..][j])
      {
        assert a[1..][i] == a[i + 1] && a[1..][j] == a[j + 1];
      }
    }
  }

  /** Two positions holding one value make it occur twice. */
  lemma TwoPositionsCount<T>(s: seq<T>, i: int, j: int)
    requires 0 <= i < j < |s| && s[i] == s[j]
    ensures multiset(s)[s[i]] >= 2
  {
    assert s == s[..j] + s[j..];
    assert s[i] in s[..j] && s[j] in s[j..];
    assert multiset(s) == multiset(s[..j]) + multiset(s[j..]);
  }

  /** A value occurring twice sits at two positions. */
  lemma CountTwoPositions<T>(s: seq<T>, x: T)
    requires multiset(s)[x] >= 2
    ensures exists i, j :: 0 <= i < j < |s| && s[i] == x && s[j] == x
  {
    assert x in multiset(s);
    var p :| 0 <= p < |s| && s[p] == x;
    assert s == s[..p] + [s[p]] + s[p + 1..];
    assert multiset(s) == multiset(s[..p]) + multiset{x} + multiset(s[p + 1..]);
    if x in s[..p] {
      var i :| 0 <= i < p && s[..p][i] == x;
    } else {
      assert x in s[p + 1..];
      var j :| 0 <= j < |s| - p - 1 && s[p + 1..][j] == x;
      assert s[p + 1 + j] == x;
    }
  }

  /** Distinct keys survive a permutation. */
  lemma DistinctKeysPermutation<T>(a: seq<T>, b: seq<T>, key: T -> string)
    requires multiset(a) == multiset(b) && DistinctKeys(a, key)
    ensures DistinctKeys(b, key)
  {
    forall i, j | 0 <= i < j < |b| && key(b[i]) == key(b[j])
      ensures false
    {
      assert b[i] in multiset(a) && b[j] in multiset(a);
      var p :| 0 <= p < |a| && a[p] == b[i];
      var q :| 0 <= q < |a| && a[q] == b[j];
      assert p == q;
      TwoPositionsCount(b, i, j);
      CountTwoPositions(a, b[i]);
    }
  }
}
