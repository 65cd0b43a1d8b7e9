/**
 * Order-preserving filtering, the `Array.prototype.filter` and list
 * comprehension `[x for x in s if f(x)]` of the sources, with the facts
 * the rest of the model relies on.
 */
module Seqs {

  function Filter<T(!new)>(f: T -> bool, s: seq<T>): (r: seq<T>)
    ensures |r| <= |s|
    decreases |s|
  {
    if s == [] then [] else (if f(s[0]) then [s[0]] else []) + Filter(f, s[1..])
  }

  /** Every kept element passes the test. */
  lemma FilterAllPass<T(!new)>(f: T -> bool, s: seq<T>)
    ensures forall i :: 0 <= i < |Filter(f, s)| ==> f(Filter(f, s)[i])
  {
    forall i | 0 <= i < |Filter(f, s)| ensures f(Filter(f, s)[i]) {
      FilterMembership(f, s, Filter(f, s)[i]);
    }
  }

  /** An element is kept exactly when it occurs and passes the test. */
  lemma FilterMembership<T(!new)>(f: T -> bool, s: seq<T>, x: T)
    ensures x in Filter(f, s) <==> x in s && f(x)
  {
    FilterMultiset(f, s, x);
  }

  /** Nothing is kept exactly when no element passes the test. */
  lemma FilterEmptyIff<T(!new)>(f: T -> bool, s: seq<T>)
    ensures Filter(f, s) == [] <==> forall i :: 0 <= i < |s| ==> !f(s[i])
  {
    if Filter(f, s) != [] {
      FilterMembership(f, s, Filter(f, s)[0]);
    }
    forall i | 0 <= i < |s| && f(s[i]) ensures Filter(f, s) != [] {
      FilterMembership(f, s, s[i]);
    }
  }

  /** Filtering a concatenation filters each part. */
  lemma {:induction false} FilterConcat<T(!new)>(f: T -> bool, a: seq<T>, b: seq<T>)
    ensures Filter(f, a + b) == Filter(f, a) + Filter(f, b)
    decreases |a|
  {
    if a != [] {
      assert (a + b)[0] == a[0];
      assert (a + b)[1..] == a[1..] + b;
      FilterConcat(f, a[1..], b);
      var h := if f(a[0]) then [a[0]] else [];
      assert Filter(f, a + b) == h + Filter(f, a[1..] + b);
      assert Filter(f, a) == h + Filter(f, a[1..]);
    } else {
      assert a + b == b;
    }
  }

  /** Every kept element is kept as often as it occurs; every other element is gone. */
  lemma {:induction false} FilterMultiset<T(!new)>(f: T -> bool, s: seq<T>, x: T)
    ensures multiset(Filter(f, s))[x] == if f(x) then multiset(s)[x] else 0
    decreases |s|
  {
    if s != [] {
      FilterMultiset(f, s[1..], x);
      assert s == [s[0]] + s[1..];
    }
  }

  /** A filter and its complement split a sequence into two parts that together hold every element. */
  lemma {:induction false} FilterPartition<T(!new)>(f: T -> bool, g: T -> bool, s: seq<T>)
    requires forall x :: g(x) == !f(x)
    ensures multiset(Filter(f, s)) + multiset(Filter(g, s)) == multiset(s)
    ensures |Filter(f, s)| + |Filter(g, s)| == |s|
    decreases |s|
  {
    if s != [] {
      FilterPartition(f, g, s[1..]);
      assert s == [s[0]] + s[1..];
    }
  }

  /** Filtering twice by the same test changes nothing. */
  lemma {:induction false} FilterIdempotent<T(!new)>(f: T -> bool, s: seq<T>)
    ensures Filter(f, Filter(f, s)) == Filter(f, s)
    decreases |s|
  {
    if s != [] {
      FilterIdempotent(f, s[1..]);
      if f(s[0]) {
        var r := Filter(f, s);
        assert r == [s[0]] + Filter(f, s[1..]);
        assert r != [] && r[0] == s[0];
        assert r[1..] == Filter(f, s[1..]);
        assert Filter(f, r) == [s[0]] + Filter(f, r[1..]);
      } else {
        assert Filter(f, s) == Filter(f, s[1..]);
      }
    }
  }

  /** `idx` lists positions of `s` in strictly increasing order. */
  predicate IncreasingIndices<T>(idx: seq<nat>, s: seq<T>) {
    && (forall k :: 0 <= k < |idx| ==> idx[k] < |s|)
    && (forall k, l :: 0 <= k < l < |idx| ==> idx[k] < idx[l])
  }

  function ShiftUp(idx: seq<nat>): (r: seq<nat>)
    ensures |r| == |idx| && forall k :: 0 <= k < |idx| ==> r[k] == idx[k] + 1
  {
    seq(|idx|, k requires 0 <= k < |idx| => idx[k] + 1)
  }

  lemma ShiftUpMember(idx: seq<nat>, j: nat)
    requires j in idx
    ensures j + 1 in ShiftUp(idx)
  {
    var k :| 0 <= k < |idx| && idx[k] == j;
    assert ShiftUp(idx)[k] == j + 1;
  }

  lemma ShiftUpIncreasing<T>(idx: seq<nat>, s: seq<T>)
    requires s != [] && IncreasingIndices(idx, s[1..])
    ensures IncreasingIndices(ShiftUp(idx), s)
    ensures IncreasingIndices([0] + ShiftUp(idx), s)
  {
    var r := [0] + ShiftUp(idx);
    forall k, l | 0 <= k < l < |r| ensures r[k] < r[l] {
      if k > 0 {
        assert r[k] == idx[k - 1] + 1 && r[l] == idx[l - 1] + 1;
      }
    }
  }

  /** The positions of `s` whose elements pass the test, in increasing order. */
  function Positions<T>(f: T -> bool, s: seq<T>): seq<nat>
    decreases |s|
  {
    if s == [] then [] else (if f(s[0]) then [0] else []) + ShiftUp(Positions(f, s[1..]))
  }

  lemma {:induction false} PositionsLength<T(!new)>(f: T -> bool, s: seq<T>)
    ensures |Positions(f, s)| == |Filter(f, s)|
    decreases |s|
  {
    if s != [] {
      PositionsLength(f, s[1..]);
    }
  }

  lemma {:induction false} PositionsIncreasing<T>(f: T -> bool, s: seq<T>)
    ensures IncreasingIndices(Positions(f, s), s)
    decreases |s|
  {
    if s != [] {
      PositionsIncreasing(f, s[1..]);
      ShiftUpIncreasing(Positions(f, s[1..]), s);
    }
  }

  lemma {:induction false} PositionsSelect<T(!new)>(f: T -> bool, s: seq<T>, k: nat)
    requires k < |Positions(f, s)|
    ensures Positions(f, s)[k] < |s| && k < |Filter(f, s)| && Filter(f, s)[k] == s[Positions(f, s)[k]]
    decreases |s|
  {
    PositionsLength(f, s);
    PositionsIncreasing(f, s);
    var rest := s[1..];
    var tail := Positions(f, rest);
    PositionsLength(f, rest);
    if f(s[0]) {
      if k > 0 {
        PositionsSelect(f, rest, k - 1);
        assert Filter(f, s)[k] == Filter(f, rest)[k - 1];
        assert Positions(f, s)[k] == tail[k - 1] + 1;
      }
    } else {
      PositionsSelect(f, rest, k);
      assert Positions(f, s)[k] == tail[k] + 1;
    }
  }

  lemma {:induction false} PositionsComplete<T>(f: T -> bool, s: seq<T>, i: nat)
    requires i < |s| && f(s[i])
    ensures i in Positions(f, s)
    decreases |s|
  {
    if i > 0 {
      assert s[1..][i - 1] == s[i];
      PositionsComplete(f, s[1..], i - 1);
      ShiftUpMember(Positions(f, s[1..]), i - 1);
    }
  }

  /**
   * The filter result is the subsequence of `s` at positions `idx`, and `idx`
   * holds every position whose element passes the test.
   */
  lemma FilterIsSubsequence<T(!new)>(f: T -> bool, s: seq<T>) returns (idx: seq<nat>)
    ensures |idx| == |Filter(f, s)| && IncreasingIndices(idx, s)
    ensures forall k :: 0 <= k < |idx| ==> Filter(f, s)[k] == s[idx[k]]
    ensures forall i :: 0 <= i < |s| && f(s[i]) ==> i in idx
  {
    idx := Positions(f, s);
    PositionsLength(f, s);
    PositionsIncreasing(f, s);
    forall k | 0 <= k < |idx| ensures Filter(f, s)[k] == s[idx[k]] {
      PositionsSelect(f, s, k);
    }
    forall i | 0 <= i < |s| && f(s[i]) ensures i in idx {
      PositionsComplete(f, s, i);
    }
  }

  /** A weaker test keeps at least as many elements. */
  lemma {:induction false} FilterMonotone<T(!new)>(f: T -> bool, g: T -> bool, s: seq<T>)
    requires forall x :: f(x) ==> g(x)
    ensures |Filter(f, s)| <= |Filter(g, s)|
    decreases |s|
  {
    if s != [] {
      FilterMonotone(f, g, s[1..]);
    }
  }

  // ---------------------------------------------------------------------
  // Lexicographic order
  // ---------------------------------------------------------------------

  /** Lexicographic order on integer sequences, Python's `a > b` on tuples of integers: the first difference decides, and a proper prefix is smaller. */
  predicate LexGreater(a: seq<int>, b: seq<int>)
    decreases |a|
  {
    if a == [] then false
    else if b == [] then true
    else if a[0] != b[0] then a[0] > b[0]
    else LexGreater(a[1..], b[1..])
  }

  lemma {:induction false} LexGreaterIrreflexive(a: seq<int>)
    ensures !LexGreater(a, a)
    decreases |a|
  {
    if a != [] {
      LexGreaterIrreflexive(a[1..]);
    }
  }

  /** Exactly one of: equal, greater, smaller. */
  lemma {:induction false} LexGreaterTrichotomy(a: seq<int>, b: seq<int>)
    ensures a == b || LexGreater(a, b) || LexGreater(b, a)
    ensures !(LexGreater(a, b) && LexGreater(b, a))
    decreases |a|
  {
    if a != [] && b != [] && a[0] == b[0] {
      LexGreaterTrichotomy(a[1..], b[1..]);
      if a[1..] == b[1..] {
        assert a == [a[0]] + a[1..] && b == [b[0]] + b[1..];
      }
    }
  }

  lemma {:induction false} LexGreaterTransitive(a: seq<int>, b: seq<int>, c: seq<int>)
    requires LexGreater(a, b) && LexGreater(b, c)
    ensures LexGreater(a, c)
    decreases |a|
  {
    if c != [] && a[0] == b[0] && b[0] == c[0] {
      LexGreaterTransitive(a[1..], b[1..], c[1..]);
    }
  }

  /** Extending a sequence makes it greater, whatever is added. */
  lemma {:induction false} ExtensionIsLexGreater(a: seq<int>, c: seq<int>)
    requires c != []
    ensures LexGreater(a + c, a)
    decreases |a|
  {
    if a != [] {
      assert (a + c)[1..] == a[1..] + c;
      ExtensionIsLexGreater(a[1..], c);
    }
  }

  /** The first differing position decides; that is what the order means. */
  lemma {:induction false} LexGreaterAtFirstDifference(a: seq<int>, b: seq<int>, k: nat)
    requires k <= |a| && k <= |b| && a[..k] == b[..k]
    requires (k < |a| && k < |b| && a[k] > b[k]) || (k == |b| < |a|)
    ensures LexGreater(a, b)
    decreases k
  {
    if k > 0 {
      assert a[0] == a[..k][0] && b[0] == b[..k][0];
      assert a[1..][..k - 1] == a[..k][1..] && b[1..][..k - 1] == b[..k][1..];
      LexGreaterAtFirstDifference(a[1..], b[1..], k - 1);
    }
  }
}
