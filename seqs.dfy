/**
 * The standard-library sequence operations the core is built from:
 * `filter`, `compactMap`, `reduce` as a sum, and `max()`.  Each is defined
 * by a left-to-right pass (the last element is peeled off, so positions do
 * not shift) and is related to an independent description of its result.
 */
module Seqs {
  import opened Wrappers

  // ---------------------------------------------------------------------
  // filter
  // ---------------------------------------------------------------------

  /** `s.filter(keep)`. */
  function Filter<T>(s: seq<T>, keep: T -> bool): (r: seq<T>)
    ensures |r| <= |s|
    ensures forall k :: 0 <= k < |r| ==> r[k] in s && keep(r[k])
    ensures forall i :: 0 <= i < |s| && keep(s[i]) ==> s[i] in r
  {
    if s == [] then []
    else
      var n := |s| - 1;
      Filter(s[..n], keep) + (if keep(s[n]) then [s[n]] else [])
  }

  /** The positions, in ascending order, of the elements `keep` accepts. */
  function KeptIndices<T>(s: seq<T>, keep: T -> bool): (idx: seq<int>)
    ensures |idx| == |Filter(s, keep)|
    ensures forall k :: 0 <= k < |idx| ==> 0 <= idx[k] < |s|
  {
    if s == [] then []
    else
      var n := |s| - 1;
      KeptIndices(s[..n], keep) + (if keep(s[n]) then [n] else [])
  }

  /** `idx` lists strictly ascending positions of `s` at which `r` finds its elements in turn. */
  ghost predicate Embeds<T>(idx: seq<int>, r: seq<T>, s: seq<T>)
  {
    && |idx| == |r|
    && (forall k :: 0 <= k < |idx| ==> 0 <= idx[k] < |s| && r[k] == s[idx[k]])
    && (forall j, k :: 0 <= j < k < |idx| ==> idx[j] < idx[k])
  }

  lemma {:induction false} KeptIndicesAscending<T>(s: seq<T>, keep: T -> bool)
    ensures forall j, k :: 0 <= j < k < |KeptIndices(s, keep)| ==> KeptIndices(s, keep)[j] < KeptIndices(s, keep)[k]
  {
    if s != [] {
      KeptIndicesAscending(s[..|s| - 1], keep);
    }
  }

  /** Each element of the result sits in the input at the matching kept position. */
  lemma {:induction false} KeptIndicesLocate<T>(s: seq<T>, keep: T -> bool)
    ensures forall k :: 0 <= k < |KeptIndices(s, keep)| ==> Filter(s, keep)[k] == s[KeptIndices(s, keep)[k]]
  {
    if s != [] {
      var n := |s| - 1;
      var init := s[..n];
      KeptIndicesLocate(init, keep);
      var idx0, r0 := KeptIndices(init, keep), Filter(init, keep);
      var idx, r := KeptIndices(s, keep), Filter(s, keep);
      forall k | 0 <= k < |idx0|
        ensures r[k] == s[idx[k]]
      {
        assert idx[k] == idx0[k] && r[k] == r0[k] && init[idx0[k]] == s[idx0[k]];
      }
    }
  }

  /** A position is kept exactly when `keep` accepts the element there. */
  lemma {:induction false} KeptIndicesExact<T>(s: seq<T>, keep: T -> bool)
    ensures forall i :: 0 <= i < |s| ==> (i in KeptIndices(s, keep) <==> keep(s[i]))
  {
    if s != [] {
      var n := |s| - 1;
      var init := s[..n];
      KeptIndicesExact(init, keep);
      var idx0, idx := KeptIndices(init, keep), KeptIndices(s, keep);
      forall i | 0 <= i < n
        ensures i in idx <==> keep(s[i])
      {
        assert init[i] == s[i];
        assert i in idx <==> i in idx0;
      }
    }
  }

  /**
   * `filter` returns the subsequence made of exactly the accepted elements,
   * in their original relative order.
   */
  lemma FilterIsOrderedSelection<T>(s: seq<T>, keep: T -> bool)
    ensures Embeds(KeptIndices(s, keep), Filter(s, keep), s)
    ensures forall i :: 0 <= i < |s| ==> (i in KeptIndices(s, keep) <==> keep(s[i]))
  {
    KeptIndicesAscending(s, keep);
    KeptIndicesLocate(s, keep);
    KeptIndicesExact(s, keep);
  }

  /** A list whose every element is accepted comes back whole. */
  lemma {:induction false} FilterKeepsAll<T>(s: seq<T>, keep: T -> bool)
    requires forall i :: 0 <= i < |s| ==> keep(s[i])
    ensures Filter(s, keep) == s
  {
    if s != [] {
      var n := |s| - 1;
      FilterKeepsAll(s[..n], keep);
      assert s[..n] + [s[n]] == s;
    }
  }

  /** Filtering distributes over concatenation. */
  lemma {:induction false} FilterAppend<T>(a: seq<T>, b: seq<T>, keep: T -> bool)
    ensures Filter(a + b, keep) == Filter(a, keep) + Filter(b, keep)
    decreases |b|
  {
    if b == [] {
      assert a + b == a;
    } else {
      var n := |b| - 1;
      assert (a + b)[..|a + b| - 1] == a + b[..n];
      FilterAppend(a, b[..n], keep);
    }
  }

  // ---------------------------------------------------------------------
  // compactMap
  // ---------------------------------------------------------------------

  /** `s.compactMap(f)`: the present results of `f`, in order. */
  function CompactMap<T, U>(s: seq<T>, f: T -> Option<U>): (r: seq<U>)
    ensures |r| <= |s|
  {
    if s == [] then []
    else
      var n := |s| - 1;
      CompactMap(s[..n], f) + (if f(s[n]).Some? then [f(s[n]).value] else [])
  }

  /** Every result comes from some element, and every present value of `f` is collected. */
  lemma {:induction false} CompactMapMembers<T, U>(s: seq<T>, f: T -> Option<U>)
    ensures forall y :: y in CompactMap(s, f) ==> exists x :: x in s && f(x) == Some(y)
    ensures forall x :: x in s && f(x).Some? ==> f(x).value in CompactMap(s, f)
  {
    if s != [] {
      var n := |s| - 1;
      CompactMapMembers(s[..n], f);
      assert forall x :: x in s <==> x in s[..n] || x == s[n];
    }
  }

  /** An element that `f` maps to nothing can be dropped without changing the result. */
  lemma {:induction false} CompactMapSkipsAbsent<T, U>(a: seq<T>, x: T, b: seq<T>, f: T -> Option<U>)
    requires f(x).None?
    ensures CompactMap(a + [x] + b, f) == CompactMap(a + b, f)
    decreases |b|
  {
    if b == [] {
      assert (a + [x] + b)[..|a|] == a;
      assert a + b == a;
    } else {
      var n := |b| - 1;
      assert (a + [x] + b)[..|a| + 1 + n] == a + [x] + b[..n];
      assert (a + b)[..|a| + n] == a + b[..n];
      CompactMapSkipsAbsent(a, x, b[..n], f);
    }
  }

  /** Two lists that `f` maps alike, position by position, compact to the same result. */
  lemma {:induction false} CompactMapAgrees<T, U>(a: seq<T>, b: seq<T>, f: T -> Option<U>)
    requires |a| == |b|
    requires forall i :: 0 <= i < |a| ==> f(a[i]) == f(b[i])
    ensures CompactMap(a, f) == CompactMap(b, f)
  {
    if a != [] {
      var n := |a| - 1;
      CompactMapAgrees(a[..n], b[..n], f);
    }
  }

  /** The elements to which `f` gives a value. */
  function Present<T, U>(f: T -> Option<U>): T -> bool
  {
    x => f(x).Some?
  }

  /**
   * `compactMap` is `filter` on the elements with a value, then unwrapping:
   * one result per such element, at the same position among them, so order
   * and repetitions are kept.
   */
  lemma {:induction false} CompactMapIsFilteredValues<T, U>(s: seq<T>, f: T -> Option<U>)
    ensures |CompactMap(s, f)| == |Filter(s, Present(f))|
    ensures forall k :: 0 <= k < |CompactMap(s, f)| ==> f(Filter(s, Present(f))[k]) == Some(CompactMap(s, f)[k])
  {
    if s != [] {
      var n := |s| - 1;
      CompactMapIsFilteredValues(s[..n], f);
    }
  }

  // ---------------------------------------------------------------------
  // reduce(0) { $0 + value($1) } and the guarded mean
  // ---------------------------------------------------------------------

  /** The fold `reduce(0) { $0 + value($1) }`. */
  function SumBy<T>(s: seq<T>, value: T -> int): int
  {
    if s == [] then 0 else SumBy(s[..|s| - 1], value) + value(s[|s| - 1])
  }

  /** `value` of an element's `f`-result, or 0 when it has none. */
  function ValueOrZero<T, U>(f: T -> Option<U>, value: U -> int): T -> int
  {
    x => if f(x).Some? then value(f(x).value) else 0
  }

  /** Summing over the compacted values is summing over the whole list with absent values counted as 0. */
  lemma {:induction false} SumByCompactMap<T, U>(s: seq<T>, f: T -> Option<U>, value: U -> int)
    ensures SumBy(CompactMap(s, f), value) == SumBy(s, ValueOrZero(f, value))
  {
    if s != [] {
      var n := |s| - 1;
      SumByCompactMap(s[..n], f, value);
      var init := CompactMap(s[..n], f);
      assert SumBy(s, ValueOrZero(f, value)) == SumBy(s[..n], ValueOrZero(f, value)) + ValueOrZero(f, value)(s[n]);
      if f(s[n]).Some? {
        var r := init + [f(s[n]).value];
        assert r[..|r| - 1] == init;
        assert SumBy(r, value) == SumBy(init, value) + value(f(s[n]).value);
      } else {
        assert CompactMap(s, f) == init + [] == init;
      }
    }
  }

  /** A sum of `n` values between `lo` and `hi` lies between `n * lo` and `n * hi`. */
  lemma {:induction false} SumByBounds<T>(s: seq<T>, value: T -> int, lo: int, hi: int)
    requires forall i :: 0 <= i < |s| ==> lo <= value(s[i]) <= hi
    ensures |s| * lo <= SumBy(s, value) <= |s| * hi
  {
    if s != [] {
      var n := |s| - 1;
      SumByBounds(s[..n], value, lo, hi);
      assert n * lo + lo == |s| * lo && n * hi + hi == |s| * hi;
    }
  }

  /** The averages' shape: 0 for no values, otherwise the sum over the count. */
  function MeanBy<T>(s: seq<T>, value: T -> int): (r: real)
    ensures s == [] ==> r == 0.0
    ensures s != [] ==> r * |s| as real == SumBy(s, value) as real
  {
    if s == [] then 0.0 else SumBy(s, value) as real / |s| as real
  }

  /**
   * The mean of the compacted values is the sum over the whole list, absent
   * values counted as 0, divided by the number of elements that have a value.
   */
  lemma MeanByCompactMap<T, U>(s: seq<T>, f: T -> Option<U>, value: U -> int)
    requires Filter(s, Present(f)) != []
    ensures MeanBy(CompactMap(s, f), value) == SumBy(s, ValueOrZero(f, value)) as real / |Filter(s, Present(f))| as real
  {
    var c := CompactMap(s, f);
    CompactMapIsFilteredValues(s, f);
    SumByCompactMap(s, f, value);
    assert c != [];
    assert MeanBy(c, value) == SumBy(c, value) as real / |c| as real;
  }

  /** A non-empty mean lies between any lower and upper bound of its values. */
  lemma MeanByBounds<T>(s: seq<T>, value: T -> int, lo: int, hi: int)
    requires s != []
    requires forall i :: 0 <= i < |s| ==> lo <= value(s[i]) <= hi
    ensures lo as real <= MeanBy(s, value) <= hi as real
  {
    SumByBounds(s, value, lo, hi);
    QuotientBounds(SumBy(s, value), |s|, lo, hi);
  }

  /** A total of `n` values between `lo` and `hi`, divided by `n`, lies between `lo` and `hi`. */
  lemma QuotientBounds(total: int, n: int, lo: int, hi: int)
    requires n > 0 && n * lo <= total <= n * hi
    ensures lo as real <= total as real / n as real <= hi as real
  {
    var m, c := total as real / n as real, n as real;
    assert m * c == total as real;
    CastProduct(lo, n);
    CastProduct(hi, n);
    if m < lo as real {
      ScaleStrict(m, lo as real, c);
      assert false;
    }
    if hi as real < m {
      ScaleStrict(hi as real, m, c);
      assert false;
    }
  }

  /** Converting a product to a real is the product of the conversions. */
  lemma CastProduct(a: int, b: int)
    ensures (a * b) as real == (a as real) * (b as real)
  {
  }

  /** Multiplying by a positive factor keeps a strict order. */
  lemma ScaleStrict(a: real, b: real, c: real)
    requires c > 0.0 && a < b
    ensures a * c < b * c
  {
  }

  // ---------------------------------------------------------------------
  // max()
  // ---------------------------------------------------------------------

  /** `xs.max()`: the largest value, or nothing for an empty list. */
  function Max(xs: seq<real>): (r: Option<real>)
    ensures r.None? <==> xs == []
    ensures r.Some? ==> r.value in xs && forall x :: x in xs ==> x <= r.value
  {
    if xs == [] then None
    else
      var n := |xs| - 1;
      assert forall x :: x in xs <==> x in xs[..n] || x == xs[n];
      match Max(xs[..n])
      case None => Some(xs[n])
      case Some(m) => Some(if xs[n] > m then xs[n] else m)
  }
}
