/**
 * The two functions of Python's `statistics` module the aggregation uses,
 * `mean` and `median`, over exact real numbers, together with `sorted`,
 * which `median` applies to its data first.
 */
module Stats {

  function Sum(xs: seq<real>): real
  {
    if xs == [] then 0.0 else xs[0] + Sum(xs[1..])
  }

  function Min(xs: seq<real>): (lo: real)
    requires xs != []
    ensures lo in xs
    ensures forall i :: 0 <= i < |xs| ==> lo <= xs[i]
  {
    if |xs| == 1 then xs[0]
    else
      var rest := Min(xs[1..]);
      assert forall i :: 1 <= i < |xs| ==> xs[i] == xs[1..][i - 1];
      if xs[0] <= rest then xs[0] else rest
  }

  function Max(xs: seq<real>): (hi: real)
    requires xs != []
    ensures hi in xs
    ensures forall i :: 0 <= i < |xs| ==> xs[i] <= hi
  {
    if |xs| == 1 then xs[0]
    else
      var rest := Max(xs[1..]);
      assert forall i :: 1 <= i < |xs| ==> xs[i] == xs[1..][i - 1];
      if rest <= xs[0] then xs[0] else rest
  }

  ghost predicate Sorted(s: seq<real>)
  {
    forall i, j :: 0 <= i <= j < |s| ==> s[i] <= s[j]
  }

  /** Places `x` in the sorted sequence `s`. */
  function Insert(x: real, s: seq<real>): (r: seq<real>)
    requires Sorted(s)
    ensures Sorted(r)
    ensures multiset(r) == multiset(s) + multiset{x}
  {
    if s == [] then [x]
    else if x <= s[0] then
      ConsSorted(x, s);
      [x] + s
    else
      var tail := Insert(x, s[1..]);
      InsertAbove(s, x, tail);
      ConsSorted(s[0], tail);
      [s[0]] + tail
  }

  /** Putting a lower bound in front of a sorted sequence keeps it sorted. */
  lemma ConsSorted(x: real, t: seq<real>)
    requires Sorted(t)
    requires t != [] ==> x <= t[0]
    ensures Sorted([x] + t)
  {
  }

  /** What `Insert` puts after the head `s[0]` holds `s`'s other values and `x`, all at least `s[0]`. */
  lemma InsertAbove(s: seq<real>, x: real, tail: seq<real>)
    requires Sorted(s) && s != [] && s[0] < x
    requires Sorted(tail) && multiset(tail) == multiset(s[1..]) + multiset{x}
    ensures tail != [] ==> s[0] <= tail[0]
    ensures multiset([s[0]] + tail) == multiset(s) + multiset{x}
  {
    assert s == [s[0]] + s[1..];
    if tail != [] {
      assert tail[0] in multiset(s[1..]) + multiset{x};
    }
  }

  /** Python's `sorted`: the same values in non-decreasing order. */
  function Sort(xs: seq<real>): (s: seq<real>)
    ensures Sorted(s)
    ensures multiset(s) == multiset(xs)
  {
    if xs == [] then []
    else
      assert xs == [xs[0]] + xs[1..];
      Insert(xs[0], Sort(xs[1..]))
  }

  /** `statistics.mean`: the arithmetic mean, which lies between the least and the greatest value. */
  function Mean(xs: seq<real>): (r: real)
    requires xs != []
    ensures Min(xs) <= r <= Max(xs)
  {
    MeanBetween(xs, Min(xs), Max(xs));
    Sum(xs) / |xs| as real
  }

  /** Bounds on every value are bounds on their sum divided by their count. */
  lemma MeanBetween(xs: seq<real>, lo: real, hi: real)
    requires xs != []
    requires forall i :: 0 <= i < |xs| ==> lo <= xs[i] <= hi
    ensures lo <= Sum(xs) / |xs| as real <= hi
  {
    SumBounds(xs, lo, hi);
    QuotientBounds(Sum(xs), |xs| as real, lo, hi);
  }

  /** The mean of a single value is that value. */
  lemma MeanOfOne(x: real)
    ensures Mean([x]) == x
  {
    assert Sum([x]) == x + Sum([]);
  }

  lemma QuotientBounds(a: real, n: real, lo: real, hi: real)
    requires n > 0.0 && n * lo <= a <= n * hi
    ensures lo <= a / n <= hi
  {
  }

  /**
   * `statistics.median`: the middle value of the sorted data when there is
   * an odd number of values, otherwise the mean of the two middle values.
   */
  function Median(xs: seq<real>): (r: real)
    requires xs != []
    ensures Min(xs) <= r <= Max(xs)
    ensures |xs| % 2 == 1 ==> r in xs
  {
    var s := Sort(xs);
    var n := |s|;
    assert |s| == |multiset(s)| == |xs|;
    assert forall i :: 0 <= i < n ==> Min(xs) <= s[i] <= Max(xs) by {
      forall i | 0 <= i < n ensures Min(xs) <= s[i] <= Max(xs) {
        assert s[i] in multiset(xs);
      }
    }
    if n % 2 == 1 then
      assert s[n / 2] in multiset(xs);
      s[n / 2]
    else
      (s[n / 2 - 1] + s[n / 2]) / 2.0
  }

  lemma {:induction false} SumBounds(xs: seq<real>, lo: real, hi: real)
    requires forall i :: 0 <= i < |xs| ==> lo <= xs[i] <= hi
    ensures |xs| as real * lo <= Sum(xs) <= |xs| as real * hi
  {
    if xs != [] {
      SumBounds(xs[1..], lo, hi);
      assert |xs| as real * lo == lo + (|xs| - 1) as real * lo;
      assert |xs| as real * hi == hi + (|xs| - 1) as real * hi;
    }
  }

  lemma {:induction false} SumInsert(x: real, s: seq<real>)
    requires Sorted(s)
    ensures Sum(Insert(x, s)) == x + Sum(s)
  {
    if s != [] && x > s[0] {
      SumInsert(x, s[1..]);
      assert ([s[0]] + Insert(x, s[1..]))[1..] == Insert(x, s[1..]);
    }
  }

  lemma {:induction false} SumSort(xs: seq<real>)
    ensures Sum(Sort(xs)) == Sum(xs)
  {
    if xs != [] {
      SumSort(xs[1..]);
      SumInsert(xs[0], Sort(xs[1..]));
    }
  }

  /** The head of a sorted sequence is its least element. */
  lemma SortedHead(s: seq<real>, x: real)
    requires Sorted(s) && x in multiset(s)
    ensures s != [] && s[0] <= x
  {
    assert x in s;
  }

  /** Dropping the head of a sequence drops one copy of it from the multiset. */
  lemma TailMultiset(s: seq<real>)
    requires s != []
    ensures multiset(s[1..]) == multiset(s) - multiset{s[0]}
  {
    assert s == [s[0]] + s[1..];
  }

  /** The tail of a sorted sequence is sorted. */
  lemma SortedTail(s: seq<real>)
    requires Sorted(s) && s != []
    ensures Sorted(s[1..])
  {
    forall i, j | 0 <= i <= j < |s| - 1 ensures s[1..][i] <= s[1..][j] {
      assert s[1..][i] == s[i + 1] && s[1..][j] == s[j + 1];
    }
  }

  /** Two sorted arrangements of the same values are the same sequence. */
  lemma {:induction false} SortedUnique(s: seq<real>, t: seq<real>)
    requires Sorted(s) && Sorted(t)
    requires multiset(s) == multiset(t)
    ensures s == t
    decreases |s|
  {
    if s == [] || t == [] {
      assert |s| == |multiset(s)| == |multiset(t)| == |t|;
    } else {
      assert s[0] == t[0] by {
        SortedHead(t, s[0]);
        SortedHead(s, t[0]);
      }
      assert multiset(s[1..]) == multiset(t[1..]) by {
        TailMultiset(s);
        TailMultiset(t);
      }
      SortedTail(s);
      SortedTail(t);
      SortedUnique(s[1..], t[1..]);
      assert s == [s[0]] + s[1..];
      assert t == [t[0]] + t[1..];
    }
  }

  /** Sorting forgets the order of its input. */
  lemma SortPermutation(xs: seq<real>, ys: seq<real>)
    requires multiset(xs) == multiset(ys)
    ensures Sort(xs) == Sort(ys)
  {
    SortedUnique(Sort(xs), Sort(ys));
  }

  /** The mean does not depend on the order of the values. */
  lemma MeanPermutation(xs: seq<real>, ys: seq<real>)
    requires xs != [] && multiset(xs) == multiset(ys)
    ensures ys != [] && Mean(xs) == Mean(ys)
  {
    assert |xs| == |multiset(xs)| == |multiset(ys)| == |ys|;
    SortPermutation(xs, ys);
    SumSort(xs);
    SumSort(ys);
  }

  /** The median does not depend on the order of the values. */
  lemma MedianPermutation(xs: seq<real>, ys: seq<real>)
    requires xs != [] && multiset(xs) == multiset(ys)
    ensures ys != [] && Median(xs) == Median(ys)
  {
    assert |xs| == |multiset(xs)| == |multiset(ys)| == |ys|;
    SortPermutation(xs, ys);
  }
}
