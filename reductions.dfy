/**
 The numpy reductions the ROI statistics are built from, on the flattened
 (row-major) voxel values `d` and mask weights `w`: `(d * w).sum()`,
 `numpy.average(d, weights=w)`, the boolean selection `d[w > 0]`, and `max`,
 `min` and `numpy.median` of a selection. Arithmetic is exact.
 */
module Reductions {
  import opened Wrappers
  import opened Values

  /** `s.sum()`. */
  function Sum(s: seq<real>): real
  {
    if |s| == 0 then 0.0 else Sum(s[..|s| - 1]) + s[|s| - 1]
  }

  lemma {:induction false} SumAppend(a: seq<real>, b: seq<real>)
    ensures Sum(a + b) == Sum(a) + Sum(b)
  {
    if |b| == 0 {
      assert a + b == a;
    } else {
      assert (a + b)[..|a + b| - 1] == a + b[..|b| - 1];
      SumAppend(a, b[..|b| - 1]);
    }
  }

  /** Scaling every entry scales the sum. */
  lemma {:induction false} SumScaled(s: seq<real>, w: seq<real>, c: real)
    requires |s| == |w|
    requires forall i :: 0 <= i < |s| ==> s[i] == c * w[i]
    ensures Sum(s) == c * Sum(w)
  {
    if |s| > 0 {
      SumScaled(s[..|s| - 1], w[..|w| - 1], c);
    }
  }

  lemma {:induction false} SumNonNegative(s: seq<real>)
    requires forall i :: 0 <= i < |s| ==> s[i] >= 0.0
    ensures Sum(s) >= 0.0
  {
    if |s| > 0 {
      SumNonNegative(s[..|s| - 1]);
    }
  }

  /** A sum of non-negative terms is zero only when every term is. */
  lemma {:induction false} SumZeroTerms(s: seq<real>, k: nat)
    requires forall i :: 0 <= i < |s| ==> s[i] >= 0.0
    requires Sum(s) == 0.0 && k < |s|
    ensures s[k] == 0.0
  {
    SumNonNegative(s[..|s| - 1]);
    if k < |s| - 1 {
      SumZeroTerms(s[..|s| - 1], k);
    }
  }

  /** Number of true entries. */
  function Count(b: seq<bool>): nat
  {
    if |b| == 0 then 0 else Count(b[..|b| - 1]) + (if b[|b| - 1] then 1 else 0)
  }

  /**
   A sequence that holds `c` where `guard && b[k]` and zero elsewhere sums to
   `c` times the number of true entries of `b`, or to zero without the guard.
   */
  lemma {:induction false} SumGuarded(s: seq<real>, b: seq<bool>, c: real, guard: bool)
    requires |s| == |b|
    requires forall k :: 0 <= k < |s| ==> s[k] == if guard && b[k] then c else 0.0
    ensures Sum(s) == if guard then Count(b) as real * c else 0.0
  {
    if |s| > 0 {
      var n := |s| - 1;
      SumGuarded(s[..n], b[..n], c, guard);
      AddOne(Count(b[..n]), c, b[n]);
    }
  }

  lemma AddOne(n: nat, c: real, one: bool)
    ensures n as real * c + (if one then c else 0.0) == (n + if one then 1 else 0) as real * c
  {
  }

  /** Every entry is 0 or 1. */
  ghost predicate Binary(s: seq<real>)
  {
    forall i :: 0 <= i < |s| ==> s[i] == 0.0 || s[i] == 1.0
  }

  lemma BinaryAppend(a: seq<real>, b: seq<real>)
    requires Binary(a) && Binary(b)
    ensures Binary(a + b)
  {
    forall i | 0 <= i < |a + b| ensures (a + b)[i] == 0.0 || (a + b)[i] == 1.0 {
      if i >= |a| {
        assert (a + b)[i] == b[i - |a|];
      }
    }
  }

  /** Non-negative weights sum to zero exactly when every weight is zero. */
  lemma NoWeight(w: seq<real>)
    requires forall i :: 0 <= i < |w| ==> w[i] >= 0.0
    ensures Sum(w) == 0.0 <==> forall i :: 0 <= i < |w| ==> w[i] == 0.0
  {
    if Sum(w) == 0.0 {
      forall i | 0 <= i < |w| ensures w[i] == 0.0 {
        SumZeroTerms(w, i);
      }
    }
    if forall i :: 0 <= i < |w| ==> w[i] == 0.0 {
      SumScaled(w, w, 0.0);
    }
  }

  /** The elementwise product `d * w`. */
  function Products(d: seq<real>, w: seq<real>): (p: seq<real>)
    requires |d| == |w|
    ensures |p| == |d| && forall i :: 0 <= i < |d| ==> p[i] == d[i] * w[i]
  {
    seq(|d|, i requires 0 <= i < |d| => d[i] * w[i])
  }

  /** `(d * w).sum()`. */
  function Dot(d: seq<real>, w: seq<real>): real
    requires |d| == |w|
  {
    Sum(Products(d, w))
  }

  /** With every value equal to `c`, the weighted sum is `c` times the total weight. */
  lemma DotConstant(d: seq<real>, w: seq<real>, c: real)
    requires |d| == |w|
    requires forall i :: 0 <= i < |d| ==> d[i] == c
    ensures Dot(d, w) == c * Sum(w)
  {
    var p := Products(d, w);
    forall i | 0 <= i < |p| ensures p[i] == c * w[i] {
      assert p[i] == d[i] * w[i] && d[i] == c;
    }
    SumScaled(p, w, c);
  }

  /** `numpy.average(d, weights=w)`: `ZeroDivisionError` when the weights sum to zero. */
  function Average(d: seq<real>, w: seq<real>): (r: Result<real, Error>)
    requires |d| == |w|
    ensures r.Err? <==> Sum(w) == 0.0
    ensures r.Err? ==> r.error == ZeroDivisionError
    ensures r.Ok? ==> r.value * Sum(w) == Dot(d, w)
  {
    if Sum(w) == 0.0 then Err(ZeroDivisionError) else Ok(Dot(d, w) / Sum(w))
  }

  lemma Cancel(dot: real, total: real, c: real)
    requires total != 0.0 && dot == c * total
    ensures dot / total == c
  {
  }

  /** The weighted average of constant values is that constant. */
  lemma AverageConstant(d: seq<real>, w: seq<real>, c: real)
    requires |d| == |w|
    requires forall i :: 0 <= i < |d| ==> d[i] == c
    requires Sum(w) != 0.0
    ensures Average(d, w) == Ok(c)
  {
    assert Dot(d, w) / Sum(w) == c by {
      DotConstant(d, w, c);
      Cancel(Dot(d, w), Sum(w), c);
    }
  }

  /** With non-negative weights, the average of non-negative values is non-negative. */
  lemma AverageNonNegative(d: seq<real>, w: seq<real>)
    requires |d| == |w|
    requires forall i :: 0 <= i < |d| ==> d[i] >= 0.0 && w[i] >= 0.0
    requires Sum(w) != 0.0
    ensures Average(d, w).Ok? && Average(d, w).value >= 0.0
  {
    SumNonNegative(w);
    var p := Products(d, w);
    forall i | 0 <= i < |p| ensures p[i] >= 0.0 {
      assert p[i] == d[i] * w[i];
    }
    SumNonNegative(p);
  }

  /** The boolean selection `d[w > 0]`, in order. */
  function Selected(d: seq<real>, w: seq<real>): (r: seq<real>)
    requires |d| == |w|
    ensures |r| <= |d|
    ensures forall x :: x in r <==> exists i :: 0 <= i < |d| && w[i] > 0.0 && d[i] == x
  {
    if |d| == 0 then []
    else
      var n := |d| - 1;
      var rest := Selected(d[..n], w[..n]);
      assert forall i :: 0 <= i < n ==> d[..n][i] == d[i] && w[..n][i] == w[i];
      if w[n] > 0.0 then rest + [d[n]] else rest
  }

  /**
   Each value occurs in the selection as often as it occurs at a position of
   positive weight: `d[w > 0]` drops no duplicate and invents none.
   */
  lemma {:induction false} SelectedMultiplicity(d: seq<real>, w: seq<real>, x: real)
    requires |d| == |w|
    ensures multiset(Selected(d, w))[x] == |Positions(d, w, x)|
  {
    if |d| == 0 {
      assert Positions(d, w, x) == {};
    } else {
      var n := |d| - 1;
      SelectedMultiplicity(d[..n], w[..n], x);
      PositionsLast(d, w, x);
      var rest := Selected(d[..n], w[..n]);
      assert Selected(d, w) == if w[n] > 0.0 then rest + [d[n]] else rest;
    }
  }

  /** The positions of positive weight that hold `x`. */
  ghost function Positions(d: seq<real>, w: seq<real>, x: real): set<nat>
    requires |d| == |w|
  {
    set i: nat | i < |d| && w[i] > 0.0 && d[i] == x
  }

  lemma PositionsLast(d: seq<real>, w: seq<real>, x: real)
    requires |d| == |w| > 0
    ensures var n := |d| - 1;
      |Positions(d, w, x)| == |Positions(d[..n], w[..n], x)| + if w[n] > 0.0 && d[n] == x then 1 else 0
  {
    var n := |d| - 1;
    var front := Positions(d[..n], w[..n], x);
    assert front == set i: nat | i < n && w[i] > 0.0 && d[i] == x;
    if w[n] > 0.0 && d[n] == x {
      assert Positions(d, w, x) == front + {n};
    } else {
      assert Positions(d, w, x) == front;
    }
  }

  /** With 0/1 weights, the weighted sum is the sum of the selected values. */
  lemma {:induction false} DotSelected(d: seq<real>, w: seq<real>)
    requires |d| == |w| && Binary(w)
    ensures Dot(d, w) == Sum(Selected(d, w))
  {
    if |d| > 0 {
      var n := |d| - 1;
      assert Binary(w[..n]);
      DotSelected(d[..n], w[..n]);
      assert Products(d, w)[..n] == Products(d[..n], w[..n]);
      var rest := Selected(d[..n], w[..n]);
      if w[n] > 0.0 {
        assert w[n] == 1.0;
        assert (rest + [d[n]])[..|rest|] == rest;
      } else {
        assert w[n] == 0.0;
      }
    }
  }

  /** With 0/1 weights, the total weight is the number of selected values. */
  lemma {:induction false} SelectedCount(d: seq<real>, w: seq<real>)
    requires |d| == |w| && Binary(w)
    ensures Sum(w) == |Selected(d, w)| as real
  {
    if |d| > 0 {
      var n := |d| - 1;
      assert Binary(w[..n]);
      SelectedCount(d[..n], w[..n]);
    }
  }

  /** The selection is empty exactly when no weight is positive. */
  lemma SelectedEmpty(d: seq<real>, w: seq<real>)
    requires |d| == |w|
    ensures |Selected(d, w)| == 0 <==> forall i :: 0 <= i < |w| ==> w[i] <= 0.0
  {
    var r := Selected(d, w);
    if |r| > 0 {
      assert r[0] in r;
    }
    if exists i :: 0 <= i < |w| && w[i] > 0.0 {
      var i :| 0 <= i < |w| && w[i] > 0.0;
      assert d[i] in r;
    }
  }

  /** `s.max()`: a ValueError on a zero-size selection. */
  function MaxOf(s: seq<real>): (r: Result<real, Error>)
    ensures r.Err? <==> |s| == 0
    ensures r.Err? ==> r.error == ValueError(EmptyReduction)
    ensures r.Ok? ==> r.value in s && forall x :: x in s ==> x <= r.value
  {
    if |s| == 0 then Err(ValueError(EmptyReduction))
    else if |s| == 1 then Ok(s[0])
    else
      var m := MaxOf(s[..|s| - 1]).value;
      assert s == s[..|s| - 1] + [s[|s| - 1]];
      Ok(if s[|s| - 1] > m then s[|s| - 1] else m)
  }

  /** `s.min()`: a ValueError on a zero-size selection. */
  function MinOf(s: seq<real>): (r: Result<real, Error>)
    ensures r.Err? <==> |s| == 0
    ensures r.Err? ==> r.error == ValueError(EmptyReduction)
    ensures r.Ok? ==> r.value in s && forall x :: x in s ==> r.value <= x
  {
    if |s| == 0 then Err(ValueError(EmptyReduction))
    else if |s| == 1 then Ok(s[0])
    else
      var m := MinOf(s[..|s| - 1]).value;
      assert s == s[..|s| - 1] + [s[|s| - 1]];
      Ok(if s[|s| - 1] < m then s[|s| - 1] else m)
  }

  ghost predicate Sorted(s: seq<real>)
  {
    forall i, j :: 0 <= i < j < |s| ==> s[i] <= s[j]
  }

  /** Inserts `x` into a sorted sequence. */
  function Insert(x: real, s: seq<real>): (r: seq<real>)
    requires Sorted(s)
    ensures Sorted(r)
    ensures multiset(r) == multiset(s) + multiset{x}
  {
    if |s| == 0 then [x]
    else if x <= s[0] then [x] + s
    else
      var t := Insert(x, s[1..]);
      InsertBehind(x, s, t);
      [s[0]] + t
  }

  /** Putting the head of `s` before the insertion into its tail keeps the order. */
  lemma InsertBehind(x: real, s: seq<real>, t: seq<real>)
    requires Sorted(s) && |s| > 0 && s[0] < x
    requires Sorted(t) && multiset(t) == multiset(s[1..]) + multiset{x}
    ensures Sorted([s[0]] + t)
    ensures multiset([s[0]] + t) == multiset(s) + multiset{x}
  {
    assert s == [s[0]] + s[1..];
    forall k | 0 <= k < |t| ensures s[0] <= t[k] {
      assert t[k] in multiset(t);
      if t[k] != x {
        assert t[k] in multiset(s[1..]);
        var m :| 0 <= m < |s[1..]| && s[1..][m] == t[k];
        assert s[m + 1] == t[k];
      }
    }
  }

  /** The ascending order numpy.median sorts the selection into. */
  function Sort(s: seq<real>): (r: seq<real>)
    ensures Sorted(r)
    ensures multiset(r) == multiset(s)
  {
    if |s| == 0 then []
    else
      assert s == [s[0]] + s[1..];
      Insert(s[0], Sort(s[1..]))
  }

  /**
   `numpy.median(s)`: the middle of the sorted values, or the mean of the two
   middle ones; numpy returns NaN for an empty selection, modelled as None.
   */
  function Median(s: seq<real>): (r: Option<real>)
    ensures r.None? <==> |s| == 0
  {
    if |s| == 0 then None
    else
      var t := Sort(s);
      assert |t| == |multiset(t)| == |multiset(s)| == |s|;
      var n := |t|;
      if n % 2 == 1 then Some(t[n / 2]) else Some((t[n / 2 - 1] + t[n / 2]) / 2.0)
  }

  /** The median lies between two of the selected values. */
  lemma MedianBetween(s: seq<real>)
    requires |s| > 0
    ensures exists a, b :: a in s && b in s && a <= Median(s).value <= b
  {
    var t := Sort(s);
    assert |t| == |multiset(t)| == |multiset(s)| == |s|;
    var n := |t|;
    assert t[n / 2] in multiset(s);
    if n % 2 == 0 {
      assert t[n / 2 - 1] in multiset(s);
      assert t[n / 2 - 1] in s && t[n / 2] in s;
      assert t[n / 2 - 1] <= t[n / 2];
      assert t[n / 2 - 1] <= Median(s).value <= t[n / 2];
    } else {
      assert t[n / 2] in s;
      assert t[n / 2] <= Median(s).value <= t[n / 2];
    }
  }

  /** The median of constant values is that constant. */
  lemma MedianConstant(s: seq<real>, c: real)
    requires |s| > 0
    requires forall i :: 0 <= i < |s| ==> s[i] == c
    ensures Median(s) == Some(c)
  {
    var t := Sort(s);
    assert |t| == |multiset(t)| == |multiset(s)| == |s|;
    forall k | 0 <= k < |t| ensures t[k] == c {
      assert t[k] in multiset(s);
    }
  }
}
