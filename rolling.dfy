/**
 * The window primitives the indicators are built from: the trailing
 * rolling mean, maximum and minimum over a fixed window (a row with fewer
 * than `w` rows behind it, itself included, is undefined), and the
 * exponential moving average with `adjust=False`, seeded at the first input.
 * Each primitive is a pure specification and a loop proved equal to it.
 */
module Rolling {
  import opened SeriesStore

  function Sum(s: seq<real>): real
  {
    if s == [] then 0.0 else Sum(s[..|s| - 1]) + s[|s| - 1]
  }

  /** The sum peeled from the front, which the sliding window needs. */
  lemma {:induction false} SumFront(s: seq<real>)
    requires s != []
    ensures Sum(s) == s[0] + Sum(s[1..])
  {
    if |s| == 1 {
      assert s[..0] == [] && s[1..] == [];
    } else {
      var init := s[..|s| - 1];
      SumFront(init);
      assert init[1..] == s[1..][..|s| - 2];
    }
  }

  lemma {:induction false} SumNonNegative(s: seq<real>)
    requires forall i :: 0 <= i < |s| ==> s[i] >= 0.0
    ensures Sum(s) >= 0.0
  {
    if s != [] {
      SumNonNegative(s[..|s| - 1]);
    }
  }

  /** A window of equal values sums to their count times the value. */
  lemma {:induction false} SumOfConstant(s: seq<real>, c: real)
    requires forall i :: 0 <= i < |s| ==> s[i] == c
    ensures Sum(s) == (|s| as real) * c
  {
    if s != [] {
      SumOfConstant(s[..|s| - 1], c);
    }
  }

  /** Largest element; it bounds every element and is one of them. */
  function Max(s: seq<real>): (m: real)
    requires s != []
    ensures forall i :: 0 <= i < |s| ==> s[i] <= m
    ensures exists i :: 0 <= i < |s| && s[i] == m
  {
    if |s| == 1 then s[0]
    else
      var p := Max(s[..|s| - 1]);
      if s[|s| - 1] > p then s[|s| - 1] else p
  }

  /** Smallest element; it bounds every element and is one of them. */
  function Min(s: seq<real>): (m: real)
    requires s != []
    ensures forall i :: 0 <= i < |s| ==> m <= s[i]
    ensures exists i :: 0 <= i < |s| && s[i] == m
  {
    if |s| == 1 then s[0]
    else
      var p := Min(s[..|s| - 1]);
      if s[|s| - 1] < p then s[|s| - 1] else p
  }

  /** Extending a slice by one value: the maximum changes only if that value is larger. */
  lemma MaxStep(x: seq<real>, lo: nat, j: nat)
    requires lo < j < |x|
    ensures Max(x[lo .. j + 1]) == if x[j] > Max(x[lo .. j]) then x[j] else Max(x[lo .. j])
  {
    assert x[lo .. j + 1][.. j - lo] == x[lo .. j];
  }

  /** Extending a slice by one value: the minimum changes only if that value is smaller. */
  lemma MinStep(x: seq<real>, lo: nat, j: nat)
    requires lo < j < |x|
    ensures Min(x[lo .. j + 1]) == if x[j] < Min(x[lo .. j]) then x[j] else Min(x[lo .. j])
  {
    assert x[lo .. j + 1][.. j - lo] == x[lo .. j];
  }

  /** The `w` values ending at row `t`. */
  function Window(x: seq<real>, w: nat, t: nat): (r: seq<real>)
    requires 1 <= w <= t + 1 <= |x|
    ensures |r| == w && r[w - 1] == x[t]
  {
    x[t + 1 - w .. t + 1]
  }

  function MeanAt(x: seq<real>, w: nat, t: nat): Option<real>
    requires w >= 1 && t < |x|
  {
    if t + 1 >= w then Some(Sum(Window(x, w, t)) / w as real) else None
  }

  function MaxAt(x: seq<real>, w: nat, t: nat): Option<real>
    requires w >= 1 && t < |x|
  {
    if t + 1 >= w then Some(Max(Window(x, w, t))) else None
  }

  function MinAt(x: seq<real>, w: nat, t: nat): Option<real>
    requires w >= 1 && t < |x|
  {
    if t + 1 >= w then Some(Min(Window(x, w, t))) else None
  }

  /** `x.rolling(window=w).mean()` */
  function RollingMean(x: seq<real>, w: nat): (r: Column)
    requires w >= 1
    ensures |r| == |x| && forall t :: 0 <= t < |x| ==> r[t] == MeanAt(x, w, t)
  {
    seq(|x|, t requires 0 <= t < |x| => MeanAt(x, w, t))
  }

  /** `x.rolling(window=w).max()` */
  function RollingMax(x: seq<real>, w: nat): (r: Column)
    requires w >= 1
    ensures |r| == |x| && forall t :: 0 <= t < |x| ==> r[t] == MaxAt(x, w, t)
  {
    seq(|x|, t requires 0 <= t < |x| => MaxAt(x, w, t))
  }

  /** `x.rolling(window=w).min()` */
  function RollingMin(x: seq<real>, w: nat): (r: Column)
    requires w >= 1
    ensures |r| == |x| && forall t :: 0 <= t < |x| ==> r[t] == MinAt(x, w, t)
  {
    seq(|x|, t requires 0 <= t < |x| => MinAt(x, w, t))
  }

  /** A rolling mean of non-negative values is non-negative where defined. */
  lemma RollingMeanNonNegative(x: seq<real>, w: nat)
    requires w >= 1
    requires forall i :: 0 <= i < |x| ==> x[i] >= 0.0
    ensures forall t :: 0 <= t < |x| && RollingMean(x, w)[t].Some? ==> RollingMean(x, w)[t].value >= 0.0
  {
    forall t | 0 <= t < |x| && t + 1 >= w
      ensures Sum(Window(x, w, t)) >= 0.0
    {
      SumNonNegative(Window(x, w, t));
    }
  }

  /** Extending a slice at its end adds the new value to the sum. */
  lemma SumExtend(x: seq<real>, lo: nat, hi: nat)
    requires lo <= hi < |x|
    ensures Sum(x[lo .. hi + 1]) == Sum(x[lo .. hi]) + x[hi]
  {
    assert x[lo .. hi + 1][.. hi - lo] == x[lo .. hi];
  }

  /** Dropping the first value of a slice subtracts it from the sum. */
  lemma SumDropFirst(x: seq<real>, lo: nat, hi: nat)
    requires lo < hi <= |x|
    ensures Sum(x[lo + 1 .. hi]) == Sum(x[lo .. hi]) - x[lo]
  {
    SumFront(x[lo .. hi]);
    assert x[lo .. hi][1..] == x[lo + 1 .. hi];
  }

  /**
   * The rolling mean kept as a running sum: add the entering value, emit,
   * drop the value that leaves the window.
   */
  method RollingMeanColumn(x: seq<real>, w: nat) returns (r: Column)
    requires w >= 1
    ensures r == RollingMean(x, w)
  {
    r := [];
    var acc := 0.0;
    for t := 0 to |x|
      invariant |r| == t
      invariant forall i :: 0 <= i < t ==> r[i] == MeanAt(x, w, i)
      invariant acc == Sum(x[if t + 1 >= w then t + 1 - w else 0 .. t])
    {
      var lo := if t + 1 >= w then t + 1 - w else 0;
      SumExtend(x, lo, t);
      acc := acc + x[t];
      if t + 1 >= w {
        r := r + [Some(acc / w as real)];
        SumDropFirst(x, lo, t + 1);
        acc := acc - x[lo];
      } else {
        r := r + [None];
      }
    }
  }

  /** The largest of `x[lo..hi]`, scanning from the oldest value. */
  method ScanMax(x: seq<real>, lo: nat, hi: nat) returns (m: real)
    requires lo < hi <= |x|
    ensures m == Max(x[lo .. hi])
  {
    m := x[lo];
    assert x[lo .. lo + 1] == [x[lo]];
    for j := lo + 1 to hi
      invariant m == Max(x[lo .. j])
    {
      MaxStep(x, lo, j);
      m := if x[j] > m then x[j] else m;
    }
  }

  /** Rolling maximum by scanning each full window from its oldest value. */
  method RollingMaxColumn(x: seq<real>, w: nat) returns (r: Column)
    requires w >= 1
    ensures r == RollingMax(x, w)
  {
    r := [];
    for t := 0 to |x|
      invariant |r| == t
      invariant forall i :: 0 <= i < t ==> r[i] == MaxAt(x, w, i)
    {
      if t + 1 < w {
        r := r + [None];
      } else {
        var m := ScanMax(x, t + 1 - w, t + 1);
        r := r + [Some(m)];
      }
    }
  }

  /** The smallest of `x[lo..hi]`, scanning from the oldest value. */
  method ScanMin(x: seq<real>, lo: nat, hi: nat) returns (m: real)
    requires lo < hi <= |x|
    ensures m == Min(x[lo .. hi])
  {
    m := x[lo];
    assert x[lo .. lo + 1] == [x[lo]];
    for j := lo + 1 to hi
      invariant m == Min(x[lo .. j])
    {
      MinStep(x, lo, j);
      m := if x[j] < m then x[j] else m;
    }
  }

  /** Rolling minimum by scanning each full window from its oldest value. */
  method RollingMinColumn(x: seq<real>, w: nat) returns (r: Column)
    requires w >= 1
    ensures r == RollingMin(x, w)
  {
    r := [];
    for t := 0 to |x|
      invariant |r| == t
      invariant forall i :: 0 <= i < t ==> r[i] == MinAt(x, w, i)
    {
      if t + 1 < w {
        r := r + [None];
      } else {
        var m := ScanMin(x, t + 1 - w, t + 1);
        r := r + [Some(m)];
      }
    }
  }

  /** The smoothing factor of `ewm(span=span)`. */
  function Alpha(span: nat): (a: real)
    requires span >= 1
    ensures 0.0 < a <= 1.0
  {
    2.0 / (span as real + 1.0)
  }

  /** `x.ewm(alpha, adjust=False).mean()` at row `t`. */
  function EmaAt(x: seq<real>, alpha: real, t: nat): real
    requires t < |x|
  {
    if t == 0 then x[0] else (1.0 - alpha) * EmaAt(x, alpha, t - 1) + alpha * x[t]
  }

  function Ema(x: seq<real>, alpha: real): (r: seq<real>)
    ensures |r| == |x| && forall t :: 0 <= t < |x| ==> r[t] == EmaAt(x, alpha, t)
  {
    seq(|x|, t requires 0 <= t < |x| => EmaAt(x, alpha, t))
  }

  /** The running recurrence, one row at a time. */
  method EmaColumn(x: seq<real>, span: nat) returns (r: seq<real>)
    requires span >= 1
    ensures r == Ema(x, Alpha(span))
  {
    var alpha := Alpha(span);
    r := [];
    for t := 0 to |x|
      invariant |r| == t
      invariant forall i :: 0 <= i < t ==> r[i] == EmaAt(x, alpha, i)
    {
      var e := if t == 0 then x[0] else (1.0 - alpha) * r[t - 1] + alpha * x[t];
      r := r + [e];
    }
  }

  lemma ProductNonNegative(a: real, b: real)
    requires a >= 0.0 && b >= 0.0
    ensures a * b >= 0.0
  {}

  /** One step of the recurrence keeps a value inside [lo, hi]. */
  lemma ConvexStep(e: real, v: real, alpha: real, lo: real, hi: real)
    requires 0.0 <= alpha <= 1.0 && lo <= e <= hi && lo <= v <= hi
    ensures lo <= (1.0 - alpha) * e + alpha * v <= hi
  {
    var beta := 1.0 - alpha;
    ProductNonNegative(beta, e - lo);
    ProductNonNegative(alpha, v - lo);
    ProductNonNegative(beta, hi - e);
    ProductNonNegative(alpha, hi - v);
    assert beta * e + alpha * v - lo == beta * (e - lo) + alpha * (v - lo);
    assert hi - (beta * e + alpha * v) == beta * (hi - e) + alpha * (hi - v);
  }

  /**
   * Every EMA value is a convex combination of the inputs seen so far, so
   * it stays inside any interval that holds them.
   */
  lemma {:induction false} EmaWithin(x: seq<real>, alpha: real, t: nat, lo: real, hi: real)
    requires 0.0 <= alpha <= 1.0 && t < |x|
    requires forall i :: 0 <= i <= t ==> lo <= x[i] <= hi
    ensures lo <= EmaAt(x, alpha, t) <= hi
  {
    if t > 0 {
      EmaWithin(x, alpha, t - 1, lo, hi);
      ConvexStep(EmaAt(x, alpha, t - 1), x[t], alpha, lo, hi);
    }
  }

  /** Each EMA value lies between the least and greatest input seen so far. */
  lemma EmaBetweenMinAndMax(x: seq<real>, alpha: real, t: nat)
    requires 0.0 <= alpha <= 1.0 && t < |x|
    ensures Min(x[..t + 1]) <= EmaAt(x, alpha, t) <= Max(x[..t + 1])
  {
    var seen := x[..t + 1];
    assert forall i :: 0 <= i <= t ==> x[i] == seen[i];
    EmaWithin(x, alpha, t, Min(seen), Max(seen));
  }

  /** On a constant input the EMA is that constant at every row. */
  lemma EmaOfConstant(x: seq<real>, alpha: real, c: real)
    requires 0.0 <= alpha <= 1.0
    requires forall i :: 0 <= i < |x| ==> x[i] == c
    ensures forall t :: 0 <= t < |x| ==> Ema(x, alpha)[t] == c
  {
    forall t | 0 <= t < |x|
      ensures EmaAt(x, alpha, t) == c
    {
      EmaWithin(x, alpha, t, c, c);
    }
  }
}
