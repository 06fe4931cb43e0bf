/**
 * The additional indicators: support and resistance, momentum and pivot
 * points, which write columns into the table they are given and return
 * that same table, and the volume profile, which only reads it.
 */
module CustomIndicators {
  import opened SeriesStore
  import opened Rolling
  import TechnicalAnalysis

  /* ---------------- Support and resistance ---------------- */

  /**
   * Support is the lowest low and resistance the highest high of the last
   * `window` bars: both undefined before row `window - 1`, each bounding its
   * window and attained by a bar in it, and support <= resistance whenever
   * the current bar has low <= high.
   */
  lemma SupportResistance(high: seq<real>, low: seq<real>, window: nat, t: nat)
    requires window >= 1 && |high| == |low| && t < |low|
    ensures RollingMin(low, window)[t].Some? <==> t + 1 >= window
    ensures RollingMax(high, window)[t].Some? <==> t + 1 >= window
    ensures t + 1 >= window ==>
      var support := RollingMin(low, window)[t].value;
      (forall i :: t + 1 - window <= i <= t ==> support <= low[i]) &&
      (exists i :: t + 1 - window <= i <= t && low[i] == support)
    ensures t + 1 >= window ==>
      var resistance := RollingMax(high, window)[t].value;
      (forall i :: t + 1 - window <= i <= t ==> high[i] <= resistance) &&
      (exists i :: t + 1 - window <= i <= t && high[i] == resistance)
    ensures t + 1 >= window && low[t] <= high[t] ==>
      RollingMin(low, window)[t].value <= RollingMax(high, window)[t].value
  {
    if t + 1 >= window {
      var lo := t + 1 - window;
      var lows, highs := Window(low, window, t), Window(high, window, t);
      assert forall i :: lo <= i <= t ==> lows[i - lo] == low[i] && highs[i - lo] == high[i];
      var j :| 0 <= j < window && lows[j] == Min(lows);
      assert low[lo + j] == Min(lows);
      var k :| 0 <= k < window && highs[k] == Max(highs);
      assert high[lo + k] == Max(highs);
    }
  }

  method CalculateSupportResistance(data: Frame, window: nat := 20) returns (r: Frame)
    requires data.Valid() && window >= 1
    modifies data
    ensures r == data && data.Valid()
    ensures data.cols == old(data.cols)
      [Support := RollingMin(data.low, window)]
      [Resistance := RollingMax(data.high, window)]
    ensures data.names == PlacedAll(old(data.names), [Support, Resistance])
  {
    var support := RollingMinColumn(data.low, window);
    data.SetColumn(Support, support);
    var resistance := RollingMaxColumn(data.high, window);
    data.SetColumn(Resistance, resistance);
    r := data;
  }

  /* ---------------- Momentum ---------------- */

  /** `close.diff(period)`: the change of close over `period` rows. */
  function MomentumColumn(close: seq<real>, period: nat): (r: Column)
    ensures |r| == |close|
  {
    seq(|close|, t requires 0 <= t < |close| =>
      if t >= period then Some(close[t] - close[t - period]) else None)
  }

  /**
   * Momentum is defined exactly from row `period` on, and there it equals
   * `period` times the difference between the RSI's mean gain and mean loss.
   */
  lemma MomentumIsGainLossSpread(close: seq<real>, period: nat, t: nat)
    requires period >= 1 && t < |close|
    ensures MomentumColumn(close, period)[t].Some? <==> t >= period
    ensures t >= period ==>
      var gain := RollingMean(TechnicalAnalysis.Gains(close), period)[t];
      var loss := RollingMean(TechnicalAnalysis.Losses(close), period)[t];
      gain.Some? && loss.Some? &&
      MomentumColumn(close, period)[t].value == (period as real) * (gain.value - loss.value)
  {
    if t >= period {
      TechnicalAnalysis.GainLossSpread(close, period, t);
      var g := Sum(Window(TechnicalAnalysis.Gains(close), period, t));
      var l := Sum(Window(TechnicalAnalysis.Losses(close), period, t));
      var p := period as real;
      assert (p * (g / p - l / p)) == g - l;
    }
  }

  method CalculateMomentum(data: Frame, period: nat := 14) returns (r: Frame)
    requires data.Valid()
    modifies data
    ensures r == data && data.Valid()
    ensures data.cols == old(data.cols)[Momentum := MomentumColumn(data.close, period)]
    ensures data.names == Placed(old(data.names), Momentum)
  {
    data.SetColumn(Momentum, MomentumColumn(data.close, period));
    r := data;
  }

  /* ---------------- Pivot points ---------------- */

  datatype PivotLevels = PivotLevels(pp: real, r1: real, s1: real, r2: real, s2: real)

  /**
   * Classic floor pivots of one bar. The first band is as wide as the bar's
   * range, the second twice as wide and centred on the pivot; for a close
   * inside the bar the levels are ordered, strictly around the pivot when
   * the bar has a positive range.
   */
  function Pivots(high: real, low: real, close: real): (p: PivotLevels)
    ensures p.r1 - p.s1 == high - low
    ensures p.r2 - p.s2 == 2.0 * (high - low)
    ensures p.r2 - p.pp == p.pp - p.s2
    ensures low <= close <= high ==> p.s2 <= p.s1 <= p.pp <= p.r1 <= p.r2
    ensures low <= close <= high && low < high ==> p.s1 < p.pp < p.r1
  {
    var pp := (high + low + close) / 3.0;
    PivotLevels(pp, 2.0 * pp - low, 2.0 * pp - high, pp + (high - low), pp - (high - low))
  }

  function PivotsAt(high: seq<real>, low: seq<real>, close: seq<real>, t: nat): PivotLevels
    requires |high| == |close| && |low| == |close| && t < |close|
  {
    Pivots(high[t], low[t], close[t])
  }

  function PPColumn(high: seq<real>, low: seq<real>, close: seq<real>): (r: Column)
    requires |high| == |close| && |low| == |close|
    ensures |r| == |close|
  {
    seq(|close|, t requires 0 <= t < |close| => Some(PivotsAt(high, low, close, t).pp))
  }

  function R1Column(high: seq<real>, low: seq<real>, close: seq<real>): (r: Column)
    requires |high| == |close| && |low| == |close|
    ensures |r| == |close|
  {
    seq(|close|, t requires 0 <= t < |close| => Some(PivotsAt(high, low, close, t).r1))
  }

  function S1Column(high: seq<real>, low: seq<real>, close: seq<real>): (r: Column)
    requires |high| == |close| && |low| == |close|
    ensures |r| == |close|
  {
    seq(|close|, t requires 0 <= t < |close| => Some(PivotsAt(high, low, close, t).s1))
  }

  function R2Column(high: seq<real>, low: seq<real>, close: seq<real>): (r: Column)
    requires |high| == |close| && |low| == |close|
    ensures |r| == |close|
  {
    seq(|close|, t requires 0 <= t < |close| => Some(PivotsAt(high, low, close, t).r2))
  }

  function S2Column(high: seq<real>, low: seq<real>, close: seq<real>): (r: Column)
    requires |high| == |close| && |low| == |close|
    ensures |r| == |close|
  {
    seq(|close|, t requires 0 <= t < |close| => Some(PivotsAt(high, low, close, t).s2))
  }

  /** The five pivot columns are placed one after another. */
  lemma PivotsPlaced(names: seq<Col>)
    ensures PlacedAll(names, [PP, R1, S1, R2, S2]) ==
      Placed(Placed(Placed(Placed(Placed(names, PP), R1), S1), R2), S2)
  {}

  method CalculatePivotPoints(data: Frame) returns (r: Frame)
    requires data.Valid()
    modifies data
    ensures r == data && data.Valid()
    ensures data.cols == old(data.cols)
      [PP := PPColumn(data.high, data.low, data.close)]
      [R1 := R1Column(data.high, data.low, data.close)]
      [S1 := S1Column(data.high, data.low, data.close)]
      [R2 := R2Column(data.high, data.low, data.close)]
      [S2 := S2Column(data.high, data.low, data.close)]
    ensures data.names == PlacedAll(old(data.names), [PP, R1, S1, R2, S2])
  {
    ghost var before := data.names;
    PivotsPlaced(before);
    var high, low, close := data.high, data.low, data.close;
    data.SetColumn(PP, PPColumn(high, low, close));
    data.SetColumn(R1, R1Column(high, low, close));
    data.SetColumn(S1, S1Column(high, low, close));
    data.SetColumn(R2, R2Column(high, low, close));
    data.SetColumn(S2, S2Column(high, low, close));
    r := data;
  }

  /* ---------------- Volume profile ---------------- */

  /** The lowest low of the table; undefined for an empty table. */
  function LowestLow(low: seq<real>): Option<real> {
    if low == [] then None else Some(Min(low))
  }

  /** The highest high of the table; undefined for an empty table. */
  function HighestHigh(high: seq<real>): Option<real> {
    if high == [] then None else Some(Max(high))
  }

  /**
   * `num` evenly spaced edges from `lo` to `hi`, both included (a single
   * edge is `lo`); undefined edges when either end is undefined.
   */
  function Linspace(lo: Option<real>, hi: Option<real>, num: nat): (r: seq<Option<real>>)
    ensures |r| == num
    ensures lo.Some? && hi.Some? && num >= 1 ==> r[0] == lo && r[num - 1].Some?
    ensures lo.Some? && hi.Some? && num >= 2 ==> r[num - 1] == hi
    ensures lo.None? || hi.None? ==> forall i :: 0 <= i < num ==> r[i].None?
  {
    if lo.Some? && hi.Some? then
      var step := if num > 1 then (hi.value - lo.value) / (num - 1) as real else 0.0;
      var r := seq(num, i requires 0 <= i < num => Some(lo.value + (i as real) * step));
      assert num > 1 ==> r[num - 1].value == lo.value + ((num - 1) as real) * step == hi.value;
      r
    else
      seq(num, i requires 0 <= i < num => None)
  }

  /** Number of buckets between `n` edges. */
  function Buckets(n: nat): nat {
    if n == 0 then 0 else n - 1
  }

  /** Close `c` lies in bucket `i`, the half-open interval [edges[i], edges[i + 1]). */
  predicate InBucket(c: real, edges: seq<Option<real>>, i: nat) {
    i + 1 < |edges| && edges[i].Some? && edges[i + 1].Some? &&
    edges[i].value <= c < edges[i + 1].value
  }

  /** The summed volume of the bars whose close lies in bucket `i`. */
  function BucketVolume(close: seq<real>, volume: seq<real>, edges: seq<Option<real>>, i: nat): real
    requires |close| == |volume|
  {
    if close == [] then 0.0
    else
      var n := |close| - 1;
      BucketVolume(close[..n], volume[..n], edges, i) + (if InBucket(close[n], edges, i) then volume[n] else 0.0)
  }

  function Profile(close: seq<real>, volume: seq<real>, edges: seq<Option<real>>): (r: seq<real>)
    requires |close| == |volume|
    ensures |r| == Buckets(|edges|)
  {
    seq(Buckets(|edges|), i requires 0 <= i < Buckets(|edges|) => BucketVolume(close, volume, edges, i))
  }

  /** Returns the bucket edges and the per-bucket volume sums. */
  method CalculateVolumeProfile(data: Frame, bins: nat := 10) returns (priceRange: seq<Option<real>>, volumeProfile: seq<real>)
    requires data.Valid()
    ensures priceRange == Linspace(LowestLow(data.low), HighestHigh(data.high), bins)
    ensures volumeProfile == Profile(data.close, data.volume, priceRange)
    ensures |volumeProfile| == Buckets(bins)
    ensures (forall j :: 0 <= j < |data.volume| ==> data.volume[j] >= 0.0) ==>
              Sum(volumeProfile) <= Sum(data.volume)
  {
    priceRange := Linspace(LowestLow(data.low), HighestHigh(data.high), bins);
    volumeProfile := [];
    for i := 0 to Buckets(|priceRange|)
      invariant |volumeProfile| == i
      invariant forall k :: 0 <= k < i ==> volumeProfile[k] == BucketVolume(data.close, data.volume, priceRange, k)
    {
      volumeProfile := volumeProfile + [BucketVolume(data.close, data.volume, priceRange, i)];
    }
    if forall j :: 0 <= j < |data.volume| ==> data.volume[j] >= 0.0 {
      LinspaceSeparated(LowestLow(data.low), HighestHigh(data.high), bins);
      ProfileAtMostTotal(data.close, data.volume, priceRange);
    }
  }

  /** Two non-empty buckets `i < k` do not overlap. */
  predicate Apart(edges: seq<Option<real>>, i: nat, k: nat)
    requires i < k && k + 1 < |edges|
  {
    !(edges[i].Some? && edges[i + 1].Some? && edges[i].value < edges[i + 1].value) ||
    !(edges[k].Some? && edges[k + 1].Some? && edges[k].value < edges[k + 1].value) ||
    edges[i + 1].value <= edges[k].value
  }

  ghost predicate Separated(edges: seq<Option<real>>) {
    forall i, k :: 0 <= i < k && k + 1 < |edges| ==> Apart(edges, i, k)
  }

  /** Evenly spaced edges never make two buckets overlap, whichever way they run. */
  lemma LinspaceSeparated(lo: Option<real>, hi: Option<real>, num: nat)
    ensures Separated(Linspace(lo, hi, num))
  {
    var e := Linspace(lo, hi, num);
    if lo.Some? && hi.Some? && num > 1 {
      var step := (hi.value - lo.value) / (num - 1) as real;
      forall i, k | 0 <= i < k && k + 1 < num
        ensures Apart(e, i, k)
      {
        assert e[i + 1].value - e[i].value == step;
        if step > 0.0 {
          ProductNonNegative((k - i - 1) as real, step);
          assert e[k].value - e[i + 1].value == ((k - i - 1) as real) * step;
        }
      }
    }
  }

  /** The top edge `hi` lies in no bucket: the last bucket is open at the top. */
  lemma TopEdgeInNoBucket(lo: real, hi: real, num: nat, i: nat)
    requires num >= 2
    ensures !InBucket(hi, Linspace(Some(lo), Some(hi), num), i)
  {
    var e := Linspace(Some(lo), Some(hi), num);
    if InBucket(hi, e, i) {
      var step := (hi - lo) / (num - 1) as real;
      assert e[i + 1].value - e[i].value == step;
      ProductNonNegative((num - 2 - i) as real, step);
      assert false;
    }
  }

  /** The per-bucket share of one bar of close `c` and volume `v`. */
  function Hits(c: real, v: real, edges: seq<Option<real>>): (h: seq<real>)
    ensures |h| == Buckets(|edges|)
  {
    seq(Buckets(|edges|), i requires 0 <= i < Buckets(|edges|) => if InBucket(c, edges, i) then v else 0.0)
  }

  /** Over separated buckets one bar counts in at most one of them. */
  lemma {:induction false} HitsAtMostOnce(c: real, v: real, edges: seq<Option<real>>)
    requires v >= 0.0 && Separated(edges)
    ensures Sum(Hits(c, v, edges)) == if exists i :: 0 <= i < Buckets(|edges|) && InBucket(c, edges, i) then v else 0.0
    decreases |edges|
  {
    if |edges| >= 2 {
      var n := |edges| - 2;
      var shorter := edges[..n + 1];
      assert forall i, k :: 0 <= i < k && k + 1 < |shorter| ==> Apart(shorter, i, k) == Apart(edges, i, k);
      HitsAtMostOnce(c, v, shorter);
      assert forall i :: 0 <= i < n ==> (InBucket(c, shorter, i) <==> InBucket(c, edges, i));
      assert Hits(c, v, edges)[..n] == Hits(c, v, shorter);
      if InBucket(c, edges, n) {
        forall i | 0 <= i < n
          ensures !InBucket(c, edges, i)
        {
          assert Apart(edges, i, n);
        }
      }
    }
  }

  lemma {:induction false} SumPointwise(a: seq<real>, b: seq<real>, s: seq<real>)
    requires |a| == |s| && |b| == |s|
    requires forall i :: 0 <= i < |s| ==> s[i] == a[i] + b[i]
    ensures Sum(s) == Sum(a) + Sum(b)
  {
    if s != [] {
      var n := |s| - 1;
      SumPointwise(a[..n], b[..n], s[..n]);
    }
  }

  /**
   * With non-negative volumes the buckets together hold at most the total
   * volume: each bar counts in at most one bucket, and a bar outside every
   * bucket (a close at the top edge, for one) counts in none.
   */
  lemma {:induction false} ProfileAtMostTotal(close: seq<real>, volume: seq<real>, edges: seq<Option<real>>)
    requires |close| == |volume| && Separated(edges)
    requires forall j :: 0 <= j < |volume| ==> volume[j] >= 0.0
    ensures Sum(Profile(close, volume, edges)) <= Sum(volume)
    decreases |close|
  {
    if close == [] {
      SumOfConstant(Profile(close, volume, edges), 0.0);
    } else {
      var n := |close| - 1;
      ProfileAtMostTotal(close[..n], volume[..n], edges);
      HitsAtMostOnce(close[n], volume[n], edges);
      forall i | 0 <= i < Buckets(|edges|)
        ensures Profile(close, volume, edges)[i]
             == Profile(close[..n], volume[..n], edges)[i] + Hits(close[n], volume[n], edges)[i]
      {
        assert BucketVolume(close, volume, edges, i)
            == BucketVolume(close[..n], volume[..n], edges, i) + (if InBucket(close[n], edges, i) then volume[n] else 0.0);
      }
      SumPointwise(Profile(close[..n], volume[..n], edges), Hits(close[n], volume[n], edges), Profile(close, volume, edges));
      assert Sum(Hits(close[n], volume[n], edges)) <= volume[n];
      assert Sum(volume) == Sum(volume[..n]) + volume[n];
    }
  }
}
