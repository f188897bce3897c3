/** Bounds on the indicators and the exact relation between the two KDJ implementations. */
module KdjTheory {
  import opened Indicators
  import opened Verdicts

  // ----- averages stay inside the range of their inputs -----

  predicate Within(s: seq<real>, lo: real, hi: real) {
    forall i :: 0 <= i < |s| ==> lo <= s[i] <= hi
  }

  lemma {:induction false} SumWithin(s: seq<real>, lo: real, hi: real)
    requires Within(s, lo, hi)
    ensures |s| as real * lo <= Sum(s) <= |s| as real * hi
  {
    if s != [] {
      SumWithin(s[..|s| - 1], lo, hi);
      assert (|s| - 1) as real * lo + lo == |s| as real * lo;
      assert (|s| - 1) as real * hi + hi == |s| as real * hi;
    }
  }

  lemma {:induction false} DivideWithin(x: real, n: real, lo: real, hi: real)
    requires n > 0.0 && n * lo <= x <= n * hi
    ensures lo <= x / n <= hi
  {
    assert x / n * n == x;
  }

  lemma {:induction false} MeanWithin(s: seq<real>, lo: real, hi: real)
    requires s != [] && Within(s, lo, hi)
    ensures lo <= Mean(s) <= hi
  {
    SumWithin(s, lo, hi);
    DivideWithin(Sum(s), |s| as real, lo, hi);
  }

  lemma {:induction false} Product(a: real, b: real)
    requires a >= 0.0 && b >= 0.0
    ensures a * b >= 0.0
  {
  }

  lemma {:induction false} SmaNextWithin(prev: real, x: real, n: real, m: real, lo: real, hi: real)
    requires 0.0 <= m <= n && n > 0.0 && lo <= prev <= hi && lo <= x <= hi
    ensures lo <= SmaNext(prev, x, n, m) <= hi
  {
    var y := m * x + (n - m) * prev;
    Product(m, x - lo);
    Product(n - m, prev - lo);
    Product(m, hi - x);
    Product(n - m, hi - prev);
    assert y - n * lo == m * (x - lo) + (n - m) * (prev - lo);
    assert n * hi - y == m * (hi - x) + (n - m) * (hi - prev);
    DivideWithin(y, n, lo, hi);
  }

  /** An SMA with 0 <= m <= n has one element per input and stays within the inputs' range. */
  lemma {:induction false} SmaWithin(values: seq<real>, n: real, m: real, lo: real, hi: real)
    requires 0.0 <= m <= n && n > 0.0 && Within(values, lo, hi)
    ensures |Sma(values, n, m)| == |values| && Within(Sma(values, n, m), lo, hi)
  {
    if |values| > 1 {
      var init := values[..|values| - 1];
      SmaWithin(init, n, m, lo, hi);
      SmaNextWithin(Last(Sma(init, n, m)), Last(values), n, m, lo, hi);
    }
  }

  lemma {:induction false} EmaNextWithin(prev: real, x: real, p: nat, lo: real, hi: real)
    requires p >= 1 && lo <= prev <= hi && lo <= x <= hi
    ensures lo <= EmaNext(prev, x, p) <= hi
  {
    var a := 2.0 / (p as real + 1.0);
    DivideWithin(2.0, p as real + 1.0, 0.0, 1.0);
    assert EmaNext(prev, x, p) - lo == a * (x - lo) + (1.0 - a) * (prev - lo);
    assert hi - EmaNext(prev, x, p) == a * (hi - x) + (1.0 - a) * (hi - prev);
    Product(a, x - lo);
    Product(1.0 - a, prev - lo);
    Product(a, hi - x);
    Product(1.0 - a, hi - prev);
  }

  /** An EMA with period p >= 1 has |prices| - p + 1 elements, all within the inputs' range. */
  lemma {:induction false} EmaWithin(prices: seq<real>, p: nat, lo: real, hi: real)
    requires 1 <= p <= |prices| && Within(prices, lo, hi)
    ensures |Ema(prices, p)| == |prices| - p + 1 && Within(Ema(prices, p), lo, hi)
  {
    if |prices| == p {
      MeanWithin(prices, lo, hi);
    } else {
      var init := prices[..|prices| - 1];
      EmaWithin(init, p, lo, hi);
      EmaNextWithin(Last(Ema(init, p)), Last(prices), p, lo, hi);
    }
  }

  // ----- the range of RSV, K and D -----

  lemma {:induction false} RatioWithin(close: real, hh: real, ll: real)
    requires ll <= close <= hh && hh - ll != 0.0
    ensures 0.0 <= (close - ll) / (hh - ll) * 100.0 <= 100.0
  {
    DivideWithin(close - ll, hh - ll, 0.0, 1.0);
  }

  lemma {:induction false} RsvWithin(bars: seq<Bar>, i: nat, n: nat)
    requires n >= 1 && i < |bars| && forall k :: 0 <= k < |bars| ==> WellFormed(bars[k])
    ensures 0.0 <= RsvAt(bars, i, n) <= 100.0
  {
    var w := WindowStart(i, n);
    var highs, lows := Highs(bars)[w..i + 1], Lows(bars)[w..i + 1];
    MaxOfIsGreatest(highs);
    MinOfIsLeast(lows);
    assert WellFormed(bars[i]) && highs[i - w] == bars[i].h && lows[i - w] == bars[i].l;
    if MaxOf(highs) - MinOf(lows) != 0.0 { RatioWithin(bars[i].c, MaxOf(highs), MinOf(lows)); }
  }

  lemma {:induction false} KdWithin(rsv: seq<real>)
    requires rsv != [] && Within(rsv, 0.0, 100.0)
    ensures 0.0 <= K(rsv) <= 100.0 && 0.0 <= D(rsv) <= 100.0
    ensures 0.0 <= 6.0 * D(rsv) - K(rsv) <= 500.0
  {
    if |rsv| > 1 { KdWithin(rsv[..|rsv| - 1]); }
  }

  // ----- the range of J -----

  const J_MIN := -8000.0 / 243.0
  const J_MAX := 32300.0 / 243.0

  /** Over the last four days J forgets enough of the past for the bounds on 6D - K to decide its range. */
  lemma {:induction false} JUnrolled(k0: real, d0: real, r1: real, r2: real, r3: real, r4: real)
    requires 0.0 <= k0 <= 100.0 && 0.0 <= d0 <= 100.0 && 0.0 <= 6.0 * d0 - k0 <= 500.0
    requires 0.0 <= r1 <= 100.0 && 0.0 <= r2 <= 100.0 && 0.0 <= r3 <= 100.0 && 0.0 <= r4 <= 100.0
    ensures var k1 := 2.0 / 3.0 * k0 + 1.0 / 3.0 * r1; var d1 := 2.0 / 3.0 * d0 + 1.0 / 3.0 * k1;
            var k2 := 2.0 / 3.0 * k1 + 1.0 / 3.0 * r2; var d2 := 2.0 / 3.0 * d1 + 1.0 / 3.0 * k2;
            var k3 := 2.0 / 3.0 * k2 + 1.0 / 3.0 * r3; var d3 := 2.0 / 3.0 * d2 + 1.0 / 3.0 * k3;
            var k4 := 2.0 / 3.0 * k3 + 1.0 / 3.0 * r4; var d4 := 2.0 / 3.0 * d3 + 1.0 / 3.0 * k4;
            J_MIN <= 3.0 * k4 - 2.0 * d4 <= J_MAX
  {
  }

  lemma {:induction false} Unfold(rsv: seq<real>)
    requires |rsv| > 1
    ensures var init := rsv[..|rsv| - 1];
            K(rsv) == 2.0 / 3.0 * K(init) + 1.0 / 3.0 * Last(rsv) && D(rsv) == 2.0 / 3.0 * D(init) + 1.0 / 3.0 * K(rsv)
  {
  }

  lemma {:induction false} UnfoldWithin(rsv: seq<real>) returns (init: seq<real>)
    requires |rsv| > 1 && Within(rsv, 0.0, 100.0)
    ensures init == rsv[..|rsv| - 1] && Within(init, 0.0, 100.0) && 0.0 <= Last(rsv) <= 100.0
    ensures K(rsv) == 2.0 / 3.0 * K(init) + 1.0 / 3.0 * Last(rsv)
    ensures D(rsv) == 2.0 / 3.0 * D(init) + 1.0 / 3.0 * K(rsv)
  {
    init := rsv[..|rsv| - 1];
    Unfold(rsv);
  }

  /** For RSVs in [0,100] the J of the fused loop lies in [-8000/243, 32300/243]. */
  lemma {:induction false} JWithin(rsv: seq<real>)
    requires rsv != [] && Within(rsv, 0.0, 100.0)
    ensures J_MIN <= J(rsv) <= J_MAX
  {
    if |rsv| > 1 {
      var s1 := UnfoldWithin(rsv);
      if |s1| > 1 {
        var s2 := UnfoldWithin(s1);
        if |s2| > 1 {
          var s3 := UnfoldWithin(s2);
          if |s3| > 1 {
            var s4 := UnfoldWithin(s3);
            KdWithin(s4);
            JUnrolled(K(s4), D(s4), Last(s3), Last(s2), Last(s1), Last(rsv));
          }
        }
      }
    }
  }

  /** Both implementations, on well-formed candles of any number: K and D stay in [0,100] and J in the
      interval. Day i of the two-pass series uses the RSVs of days 0 .. i, the fused loop those from day
      n - 1 on. */
  lemma {:induction false} KdjBounds(bars: seq<Bar>, n: nat, from: nat, i: nat)
    requires n >= 1 && from <= i < |bars| && forall k :: 0 <= k < |bars| ==> WellFormed(bars[k])
    ensures var rsv := RsvSeries(bars, n)[from..i + 1];
            0.0 <= K(rsv) <= 100.0 && 0.0 <= D(rsv) <= 100.0 && J_MIN <= J(rsv) <= J_MAX
  {
    var rsv := RsvSeries(bars, n)[from..i + 1];
    forall k | 0 <= k < |rsv| ensures 0.0 <= rsv[k] <= 100.0 { RsvWithin(bars, from + k, n); }
    KdWithin(rsv);
    JWithin(rsv);
  }

  /** Equal candles that close at `c0` until the last four, which close at `c`. */
  function TurnBars(n: nat, c0: real, c: real): (bars: seq<Bar>)
    ensures |bars| == n
    ensures forall i :: 0 <= i < n ==> bars[i] == Bar(5.0, 11.0, 1.0, if i < n - 4 then c0 else c, 1.0)
  {
    seq(n, i => Bar(5.0, 11.0, 1.0, if i < n - 4 then c0 else c, 1.0))
  }

  /** The RSVs turn from `x` to `y` four days before the end. */
  ghost predicate Turns(rsv: seq<real>, x: real, y: real) {
    && |rsv| >= 5
    && (forall i :: 0 <= i < |rsv| - 4 ==> rsv[i] == x)
    && (forall i :: |rsv| - 4 <= i < |rsv| ==> rsv[i] == y)
  }

  lemma {:induction false} TurnRsv(n: nat, c0: real, c: real, i: nat)
    requires i < n
    ensures RsvAt(TurnBars(n, c0, c), i, KDJ_DAYS) == ((if i < n - 4 then c0 else c) - 1.0) * 10.0
  {
    var bars, w := TurnBars(n, c0, c), WindowStart(i, KDJ_DAYS);
    Flat(Highs(bars)[w..i + 1], Lows(bars)[w..i + 1], 11.0, 1.0);
  }

  lemma {:induction false} Flat(highs: seq<real>, lows: seq<real>, hh: real, ll: real)
    requires highs != [] && lows != []
    requires (forall i :: 0 <= i < |highs| ==> highs[i] == hh) && forall i :: 0 <= i < |lows| ==> lows[i] == ll
    ensures MaxOf(highs) == hh && MinOf(lows) == ll
  {
    MaxOfIsGreatest(highs);
    MinOfIsLeast(lows);
  }

  lemma {:induction false} TurnRsvs(n: nat, c0: real, c: real)
    requires n >= KDJ_DAYS + 4
    ensures var rsv, x, y := RsvSeries(TurnBars(n, c0, c), KDJ_DAYS), (c0 - 1.0) * 10.0, (c - 1.0) * 10.0;
            |rsv| == n && Turns(rsv, x, y) && Turns(rsv[KDJ_DAYS - 1..], x, y)
  {
    hide RsvAt;
    var rsv := RsvSeries(TurnBars(n, c0, c), KDJ_DAYS);
    forall i | 0 <= i < n ensures rsv[i] == ((if i < n - 4 then c0 else c) - 1.0) * 10.0 { TurnRsv(n, c0, c, i); }
  }

  lemma {:induction false} LevelKd(rsv: seq<real>, x: real)
    requires rsv != [] && forall i :: 0 <= i < |rsv| ==> rsv[i] == x
    ensures K(rsv) == x && D(rsv) == x
  {
    if |rsv| > 1 {
      LevelKd(rsv[..|rsv| - 1], x);
      Unfold(rsv);
    }
  }

  lemma {:induction false} DaysAtLevel(rsv: seq<real>, y: real)
    requires |rsv| > 1 && Last(rsv) == y
    ensures var init := rsv[..|rsv| - 1];
            && K(rsv) - y == 2.0 / 3.0 * (K(init) - y)
            && D(rsv) - y == 2.0 / 3.0 * (D(init) - y) + 1.0 / 3.0 * (K(rsv) - y)
  {
    Unfold(rsv);
  }

  lemma {:induction false} TurnJ(rsv: seq<real>, x: real, y: real)
    requires Turns(rsv, x, y)
    ensures J(rsv) == y + 16.0 / 81.0 * (-5.0 / 3.0) * (x - y)
  {
    hide K, D;
    var n := |rsv|;
    LevelKd(rsv[..n - 4], x);
    DaysAtLevel(rsv[..n - 3], y);
    DaysAtLevel(rsv[..n - 2], y);
    DaysAtLevel(rsv[..n - 1], y);
    DaysAtLevel(rsv, y);
    assert rsv[..n - 3][..n - 4] == rsv[..n - 4];
    assert rsv[..n - 2][..n - 3] == rsv[..n - 3];
    assert rsv[..n - 1][..n - 2] == rsv[..n - 2];
  }

  lemma {:induction false} TurnJs(n: nat, c0: real, c: real)
    requires n >= KDJ_DAYS + 4
    ensures var bars, j := TurnBars(n, c0, c), (c - 1.0) * 10.0 + 16.0 / 81.0 * (-5.0 / 3.0) * ((c0 - c) * 10.0);
            FusedJ(bars) == j && SeriesJ(bars, n - 1) == j
  {
    hide J, RsvSeries;
    var rsv, x, y := RsvSeries(TurnBars(n, c0, c), KDJ_DAYS), (c0 - 1.0) * 10.0, (c - 1.0) * 10.0;
    TurnRsvs(n, c0, c);
    TurnJ(rsv, x, y);
    TurnJ(rsv[KDJ_DAYS - 1..], x, y);
    assert rsv[..n - 1 + 1] == rsv;
  }

  /** The interval is tight at any length that the filters accept: candles that close at the high until four days
      before the end and then at the low bring the J of both filters to the lower end, the reverse to the upper. */
  lemma {:induction false} JBoundsAreReached(n: nat)
    requires n >= KDJ_DAYS + 4
    ensures forall i :: 0 <= i < n ==> WellFormed(TurnBars(n, 11.0, 1.0)[i]) && WellFormed(TurnBars(n, 1.0, 11.0)[i])
    ensures FusedJ(TurnBars(n, 11.0, 1.0)) == J_MIN && SeriesJ(TurnBars(n, 11.0, 1.0), n - 1) == J_MIN
    ensures FusedJ(TurnBars(n, 1.0, 11.0)) == J_MAX && SeriesJ(TurnBars(n, 1.0, 11.0), n - 1) == J_MAX
  {
    hide FusedJ, SeriesJ;
    TurnJs(n, 11.0, 1.0);
    TurnJs(n, 1.0, 11.0);
  }

  // ----- how far the two implementations are apart -----

  /** (2/3)^t */
  function Decay(t: nat): real { if t == 0 then 1.0 else 2.0 / 3.0 * Decay(t - 1) }

  /** Lists that agree on their last `t` elements. */
  ghost predicate SameTail(a: seq<real>, b: seq<real>, t: nat) {
    |a| > t && |b| > t && forall i :: |a| - t <= i < |a| ==> a[i] == b[i + |b| - |a|]
  }

  lemma {:induction false} SameTailInit(a: seq<real>, b: seq<real>, t: nat)
    requires t >= 1 && SameTail(a, b, t)
    ensures Last(a) == Last(b)
    ensures var a', b' := a[..|a| - 1], b[..|b| - 1];
            && SameTail(a', b', t - 1)
            && a'[..|a'| - (t - 1)] == a[..|a| - t] && b'[..|b'| - (t - 1)] == b[..|b| - t]
  {
  }

  /** The gaps after `t` common days, by their own recurrences. */
  function KGap(t: nat, e0: real): real { if t == 0 then e0 else 2.0 / 3.0 * KGap(t - 1, e0) }

  function DGap(t: nat, e0: real, f0: real): real {
    if t == 0 then f0 else 2.0 / 3.0 * DGap(t - 1, e0, f0) + 1.0 / 3.0 * KGap(t, e0)
  }

  /** The gap in K shrinks by 2/3 a day; the gap in D picks up a third of it before it shrinks. */
  lemma {:induction false} GapsFollow(a: seq<real>, b: seq<real>, t: nat, e0: real, f0: real)
    requires SameTail(a, b, t)
    requires e0 == K(a[..|a| - t]) - K(b[..|b| - t]) && f0 == D(a[..|a| - t]) - D(b[..|b| - t])
    ensures K(a) - K(b) == KGap(t, e0) && D(a) - D(b) == DGap(t, e0, f0)
    decreases t
  {
    if t == 0 {
      assert a[..|a|] == a && b[..|b|] == b;
    } else {
      SameTailInit(a, b, t);
      GapsFollow(a[..|a| - 1], b[..|b| - 1], t - 1, e0, f0);
      Unfold(a);
      Unfold(b);
    }
  }

  lemma {:induction false} KGapClosed(t: nat, e0: real)
    ensures KGap(t, e0) == Decay(t) * e0
  {
    if t > 0 {
      KGapClosed(t - 1, e0);
      Assoc(2.0 / 3.0, Decay(t - 1), e0);
    }
  }

  lemma {:induction false} DGapClosed(t: nat, e0: real, f0: real)
    ensures DGap(t, e0, f0) == Decay(t) * (f0 + t as real * e0 / 3.0)
  {
    if t > 0 {
      DGapClosed(t - 1, e0, f0);
      KGapClosed(t, e0);
      assert (t - 1) as real == t as real - 1.0;
      GapAlgebra(Decay(t - 1), e0, f0, t as real);
    }
  }

  lemma {:induction false} Assoc(x: real, y: real, z: real)
    ensures x * (y * z) == (x * y) * z
  {
  }

  lemma {:induction false} GapAlgebra(p: real, e0: real, f0: real, t: real)
    ensures 2.0 / 3.0 * (p * (f0 + (t - 1.0) * e0 / 3.0)) + 1.0 / 3.0 * (2.0 / 3.0 * p * e0) ==
            2.0 / 3.0 * p * (f0 + t * e0 / 3.0)
  {
    var x := (t - 1.0) * e0 / 3.0;
    assert t * e0 / 3.0 == x + e0 / 3.0;
    assert p * (f0 + x + e0 / 3.0) == p * (f0 + x) + p * e0 / 3.0;
  }

  lemma {:induction false} JGap(p: real, e0: real, f0: real, t: real)
    ensures 3.0 * (p * e0) - 2.0 * (p * (f0 + t * e0 / 3.0)) == p * (3.0 * e0 - 2.0 * f0 - 2.0 * t * e0 / 3.0)
  {
    var x := t * e0 / 3.0;
    assert 2.0 * t * e0 / 3.0 == 2.0 * x;
    assert p * (3.0 * e0 - 2.0 * f0 - 2.0 * x) == 3.0 * (p * e0) - 2.0 * (p * (f0 + x));
  }

  /** What `t` common days leave in J of gaps `e0` in K and `f0` in D. */
  function JGapAfter(t: nat, e0: real, f0: real): real {
    Decay(t) * (3.0 * e0 - 2.0 * f0 - 2.0 * t as real * e0 / 3.0)
  }

  /** What `t` common days leave of gaps `e0` in K and `f0` in D. */
  ghost predicate ApartBy(a: seq<real>, b: seq<real>, t: nat, e0: real, f0: real)
    requires a != [] && b != []
  {
    && K(a) - K(b) == Decay(t) * e0
    && D(a) - D(b) == Decay(t) * (f0 + t as real * e0 / 3.0)
    && J(a) - J(b) == JGapAfter(t, e0, f0)
  }

  lemma {:induction false} GapsClosed(a: seq<real>, b: seq<real>, t: nat, e0: real, f0: real)
    requires a != [] && b != [] && K(a) - K(b) == KGap(t, e0) && D(a) - D(b) == DGap(t, e0, f0)
    ensures ApartBy(a, b, t, e0, f0)
  {
    KGapClosed(t, e0);
    DGapClosed(t, e0, f0);
    JGapIs(t, e0, f0);
    assert J(a) - J(b) == 3.0 * KGap(t, e0) - 2.0 * DGap(t, e0, f0);
  }

  lemma {:induction false} JGapIs(t: nat, e0: real, f0: real)
    ensures 3.0 * KGap(t, e0) - 2.0 * DGap(t, e0, f0) == JGapAfter(t, e0, f0)
  {
    KGapClosed(t, e0);
    DGapClosed(t, e0, f0);
    JGap(Decay(t), e0, f0, t as real);
  }

  /** The two-pass series, seeded on day 0, has seen `all[..n + t]` by day n - 1 + t; the fused loop is given
      `all[n - 1..n + t]`. On the same RSVs the two differ exactly by the decayed gap of day n - 1. */
  lemma {:induction false} ImplementationsConverge(all: seq<real>, n: nat, t: nat)
    requires n >= 1 && n + t <= |all|
    ensures ApartBy(all[..n + t], all[n - 1..n + t], t,
                    K(all[..n]) - K(all[n - 1..n]), D(all[..n]) - D(all[n - 1..n]))
  {
    var a, b := all[..n + t], all[n - 1..n + t];
    var e0, f0 := K(all[..n]) - K(all[n - 1..n]), D(all[..n]) - D(all[n - 1..n]);
    assert a[..|a| - t] == all[..n] && b[..|b| - t] == all[n - 1..n];
    GapsFollow(a, b, t, e0, f0);
    GapsClosed(a, b, t, e0, f0);
  }

  // ----- the two J values that the filters compare with their thresholds -----

  lemma {:induction false} JsApart(rsv: seq<real>, n: nat, t: nat)
    requires n >= 1 && n + t == |rsv|
    ensures J(rsv) - J(rsv[n - 1..]) == JGapAfter(t, K(rsv[..n]) - rsv[n - 1], D(rsv[..n]) - rsv[n - 1])
  {
    var e0, f0 := K(rsv[..n]) - rsv[n - 1], D(rsv[..n]) - rsv[n - 1];
    assert rsv[..n + t] == rsv && rsv[n - 1..n + t] == rsv[n - 1..] && rsv[n - 1..n] == [rsv[n - 1]];
    assert K([rsv[n - 1]]) == rsv[n - 1] == D([rsv[n - 1]]);
    ImplementationsConverge(rsv, n, t);
    JOfApart(rsv, rsv[n - 1..], t, e0, f0);
  }

  lemma {:induction false} JOfApart(a: seq<real>, b: seq<real>, t: nat, e0: real, f0: real)
    requires a != [] && b != [] && ApartBy(a, b, t, e0, f0)
    ensures J(a) - J(b) == JGapAfter(t, e0, f0)
  {
  }

  /** On the same bars the J that B1 tests and the J that B2 tests today differ exactly by what is left of the
      gap between their seeds on day 8. */
  lemma {:induction false} FiltersDisagreeBy(bars: seq<Bar>)
    requires |bars| >= KDJ_DAYS
    ensures var rsv := RsvSeries(bars, KDJ_DAYS);
            SeriesJ(bars, |bars| - 1) - FusedJ(bars)
            == JGapAfter(|bars| - KDJ_DAYS, K(rsv[..KDJ_DAYS]) - rsv[KDJ_DAYS - 1],
                         D(rsv[..KDJ_DAYS]) - rsv[KDJ_DAYS - 1])
  {
    hide RsvSeries, RsvAt, K, D, J, JGapAfter;
    var rsv := RsvSeries(bars, KDJ_DAYS);
    JsApart(rsv, KDJ_DAYS, |bars| - KDJ_DAYS);
    assert rsv[..|bars| - 1 + 1] == rsv;
  }

  /** On well-formed bars both lie in the tight interval. */
  lemma {:induction false} FiltersJWithin(bars: seq<Bar>, i: nat)
    requires i < |bars| && |bars| >= KDJ_DAYS && forall k :: 0 <= k < |bars| ==> WellFormed(bars[k])
    ensures J_MIN <= FusedJ(bars) <= J_MAX && J_MIN <= SeriesJ(bars, i) <= J_MAX
  {
    hide RsvSeries, RsvAt, K, D, J;
    var rsv := RsvSeries(bars, KDJ_DAYS);
    KdjBounds(bars, KDJ_DAYS, KDJ_DAYS - 1, |bars| - 1);
    KdjBounds(bars, KDJ_DAYS, 0, i);
    assert rsv[KDJ_DAYS - 1..|bars| - 1 + 1] == rsv[KDJ_DAYS - 1..];
    assert rsv[0..i + 1] == rsv[..i + 1];
  }
}
