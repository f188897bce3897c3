/** What the indicators are in terms of the candles, told without the functions that compute them: sums by addition,
    means and averages by multiplication, the RSV by the extremes of its window. */
module IndicatorLaws {
  import opened Indicators
  import opened Verdicts
  import opened KdjTheory

  // ----- sums and averages -----

  /** The sum of one price is that price, and the sum of two stretches is the sum of their sums. */
  lemma {:induction false} SumIs(s: seq<real>, t: seq<real>, x: real)
    ensures Sum([x]) == x && Sum([]) == 0.0
    ensures Sum(s + t) == Sum(s) + Sum(t)
  {
    assert [x][..0] == [];
    if t == [] {
      assert s + t == s;
    } else {
      var front := t[..|t| - 1];
      SumIs(s, front, x);
      assert (s + t)[..|s + t| - 1] == s + front;
    }
  }

  lemma {:induction false} MeanIs(s: seq<real>)
    requires s != []
    ensures Mean(s) * |s| as real == Sum(s)
  {
  }

  /** Raising one price by `x` raises the sum by `x`. */
  lemma {:induction false} SumChanges(s: seq<real>, i: nat, x: real)
    requires i < |s|
    ensures Sum(s[i := s[i] + x]) == Sum(s) + x
  {
    var t, front := s[i := s[i] + x], s[..|s| - 1];
    if i == |s| - 1 {
      assert t[..|t| - 1] == front;
    } else {
      SumChanges(front, i, x);
      assert t[..|t| - 1] == front[i := front[i] + x];
    }
  }

  lemma {:induction false} EmaPrefix(prices: seq<real>, p: nat, k: nat)
    requires 1 <= p && p + k <= |prices|
    ensures Ema(prices[..p + k], p) == Ema(prices, p)[..k + 1]
  {
    if p + k == |prices| {
      assert prices[..p + k] == prices;
    } else {
      var front := prices[..|prices| - 1];
      EmaPrefix(front, p, k);
      assert front[..p + k] == prices[..p + k];
      assert Ema(prices, p)[..k + 1] == Ema(front, p)[..k + 1];
    }
  }

  lemma {:induction false} EmaSeed(prices: seq<real>, p: nat)
    requires 1 <= p <= |prices|
    ensures Ema(prices, p)[0] == Mean(prices[..p])
  {
    hide Mean;
    EmaPrefix(prices, p, 0);
    assert prices[..p + 0] == prices[..p];
    assert Ema(prices[..p], p) == [Mean(prices[..p])];
    assert Ema(prices, p)[..1][0] == Ema(prices, p)[0];
  }

  lemma {:induction false} EmaStep(prices: seq<real>, p: nat, k: nat)
    requires 1 <= p && 0 < k && p + k <= |prices|
    ensures Ema(prices, p)[k] == EmaNext(Ema(prices, p)[k - 1], prices[p + k - 1], p)
  {
    hide Mean, EmaNext;
    var e, now, before := Ema(prices, p), prices[..p + k], prices[..p + (k - 1)];
    EmaPrefix(prices, p, k);
    EmaPrefix(prices, p, k - 1);
    assert now[..|now| - 1] == before && Last(now) == prices[p + k - 1];
    assert Ema(now, p) == Ema(before, p) + [EmaNext(Last(Ema(before, p)), Last(now), p)];
    assert Last(Ema(before, p)) == e[..k][k - 1] == e[k - 1];
    assert Ema(now, p)[k] == e[..k + 1][k] == e[k];
  }

  /** p + 1 parts of the new average are two parts of the price and p - 1 parts of the average before. */
  predicate IsMix(now: real, price: real, before: real, p: nat) {
    now * (p as real + 1.0) == 2.0 * price + (p as real - 1.0) * before
  }

  /** `e` starts with the mean of the first `p` prices and goes on by mixing in one price after the other. */
  ghost predicate IsEma(prices: seq<real>, p: nat, e: seq<real>)
    requires 1 <= p <= |prices|
  {
    && |e| == |prices| - p + 1
    && e[0] * p as real == Sum(prices[..p])
    && forall k :: 0 < k < |e| ==> IsMix(e[k], prices[p + k - 1], e[k - 1], p)
  }

  lemma {:induction false} EmaIs(prices: seq<real>, p: nat)
    requires 1 <= p <= |prices|
    ensures IsEma(prices, p, Ema(prices, p))
  {
    hide Ema, Mean, EmaNext, Sum, IsMix;
    var e := Ema(prices, p);
    EmaSeed(prices, p);
    MeanIs(prices[..p]);
    forall k | 0 < k < |e| ensures IsMix(e[k], prices[p + k - 1], e[k - 1], p) {
      EmaStep(prices, p, k);
      MixIs(e[k - 1], prices[p + k - 1], p);
    }
  }

  lemma {:induction false} SameFactor(x: real, y: real, a: real)
    requires a > 0.0 && x * a == y * a
    ensures x == y
  {
  }

  /** There is only one such list. */
  lemma {:induction false} OneEma(prices: seq<real>, p: nat, e: seq<real>, f: seq<real>, k: nat)
    requires 1 <= p <= |prices| && IsEma(prices, p, e) && IsEma(prices, p, f) && k < |e|
    ensures e[k] == f[k]
  {
    if k == 0 {
      SameFactor(e[0], f[0], p as real);
    } else {
      OneEma(prices, p, e, f, k - 1);
      assert IsMix(e[k], prices[p + k - 1], e[k - 1], p) && IsMix(f[k], prices[p + k - 1], f[k - 1], p);
      SameFactor(e[k], f[k], p as real + 1.0);
    }
  }

  /** The white line is the last value of a 10-day EMA of a 10-day EMA. */
  lemma {:induction false} WhiteIs(closes: seq<real>, once: seq<real>, twice: seq<real>)
    requires |closes| >= 19 && |once| == |closes| - 9 && |twice| == |once| - 9
    requires IsEma(closes, 10, once) && IsEma(once, 10, twice)
    ensures White(closes) == twice[|twice| - 1]
  {
    hide Ema, IsEma;
    EmaIs(closes, 10);
    forall k | 0 <= k < |once| ensures once[k] == Ema(closes, 10)[k] {
      OneEma(closes, 10, once, Ema(closes, 10), k);
    }
    assert once == Ema(closes, 10);
    EmaIs(once, 10);
    OneEma(once, 10, twice, Ema(once, 10), |twice| - 1);
  }

  lemma {:induction false} MixIs(prev: real, x: real, p: nat)
    ensures IsMix(EmaNext(prev, x, p), x, prev, p)
  {
    var n, share := p as real + 1.0, 2.0 / (p as real + 1.0);
    assert share * n == 2.0;
    assert EmaNext(prev, x, p) * n == (x - prev) * (share * n) + prev * n;
  }

  // ----- RSV -----

  /** Day `k` lies in the window of the last `n` days up to day `i`. */
  predicate InWindow(i: nat, n: nat, k: int) { 0 <= k <= i && i - n < k }

  ghost predicate IsHigh(bars: seq<Bar>, i: nat, n: nat, hh: real)
    requires i < |bars|
  {
    && (exists k :: InWindow(i, n, k) && bars[k].h == hh)
    && forall k :: InWindow(i, n, k) ==> bars[k].h <= hh
  }

  ghost predicate IsLow(bars: seq<Bar>, i: nat, n: nat, ll: real)
    requires i < |bars|
  {
    && (exists k :: InWindow(i, n, k) && bars[k].l == ll)
    && forall k :: InWindow(i, n, k) ==> ll <= bars[k].l
  }

  /** The value that goes with the close and the extremes of the window: 50 when they are equal. */
  predicate IsRsv(x: real, c: real, hh: real, ll: real) {
    if hh == ll then x == 50.0 else x * (hh - ll) == (c - ll) * 100.0
  }

  lemma {:induction false} WindowIs(i: nat, n: nat, k: int)
    requires n >= 1
    ensures InWindow(i, n, k) <==> WindowStart(i, n) <= k <= i
  {
  }

  lemma {:induction false} WindowHigh(bars: seq<Bar>, i: nat, n: nat, hh: real)
    requires n >= 1 && i < |bars| && IsHigh(bars, i, n, hh)
    ensures MaxOf(Highs(bars)[WindowStart(i, n)..i + 1]) == hh
  {
    hide MaxOf, Highs, WindowStart;
    var w := WindowStart(i, n);
    var highs := Highs(bars)[w..i + 1];
    MaxOfIsGreatest(highs);
    var a :| InWindow(i, n, a) && bars[a].h == hh;
    WindowIs(i, n, a);
    assert highs[a - w] == hh;
    var c :| 0 <= c < |highs| && highs[c] == MaxOf(highs);
    WindowIs(i, n, w + c);
  }

  lemma {:induction false} WindowLow(bars: seq<Bar>, i: nat, n: nat, ll: real)
    requires n >= 1 && i < |bars| && IsLow(bars, i, n, ll)
    ensures MinOf(Lows(bars)[WindowStart(i, n)..i + 1]) == ll
  {
    hide MinOf, Lows, WindowStart;
    var w := WindowStart(i, n);
    var lows := Lows(bars)[w..i + 1];
    MinOfIsLeast(lows);
    var b :| InWindow(i, n, b) && bars[b].l == ll;
    WindowIs(i, n, b);
    assert lows[b - w] == ll;
    var d :| 0 <= d < |lows| && lows[d] == MinOf(lows);
    WindowIs(i, n, w + d);
  }

  lemma {:induction false} RsvOf(c: real, highs: seq<real>, lows: seq<real>)
    requires highs != [] && lows != []
    ensures IsRsv(Rsv(c, highs, lows), c, MaxOf(highs), MinOf(lows))
  {
    var range := MaxOf(highs) - MinOf(lows);
    if range != 0.0 {
      var q := (c - MinOf(lows)) / range;
      assert q * range == c - MinOf(lows);
      assert q * 100.0 * range == q * range * 100.0;
    }
  }

  /** The RSV of a day is given by its close and the highest high and lowest low of its window; it is 50 on a window
      without any range. */
  lemma {:induction false} RsvTells(bars: seq<Bar>, i: nat, n: nat, hh: real, ll: real)
    requires n >= 1 && i < |bars| && IsHigh(bars, i, n, hh) && IsLow(bars, i, n, ll)
    ensures IsRsv(RsvSeries(bars, n)[i], bars[i].c, hh, ll)
  {
    hide MaxOf, MinOf, Rsv, IsRsv, IsHigh, IsLow;
    var w := WindowStart(i, n);
    WindowHigh(bars, i, n, hh);
    WindowLow(bars, i, n, ll);
    RsvOf(bars[i].c, Highs(bars)[w..i + 1], Lows(bars)[w..i + 1]);
  }

  /** Element `t` of the list that the B1 filter builds is the RSV of day n - 1 + t. */
  lemma {:induction false} FilterRsvTells(bars: seq<Bar>, n: nat, t: nat, hh: real, ll: real)
    requires n >= 1 && n - 1 + t < |bars| && IsHigh(bars, n - 1 + t, n, hh) && IsLow(bars, n - 1 + t, n, ll)
    ensures IsRsv(RsvSeries(bars, n)[n - 1..][t], bars[n - 1 + t].c, hh, ll)
  {
    RsvTells(bars, n - 1 + t, n, hh, ll);
  }

  /** A suspended stock: every candle is the one price `x`. */
  ghost predicate Suspended(bars: seq<Bar>, x: real) {
    forall k :: 0 <= k < |bars| ==> bars[k].h == x && bars[k].l == x
  }

  /** On flat candles both filters see K, D and J at 50. */
  lemma {:induction false} SuspendedIsFifty(bars: seq<Bar>, x: real, n: nat, from: nat, i: nat)
    requires n >= 1 && from <= i < |bars| && Suspended(bars, x)
    ensures var rsv := RsvSeries(bars, n)[from..i + 1]; K(rsv) == D(rsv) == J(rsv) == 50.0
  {
    hide RsvAt, K, D;
    var rsv := RsvSeries(bars, n)[from..i + 1];
    forall k | 0 <= k < |rsv| ensures rsv[k] == 50.0 { FlatRsv(bars, x, n, from + k); }
    LevelKd(rsv, 50.0);
  }

  lemma {:induction false} FlatRsv(bars: seq<Bar>, x: real, n: nat, i: nat)
    requires n >= 1 && i < |bars| && Suspended(bars, x)
    ensures RsvSeries(bars, n)[i] == 50.0
  {
    assert InWindow(i, n, i);
    RsvTells(bars, i, n, x, x);
  }

  lemma {:induction false} SuspendedJ(bars: seq<Bar>, x: real, i: nat)
    requires i < |bars| && |bars| >= KDJ_DAYS && Suspended(bars, x)
    ensures FusedJ(bars) == 50.0 && SeriesJ(bars, i) == 50.0
  {
    hide RsvSeries, K, D, J, Suspended;
    var n, rsv := |bars|, RsvSeries(bars, KDJ_DAYS);
    SuspendedIsFifty(bars, x, KDJ_DAYS, KDJ_DAYS - 1, n - 1);
    SuspendedIsFifty(bars, x, KDJ_DAYS, 0, i);
    assert rsv[KDJ_DAYS - 1..n - 1 + 1] == rsv[KDJ_DAYS - 1..] && rsv[0..i + 1] == rsv[..i + 1];
  }

  /** So a suspended stock is at 50 in both filters: too high for B1, and for yesterday's J of both B2 verdicts. */
  lemma {:induction false} SuspendedPassesNothing(bars: seq<Bar>, x: real)
    requires |bars| >= MIN_DAYS && Suspended(bars, x)
    ensures FusedJ(bars) == 50.0 && SeriesJ(bars, |bars| - 1) == 50.0 && SeriesJ(bars, |bars| - 2) == 50.0
    ensures !B2Strict(bars) && !B2Loose(bars)
    ensures forall weekly, rt :: !B1Verdict(bars, weekly, rt)
  {
    hide FusedJ, SeriesJ, Suspended;
    SuspendedJ(bars, x, |bars| - 1);
    SuspendedJ(bars, x, |bars| - 2);
  }

  // ----- the yellow line -----

  lemma {:induction false} LastMaChanges(closes: seq<real>, p: nat, age: nat, x: real)
    requires 1 <= p <= |closes| && age < |closes|
    ensures var i := |closes| - 1 - age;
            LastMa(closes[i := closes[i] + x], p) == LastMa(closes, p) + if age < p then x / p as real else 0.0
  {
    var i, from := |closes| - 1 - age, |closes| - p;
    var window := closes[from..];
    if age < p {
      SumChanges(window, i - from, x);
      assert closes[i := closes[i] + x][from..] == window[i - from := window[i - from] + x];
      QuotientOfSum(Sum(window), x, p as real);
    } else {
      assert closes[i := closes[i] + x][from..] == window;
    }
  }

  lemma {:induction false} QuotientOfSum(s: real, x: real, p: real)
    requires p != 0.0
    ensures (s + x) / p == s / p + x / p
  {
  }

  /** The weight of a close `age` days ago in the yellow line. */
  function YellowWeight(age: nat): real {
    if age < 14 then (1.0 / 14.0 + 1.0 / 28.0 + 1.0 / 57.0 + 1.0 / 114.0) / 4.0
    else if age < 28 then (1.0 / 28.0 + 1.0 / 57.0 + 1.0 / 114.0) / 4.0
    else if age < 57 then (1.0 / 57.0 + 1.0 / 114.0) / 4.0
    else if age < 114 then 1.0 / 114.0 / 4.0
    else 0.0
  }

  /** Raising one close moves the yellow line by its weight, which falls with the age of the close in four steps and is
      nothing from 114 days on; without any close it is 0. */
  lemma {:induction false} YellowMoves(closes: seq<real>, age: nat, x: real)
    requires |closes| >= 114 && age < |closes|
    ensures var i := |closes| - 1 - age;
            Yellow(closes[i := closes[i] + x]) == Yellow(closes) + x * YellowWeight(age)
  {
    hide LastMa;
    LastMaChanges(closes, 14, age, x);
    LastMaChanges(closes, 28, age, x);
    LastMaChanges(closes, 57, age, x);
    LastMaChanges(closes, 114, age, x);
  }
}
