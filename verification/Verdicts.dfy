/** The B1 and B2 verdicts: what they test, stated on the bars, and the methods that compute them. */
module Verdicts {
  import opened Indicators
  import opened Wrappers

  /** Circulating and total market value from the realtime feed. */
  datatype Realtime = Realtime(lt: real, sz: real)

  const MIN_DAYS := 120
  const KDJ_DAYS := 9
  const EMA_DAYS := 10

  /** The last element of the moving average of period `p`: the mean of the last `p` prices. */
  function LastMa(prices: seq<real>, p: nat): real
    requires 1 <= p <= |prices|
  {
    Mean(prices[|prices| - p..])
  }

  /** ZXDKX, the yellow line. */
  function Yellow(closes: seq<real>): real
    requires |closes| >= 114
  {
    (LastMa(closes, 14) + LastMa(closes, 28) + LastMa(closes, 57) + LastMa(closes, 114)) / 4.0
  }

  /** ZXDQ, the white line: the EMA of the EMA. */
  function White(closes: seq<real>): real
    requires |closes| >= 2 * EMA_DAYS - 1
  {
    Last(Ema(Ema(closes, EMA_DAYS), EMA_DAYS))
  }

  /** Percentage of `x` over the previous close, or 0 when that close is not positive. */
  function Percent(x: real, prev: real): real {
    if prev > 0.0 then x / prev * 100.0 else 0.0
  }

  function Volumes(bars: seq<Bar>): (s: seq<real>)
    ensures |s| == |bars| && forall i :: 0 <= i < |bars| ==> s[i] == bars[i].v
  {
    seq(|bars|, i requires 0 <= i < |bars| => bars[i].v)
  }

  /** Volume on day |v| - i at least doubled that of the day before. */
  predicate Doubled(v: seq<real>, i: nat)
    requires 1 <= i < |v|
  {
    v[|v| - i - 1] > 0.0 && v[|v| - i] / v[|v| - i - 1] >= 2.0
  }

  predicate VolumeCondition(v: seq<real>) {
    exists i :: 1 <= i < 250 && i < |v| && Doubled(v, i)
  }

  predicate MarketCapCondition(rt: Option<Realtime>) {
    rt.Some? && rt.value.lt > 0.0 && rt.value.sz > 0.0 ==>
      rt.value.lt >= 8000000000.0 && rt.value.sz >= 10000000000.0
  }

  /** Last week's close is above the weekly white line; waved through when there are too few weeks. */
  predicate WeeklyCondition(weekly: seq<Bar>) {
    |weekly| >= 2 * EMA_DAYS - 1 ==> Closes(weekly)[|weekly| - 2] > White(Closes(weekly))
  }

  function Min(x: real, y: real): real { if x <= y then x else y }

  function Max(x: real, y: real): real { if x >= y then x else y }

  /** The J of the last day as the fused loop computes it, from day 9 on. */
  function FusedJ(bars: seq<Bar>): real
    requires |bars| >= KDJ_DAYS
  {
    J(RsvSeries(bars, KDJ_DAYS)[KDJ_DAYS - 1..])
  }

  /** The conditions on the closes alone. */
  predicate TrendConditions(closes: seq<real>)
    requires |closes| >= MIN_DAYS
  {
    var close, prev := Last(closes), closes[|closes| - 2];
    && close > LastMa(closes, 60)
    && close > Yellow(closes)
    && White(closes) > Yellow(closes)
    && Min(Yellow(closes), White(closes)) <= prev <= Max(Yellow(closes), White(closes))
  }

  predicate DayConditions(today: Bar, prev: real) {
    && Percent(today.h - today.l, prev) < 7.0
    && -2.0 <= Percent(today.c - prev, prev) < 2.0
  }

  /** All eleven B1 conditions. */
  predicate B1Verdict(bars: seq<Bar>, weekly: seq<Bar>, rt: Option<Realtime>) {
    && |bars| >= MIN_DAYS
    && FusedJ(bars) < 13.0
    && TrendConditions(Closes(bars))
    && DayConditions(bars[|bars| - 1], bars[|bars| - 2].c)
    && VolumeCondition(Volumes(bars))
    && MarketCapCondition(rt)
    && WeeklyCondition(weekly)
  }

  method VolumeLoop(v: seq<real>) returns (found: bool)
    ensures found == VolumeCondition(v)
  {
    found := false;
    var i := 1;
    while i < 250 && i < |v|
      invariant 1 <= i && !found && forall k :: 1 <= k < i && k < |v| ==> !Doubled(v, k)
    {
      if v[|v| - (i + 1)] > 0.0 && v[|v| - i] / v[|v| - (i + 1)] >= 2.0 {
        assert Doubled(v, i);
        found := true;
        break;
      }
      i := i + 1;
    }
  }

  method LastOfMa(closes: seq<real>, p: nat) returns (x: real)
    requires 1 <= p <= |closes|
    ensures x == LastMa(closes, p)
  {
    var ma := CalculateMa(closes, p);
    x := ma.value[|ma.value| - 1];
    assert closes[|closes| - p..|closes|] == closes[|closes| - p..];
  }

  method YellowLine(closes: seq<real>) returns (y: real)
    requires |closes| >= 114
    ensures y == Yellow(closes)
  {
    var ma14 := LastOfMa(closes, 14);
    var ma28 := LastOfMa(closes, 28);
    var ma57 := LastOfMa(closes, 57);
    var ma114 := LastOfMa(closes, 114);
    y := (ma14 + ma28 + ma57 + ma114) / 4.0;
  }

  method WhiteLine(closes: seq<real>) returns (w: Option<real>)
    ensures w == if |closes| >= 2 * EMA_DAYS - 1 then Some(White(closes)) else None
  {
    var ema := CalculateEma(closes, EMA_DAYS);
    if ema.None? { return None; }
    var twice := CalculateEma(ema.value, EMA_DAYS);
    if twice.None? { return None; }
    w := Some(twice.value[|twice.value| - 1]);
  }

  method WeeklyLoop(weekly: seq<Bar>) returns (above: bool)
    ensures above == WeeklyCondition(weekly)
  {
    above := true;
    if |weekly| >= 2 {
      var closes := Closes(weekly);
      var white := WhiteLine(closes);
      if white.Some? { above := closes[|closes| - 2] > white.value; }
    }
  }

  method B1StrategyFilter(bars: seq<Bar>, weekly: seq<Bar>, rt: Option<Realtime>) returns (r: bool)
    ensures r == B1Verdict(bars, weekly, rt)
  {
    if |bars| < 120 { return false; }
    var closes := Closes(bars);
    var rsv := RsvFromDayN(bars, 9);
    var k, d, j := CalculateKdj(rsv);
    var white := WhiteLine(closes);
    var yellow := YellowLine(closes);
    var ma60 := LastOfMa(closes, 60);
    var today, prev := bars[|bars| - 1], closes[|closes| - 2];
    var amplitude, change := 0.0, 0.0;
    if prev > 0.0 {
      amplitude := (today.h - today.l) / prev * 100.0;
      change := (today.c - prev) / prev * 100.0;
    }
    var day := amplitude < 7.0 && change >= -2.0 && change < 2.0;
    assert day <==> DayConditions(today, prev);
    var volume := VolumeLoop(Volumes(bars));
    var cap := true;
    if rt.Some? && rt.value.lt > 0.0 && rt.value.sz > 0.0 {
      cap := rt.value.lt >= 800000.0 * 10000.0 && rt.value.sz >= 1000000.0 * 10000.0;
    }
    var between := Min(yellow, white.value) <= prev <= Max(yellow, white.value);
    var trend := today.c > ma60 && today.c > yellow && white.value > yellow && between;
    assert trend <==> TrendConditions(closes);
    var week := WeeklyLoop(weekly);
    r := j < 13.0 && trend && day && volume && cap && week;
  }

  // ----- B2 -----

  /** The J of day `i` in the two-pass series. */
  function SeriesJ(bars: seq<Bar>, i: nat): real
    requires i < |bars|
  {
    J(RsvSeries(bars, KDJ_DAYS)[..i + 1])
  }

  function ChangePercent(close: real, prev: real): real {
    if prev > 0.0 then (close / prev - 1.0) * 100.0 else 0.0
  }

  /** A positive candle whose upper shadow is less than a fifth of the day's rise. */
  predicate CleanRise(today: Bar, prev: real) {
    && today.c > today.o
    && (today.h > prev ==> (today.h - today.c) / (today.h - prev) < 0.2)
  }

  /** A rise of more than 3.95% on more volume than yesterday. */
  predicate RiseConditions(today: Bar, last: Bar) {
    ChangePercent(today.c, last.c) > 3.95 && today.v > last.v
  }

  /** The three conditions that both B2 verdicts share. */
  predicate B2Common(bars: seq<Bar>)
    requires |bars| >= MIN_DAYS
  {
    RiseConditions(bars[|bars| - 1], bars[|bars| - 2]) && SeriesJ(bars, |bars| - 1) < 55.0
  }

  predicate B2Loose(bars: seq<Bar>) {
    |bars| >= MIN_DAYS && B2Common(bars) && SeriesJ(bars, |bars| - 2) < 0.0
  }

  /** What the strict verdict asks besides a low J yesterday. */
  predicate B2Quality(bars: seq<Bar>)
    requires |bars| >= MIN_DAYS
  {
    CleanRise(bars[|bars| - 1], bars[|bars| - 2].c) && AboveYellow(Closes(bars))
  }

  /** Both the close and the white line are above the yellow line. */
  predicate AboveYellow(closes: seq<real>)
    requires |closes| >= 114
  {
    Last(closes) > Yellow(closes) && White(closes) > Yellow(closes)
  }

  predicate B2Strict(bars: seq<Bar>) {
    |bars| >= MIN_DAYS && B2Common(bars) && SeriesJ(bars, |bars| - 2) < 13.0 && B2Quality(bars)
  }

  method B2Filter(bars: seq<Bar>) returns (strict: bool, loose: bool)
    ensures strict == B2Strict(bars) && loose == B2Loose(bars)
  {
    hide Closes, K, D, White, Yellow;
    if |bars| < 120 { return false, false; }
    var closes := Closes(bars);
    var n := |bars|;
    var ks, ds, js := CalculateKdjSeries(bars, 9);
    var jToday, jLast := js[n - 1], js[n - 2];
    var today, last := bars[n - 1], bars[n - 2];
    var change := if last.c > 0.0 then (today.c / last.c - 1.0) * 100.0 else 0.0;
    var cond2, cond3, cond4 := change > 3.95, today.v > last.v, jToday < 55.0;
    loose := jLast < 0.0 && cond2 && cond3 && cond4;
    var isYang := today.c > today.o;
    var shadow := 0.0;
    if today.h > last.c && isYang { shadow := (today.h - today.c) / (today.h - last.c); }
    var cond5 := isYang && shadow < 0.2;
    var white := WhiteLine(closes);
    var yellow := YellowLine(closes);
    strict := jLast < 13.0 && cond2 && cond3 && cond4 && cond5 && today.c > yellow && white.value > yellow;
  }

  /** On the same bars no stock passes B1 and a B2: B1 wants a rise below 2%, B2 one above 3.95%. */
  lemma {:induction false} NeverBoth(bars: seq<Bar>, weekly: seq<Bar>, rt: Option<Realtime>)
    requires B1Verdict(bars, weekly, rt)
    ensures !B2Strict(bars) && !B2Loose(bars)
  {
    DayExcludesRise(bars[|bars| - 1], bars[|bars| - 2]);
  }

  lemma {:induction false} DayExcludesRise(today: Bar, last: Bar)
    requires DayConditions(today, last.c)
    ensures !RiseConditions(today, last)
  {
    if last.c > 0.0 { RiseAgrees(today.c, last.c); }
  }

  lemma {:induction false} RiseAgrees(c: real, p: real)
    requires p > 0.0
    ensures (c - p) / p * 100.0 == (c / p - 1.0) * 100.0
  {
    assert (c - p) / p == c / p - p / p;
  }

}
