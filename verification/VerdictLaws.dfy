/** The verdicts in terms of the candles, without divisions and without the functions that compute the percentages. */
module VerdictLaws {
  import opened Indicators
  import opened Wrappers
  import opened Verdicts

  /** Yesterday's close is positive; the range of today is below 7% of it and the close between 2% below and 2%
      above. */
  predicate CalmDay(today: Bar, prev: real) {
    prev > 0.0 ==>
      && 100.0 * (today.h - today.l) < 7.0 * prev
      && 98.0 * prev <= 100.0 * today.c < 102.0 * prev
  }

  lemma {:induction false} PercentIs(x: real, prev: real, bound: real)
    requires prev > 0.0
    ensures Percent(x, prev) < bound <==> 100.0 * x < bound * prev
    ensures bound <= Percent(x, prev) <==> bound * prev <= 100.0 * x
  {
    var q := x / prev;
    assert q * prev == x;
    Scaled(q * 100.0, bound, prev);
    assert q * 100.0 * prev == 100.0 * x;
  }

  lemma {:induction false} Scaled(a: real, b: real, p: real)
    requires p > 0.0
    ensures a < b <==> a * p < b * p
  {
  }

  lemma {:induction false} DayTells(today: Bar, prev: real)
    ensures DayConditions(today, prev) <==> CalmDay(today, prev)
  {
    if prev > 0.0 {
      hide Percent;
      PercentIs(today.h - today.l, prev, 7.0);
      PercentIs(today.c - prev, prev, -2.0);
      PercentIs(today.c - prev, prev, 2.0);
    }
  }

  /** Some day within the last 250 had at least double the volume of the day before, which traded. */
  ghost predicate SomeDayDoubled(bars: seq<Bar>) {
    exists k :: 0 < k < |bars| && |bars| - 250 < k && bars[k - 1].v > 0.0 && bars[k].v >= 2.0 * bars[k - 1].v
  }

  lemma {:induction false} DoubledIs(v: seq<real>, i: nat)
    requires 1 <= i < |v|
    ensures Doubled(v, i) <==> v[|v| - i - 1] > 0.0 && v[|v| - i] >= 2.0 * v[|v| - i - 1]
  {
    var a, b := v[|v| - i - 1], v[|v| - i];
    if a > 0.0 {
      var q := b / a;
      assert q * a == b;
      Scaled(q, 2.0, a);
    }
  }

  lemma {:induction false} VolumeTells(bars: seq<Bar>)
    ensures VolumeCondition(Volumes(bars)) <==> SomeDayDoubled(bars)
  {
    var v := Volumes(bars);
    if i :| 1 <= i < 250 && i < |v| && Doubled(v, i) {
      DoubledIs(v, i);
      assert 0 < |bars| - i < |bars| && bars[|bars| - i - 1].v > 0.0;
    }
    if k :| 0 < k < |bars| && |bars| - 250 < k && bars[k - 1].v > 0.0 && bars[k].v >= 2.0 * bars[k - 1].v {
      DoubledIs(v, |bars| - k);
    }
  }

  /** The close stands above its 60-day mean and the yellow line, the white line above the yellow one, and yesterday's
      close between the two lines, either way round. */
  predicate Uptrend(closes: seq<real>)
    requires |closes| >= MIN_DAYS
  {
    var close, prev, y, w := closes[|closes| - 1], closes[|closes| - 2], Yellow(closes), White(closes);
    && close * 60.0 > Sum(closes[|closes| - 60..])
    && y < close && y < w && y <= prev <= w
  }

  lemma {:induction false} TrendTells(closes: seq<real>)
    requires |closes| >= MIN_DAYS
    ensures TrendConditions(closes) <==> Uptrend(closes)
  {
    hide Yellow, White, Sum;
    var window := closes[|closes| - 60..];
    assert LastMa(closes, 60) * 60.0 == Sum(window);
  }

  /** Both market values are known and one of them is too small: circulating below 8 billion or total below 10
      billion. */
  predicate TooSmall(rt: Option<Realtime>) {
    && rt.Some? && rt.value.lt > 0.0 && rt.value.sz > 0.0
    && (rt.value.lt < 8.0e9 || rt.value.sz < 1.0e10)
  }

  /** With at least 19 weeks, last week closed no higher than the weekly white line. */
  predicate WeakWeek(weekly: seq<Bar>) {
    |weekly| >= 19 && weekly[|weekly| - 2].c <= White(Closes(weekly))
  }

  /** B1 on the candles: J below 13 in an uptrend, a calm day, a day of doubled volume in the last 250, no market value
      known to be too small and no weak week. */
  lemma {:induction false} B1Tells(bars: seq<Bar>, weekly: seq<Bar>, rt: Option<Realtime>)
    ensures B1Verdict(bars, weekly, rt)
            <==> && |bars| >= 120
                 && FusedJ(bars) < 13.0
                 && Uptrend(Closes(bars))
                 && CalmDay(bars[|bars| - 1], bars[|bars| - 2].c)
                 && SomeDayDoubled(bars)
                 && !TooSmall(rt)
                 && !WeakWeek(weekly)
  {
    if |bars| >= 120 {
      hide FusedJ, TrendConditions, DayConditions, VolumeCondition, Uptrend, CalmDay, SomeDayDoubled, White;
      TrendTells(Closes(bars));
      DayTells(bars[|bars| - 1], bars[|bars| - 2].c);
      VolumeTells(bars);
    }
  }

  // ----- B2 -----

  /** A rise of more than 3.95% over a positive close, on more volume. */
  predicate Rises(today: Bar, last: Bar) { last.c > 0.0 && 100.0 * today.c > 103.95 * last.c && today.v > last.v }

  /** A close above the open, and when the high is above yesterday's close, less than a fifth of the way from
      there to the high given up again. */
  predicate HoldsItsRise(today: Bar, prev: real) {
    today.c > today.o && (today.h > prev ==> 5.0 * (today.h - today.c) < today.h - prev)
  }

  lemma {:induction false} RiseTells(today: Bar, last: Bar)
    ensures RiseConditions(today, last) <==> Rises(today, last)
  {
    if last.c > 0.0 {
      var q := today.c / last.c;
      assert q * last.c == today.c;
      Scaled(1.0395, q, last.c);
      assert (q - 1.0) * 100.0 > 3.95 <==> q > 1.0395;
    }
  }

  lemma {:induction false} FifthOf(a: real, d: real)
    requires d > 0.0
    ensures a / d < 0.2 <==> 5.0 * a < d
  {
    var q := a / d;
    assert q * d == a;
    Scaled(q, 0.2, d);
  }

  lemma {:induction false} ShadowTells(today: Bar, prev: real)
    ensures CleanRise(today, prev) <==> HoldsItsRise(today, prev)
  {
    if today.h > prev { FifthOf(today.h - today.c, today.h - prev); }
  }

  /** The B2 verdicts on the candles. Both want a rise and today's J below 55; the loose one a negative J yesterday, the
      strict one a J below 13 yesterday, a rise that holds, and the close and the white line above the yellow line. */
  lemma {:induction false} B2Tells(bars: seq<Bar>)
    ensures B2Loose(bars)
            <==> && |bars| >= 120 && Rises(bars[|bars| - 1], bars[|bars| - 2])
                 && SeriesJ(bars, |bars| - 1) < 55.0 && SeriesJ(bars, |bars| - 2) < 0.0
    ensures B2Strict(bars)
            <==> && |bars| >= 120 && Rises(bars[|bars| - 1], bars[|bars| - 2])
                 && SeriesJ(bars, |bars| - 1) < 55.0 && SeriesJ(bars, |bars| - 2) < 13.0
                 && HoldsItsRise(bars[|bars| - 1], bars[|bars| - 2].c)
                 && Yellow(Closes(bars)) < bars[|bars| - 1].c && Yellow(Closes(bars)) < White(Closes(bars))
  {
    if |bars| >= 120 {
      hide SeriesJ, RiseConditions, CleanRise, Rises, HoldsItsRise, Yellow, White;
      RiseTells(bars[|bars| - 1], bars[|bars| - 2]);
      ShadowTells(bars[|bars| - 1], bars[|bars| - 2].c);
    }
  }
}
