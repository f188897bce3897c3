/** The verdicts do not depend on the currency or the volume unit. The lemmas are about an abstract change of
    unit `f`, of which only the laws of `Unit` are known; multiplication by a positive constant is one. */
module ScaleInvariance {
  import opened Indicators
  import opened Wrappers
  import opened Verdicts

  // ----- the laws of a change of unit -----

  ghost predicate Ordered(f: real -> real, x: real, y: real) { f(x) < f(y) <==> x < y }

  ghost predicate Plus(f: real -> real, x: real, y: real) { f(x) + f(y) == f(x + y) && f(x) - f(y) == f(x - y) }

  ghost predicate Factor(f: real -> real, x: real, a: real, y: real) { y == x * a ==> f(y) == f(x) * a }

  ghost predicate Divided(f: real -> real, x: real, a: real, y: real) { a != 0.0 && y == x / a ==> f(y) == f(x) / a }

  ghost predicate SameRatio(f: real -> real, x: real, y: real) { y != 0.0 ==> f(y) != 0.0 && f(x) / f(y) == x / y }

  ghost predicate Unit(f: real -> real) {
    && f(0.0) == 0.0
    && (forall x, y :: Ordered(f, x, y))
    && (forall x, y :: Plus(f, x, y))
    && (forall x, a, y :: Factor(f, x, a, y))
    && (forall x, a, y :: Divided(f, x, a, y))
    && (forall x, y :: SameRatio(f, x, y))
  }

  lemma {:induction false} Same(f: real -> real, x: real, y: real)
    requires Unit(f)
    ensures f(x) <= f(y) <==> x <= y
    ensures f(x) < f(y) <==> x < y
    ensures f(x) == f(y) <==> x == y
    ensures f(x) > 0.0 <==> x > 0.0
    ensures f(x) == 0.0 <==> x == 0.0
  {
    assert Ordered(f, x, y) && Ordered(f, y, x) && Ordered(f, 0.0, x) && Ordered(f, x, 0.0);
  }

  predicate Mapped(s: seq<real>, t: seq<real>, f: real -> real) {
    |t| == |s| && forall i :: 0 <= i < |s| ==> t[i] == f(s[i])
  }

  function MapBar(b: Bar, f: real -> real, g: real -> real): Bar { Bar(f(b.o), f(b.h), f(b.l), f(b.c), g(b.v)) }

  function MapBars(bars: seq<Bar>, f: real -> real, g: real -> real): (r: seq<Bar>)
    ensures |r| == |bars| && forall i :: 0 <= i < |bars| ==> r[i] == MapBar(bars[i], f, g)
  {
    seq(|bars|, i requires 0 <= i < |bars| => MapBar(bars[i], f, g))
  }

  // ----- sums and averages -----

  lemma {:induction false} SumMapped(s: seq<real>, t: seq<real>, f: real -> real)
    requires Unit(f) && Mapped(s, t, f)
    ensures Sum(t) == f(Sum(s))
  {
    if s != [] {
      SumMapped(s[..|s| - 1], t[..|t| - 1], f);
      assert Plus(f, Sum(s[..|s| - 1]), Last(s));
    }
  }

  lemma {:induction false} MeanMapped(s: seq<real>, t: seq<real>, f: real -> real)
    requires s != [] && Unit(f) && Mapped(s, t, f)
    ensures Mean(t) == f(Mean(s))
  {
    SumMapped(s, t, f);
    assert Divided(f, Sum(s), |s| as real, Mean(s));
  }

  /** A fixed share `a` of the distance from `prev` to `x`, in both units. */
  lemma {:induction false} ShareMapped(f: real -> real, prev: real, x: real, a: real, u: real, y: real, u': real)
    requires Unit(f) && u == x - prev && y == u * a && u' == f(x) - f(prev)
    ensures f(y) == u' * a && f(y + prev) == f(y) + f(prev)
  {
    assert Plus(f, x, prev) && Factor(f, u, a, y) && Plus(f, y, prev);
    assert f(u) == u';
  }

  lemma {:induction false} EmaNextIs(prev: real, x: real, p: nat, a: real, u: real, y: real)
    requires a == 2.0 / (p as real + 1.0) && u == x - prev && y == u * a
    ensures EmaNext(prev, x, p) == y + prev
  {
  }

  lemma {:induction false} EmaNextMapped(f: real -> real, prev: real, x: real, p: nat)
    requires Unit(f)
    ensures EmaNext(f(prev), f(x), p) == f(EmaNext(prev, x, p))
  {
    hide Unit, EmaNext;
    var a := 2.0 / (p as real + 1.0);
    var u, u' := x - prev, f(x) - f(prev);
    var y := u * a;
    ShareMapped(f, prev, x, a, u, y, u');
    EmaNextIs(prev, x, p, a, u, y);
    EmaNextIs(f(prev), f(x), p, a, u', f(y));
  }

  lemma {:induction false} EmaMapped(s: seq<real>, t: seq<real>, f: real -> real, p: nat)
    requires 1 <= p <= |s| && Unit(f) && Mapped(s, t, f)
    ensures Mapped(Ema(s, p), Ema(t, p), f)
  {
    hide Unit, Mean, EmaNext;
    if |s| == p {
      MeanMapped(s, t, f);
    } else {
      var s', t' := s[..|s| - 1], t[..|t| - 1];
      EmaMapped(s', t', f, p);
      EmaNextMapped(f, Last(Ema(s', p)), Last(s), p);
    }
  }

  lemma {:induction false} WhiteMapped(s: seq<real>, t: seq<real>, f: real -> real)
    requires |s| >= 2 * EMA_DAYS - 1 && Unit(f) && Mapped(s, t, f)
    ensures White(t) == f(White(s))
  {
    EmaMapped(s, t, f, EMA_DAYS);
    EmaMapped(Ema(s, EMA_DAYS), Ema(t, EMA_DAYS), f, EMA_DAYS);
  }

  lemma {:induction false} LastMaMapped(s: seq<real>, t: seq<real>, f: real -> real, p: nat)
    requires 1 <= p <= |s| && Unit(f) && Mapped(s, t, f)
    ensures LastMa(t, p) == f(LastMa(s, p))
  {
    MeanMapped(s[|s| - p..], t[|t| - p..], f);
  }

  lemma {:induction false} YellowMapped(s: seq<real>, t: seq<real>, f: real -> real)
    requires |s| >= 114 && Unit(f) && Mapped(s, t, f)
    ensures Yellow(t) == f(Yellow(s))
  {
    LastMaMapped(s, t, f, 14);
    LastMaMapped(s, t, f, 28);
    LastMaMapped(s, t, f, 57);
    LastMaMapped(s, t, f, 114);
    FourMapped(f, LastMa(s, 14), LastMa(s, 28), LastMa(s, 57), LastMa(s, 114));
  }

  lemma {:induction false} FourMapped(f: real -> real, w: real, x: real, y: real, z: real)
    requires Unit(f)
    ensures (f(w) + f(x) + f(y) + f(z)) / 4.0 == f((w + x + y + z) / 4.0)
  {
    assert Plus(f, w, x) && Plus(f, w + x, y) && Plus(f, w + x + y, z);
    assert Divided(f, w + x + y + z, 4.0, (w + x + y + z) / 4.0);
  }

  lemma {:induction false} MaxMapped(s: seq<real>, t: seq<real>, f: real -> real)
    requires s != [] && Unit(f) && Mapped(s, t, f)
    ensures MaxOf(t) == f(MaxOf(s))
  {
    if |s| > 1 {
      MaxMapped(s[..|s| - 1], t[..|t| - 1], f);
      Same(f, MaxOf(s[..|s| - 1]), Last(s));
    }
  }

  lemma {:induction false} MinMapped(s: seq<real>, t: seq<real>, f: real -> real)
    requires s != [] && Unit(f) && Mapped(s, t, f)
    ensures MinOf(t) == f(MinOf(s))
  {
    if |s| > 1 {
      MinMapped(s[..|s| - 1], t[..|t| - 1], f);
      Same(f, MinOf(s[..|s| - 1]), Last(s));
    }
  }

  // ----- RSV, and with it K, D and J, keep their value -----

  lemma {:induction false} RsvMapped(close: real, highs: seq<real>, lows: seq<real>, highs': seq<real>,
                                     lows': seq<real>, f: real -> real)
    requires highs != [] && lows != [] && Unit(f) && Mapped(highs, highs', f) && Mapped(lows, lows', f)
    ensures Rsv(f(close), highs', lows') == Rsv(close, highs, lows)
  {
    MaxMapped(highs, highs', f);
    MinMapped(lows, lows', f);
    var hh, ll := MaxOf(highs), MinOf(lows);
    assert Plus(f, hh, ll) && Plus(f, close, ll) && SameRatio(f, close - ll, hh - ll);
    Same(f, hh - ll, 0.0);
  }

  lemma {:induction false} RsvSeriesMapped(bars: seq<Bar>, f: real -> real, g: real -> real, n: nat)
    requires n >= 1 && Unit(f)
    ensures RsvSeries(MapBars(bars, f, g), n) == RsvSeries(bars, n)
  {
    var bars' := MapBars(bars, f, g);
    forall i | 0 <= i < |bars| ensures RsvAt(bars', i, n) == RsvAt(bars, i, n) {
      var w := WindowStart(i, n);
      var highs, lows := Highs(bars)[w..i + 1], Lows(bars)[w..i + 1];
      RsvMapped(bars[i].c, highs, lows, Highs(bars')[w..i + 1], Lows(bars')[w..i + 1], f);
    }
  }

  // ----- the conditions -----

  lemma {:induction false} ColumnsMapped(bars: seq<Bar>, f: real -> real, g: real -> real)
    ensures Mapped(Closes(bars), Closes(MapBars(bars, f, g)), f)
    ensures Mapped(Volumes(bars), Volumes(MapBars(bars, f, g)), g)
  {
  }

  lemma {:induction false} TrendMapped(s: seq<real>, t: seq<real>, f: real -> real)
    requires |s| >= MIN_DAYS && Unit(f) && Mapped(s, t, f)
    ensures TrendConditions(t) == TrendConditions(s)
  {
    YellowMapped(s, t, f);
    WhiteMapped(s, t, f);
    LastMaMapped(s, t, f, 60);
    Same(f, LastMa(s, 60), Last(s));
    Same(f, Yellow(s), Last(s));
    Same(f, Yellow(s), White(s));
    BetweenMapped(f, Yellow(s), White(s), s[|s| - 2]);
  }

  lemma {:induction false} BetweenMapped(f: real -> real, y: real, w: real, x: real)
    requires Unit(f)
    ensures Min(f(y), f(w)) <= f(x) <= Max(f(y), f(w)) <==> Min(y, w) <= x <= Max(y, w)
  {
    Same(f, y, w);
    Same(f, w, y);
    Same(f, y, x);
    Same(f, w, x);
    Same(f, x, y);
    Same(f, x, w);
  }

  lemma {:induction false} PercentMapped(f: real -> real, x: real, prev: real)
    requires Unit(f)
    ensures Percent(f(x), f(prev)) == Percent(x, prev)
  {
    Same(f, prev, prev);
    assert SameRatio(f, x, prev);
  }

  lemma {:induction false} DayMapped(b: Bar, prev: real, f: real -> real, g: real -> real)
    requires Unit(f)
    ensures DayConditions(MapBar(b, f, g), f(prev)) == DayConditions(b, prev)
  {
    assert Plus(f, b.h, b.l) && Plus(f, b.c, prev);
    PercentMapped(f, b.h - b.l, prev);
    PercentMapped(f, b.c - prev, prev);
  }

  lemma {:induction false} VolumeMapped(s: seq<real>, t: seq<real>, g: real -> real)
    requires Unit(g) && Mapped(s, t, g)
    ensures VolumeCondition(t) == VolumeCondition(s)
  {
    forall i | 1 <= i < |s| ensures Doubled(t, i) == Doubled(s, i) {
      Same(g, s[|s| - i - 1], 0.0);
      assert SameRatio(g, s[|s| - i], s[|s| - i - 1]);
    }
  }

  lemma {:induction false} WeekMapped(s: seq<real>, t: seq<real>, f: real -> real)
    requires |s| >= 2 * EMA_DAYS - 1 && Unit(f) && Mapped(s, t, f)
    ensures t[|t| - 2] > White(t) <==> s[|s| - 2] > White(s)
  {
    hide Unit, White;
    WhiteMapped(s, t, f);
    Same(f, White(s), s[|s| - 2]);
  }

  lemma {:induction false} WeeklyMapped(weekly: seq<Bar>, f: real -> real, g: real -> real)
    requires Unit(f)
    ensures WeeklyCondition(MapBars(weekly, f, g)) == WeeklyCondition(weekly)
  {
    hide Unit, MapBars, Closes, White;
    ColumnsMapped(weekly, f, g);
    if |weekly| >= 2 * EMA_DAYS - 1 {
      WeekMapped(Closes(weekly), Closes(MapBars(weekly, f, g)), f);
    }
  }

  // ----- the verdicts under a change of units -----

  lemma {:induction false} FusedJMapped(bars: seq<Bar>, f: real -> real, g: real -> real)
    requires Unit(f) && |bars| >= KDJ_DAYS
    ensures FusedJ(MapBars(bars, f, g)) == FusedJ(bars)
  {
    RsvSeriesMapped(bars, f, g, KDJ_DAYS);
  }

  /** What decides B1, apart from the market value. */
  datatype B1Inputs = B1Inputs(j: real, trend: bool, day: bool, volume: bool, week: bool) {
    predicate Pass() { j < 13.0 && trend && day && volume && week }
  }

  function B1InputsOf(bars: seq<Bar>, weekly: seq<Bar>): B1Inputs
    requires |bars| >= MIN_DAYS
  {
    B1Inputs(FusedJ(bars), TrendConditions(Closes(bars)), DayConditions(bars[|bars| - 1], bars[|bars| - 2].c),
             VolumeCondition(Volumes(bars)), WeeklyCondition(weekly))
  }

  lemma {:induction false} B1Is(bars: seq<Bar>, weekly: seq<Bar>, rt: Option<Realtime>)
    requires |bars| >= MIN_DAYS
    ensures B1Verdict(bars, weekly, rt) <==> B1InputsOf(bars, weekly).Pass() && MarketCapCondition(rt)
  {
  }

  lemma {:induction false} ConditionsMapped(bars: seq<Bar>, f: real -> real, g: real -> real)
    requires Unit(f) && Unit(g) && |bars| >= MIN_DAYS
    ensures TrendConditions(Closes(MapBars(bars, f, g))) == TrendConditions(Closes(bars))
    ensures VolumeCondition(Volumes(MapBars(bars, f, g))) == VolumeCondition(Volumes(bars))
  {
    ColumnsMapped(bars, f, g);
    TrendMapped(Closes(bars), Closes(MapBars(bars, f, g)), f);
    VolumeMapped(Volumes(bars), Volumes(MapBars(bars, f, g)), g);
  }

  lemma {:induction false} B1InputsMapped(bars: seq<Bar>, weekly: seq<Bar>, f: real -> real, f': real -> real,
                                          g: real -> real, g': real -> real)
    requires |bars| >= MIN_DAYS && Unit(f) && Unit(f') && Unit(g)
    ensures B1InputsOf(MapBars(bars, f, g), MapBars(weekly, f', g')) == B1InputsOf(bars, weekly)
  {
    hide Unit, MapBars, Closes, Volumes, FusedJ, TrendConditions, DayConditions, VolumeCondition, WeeklyCondition;
    FusedJMapped(bars, f, g);
    ConditionsMapped(bars, f, g);
    DayMapped(bars[|bars| - 1], bars[|bars| - 2].c, f, g);
    WeeklyMapped(weekly, f', g');
  }

  lemma {:induction false} B1Mapped(bars: seq<Bar>, weekly: seq<Bar>, rt: Option<Realtime>,
                                    f: real -> real, f': real -> real, g: real -> real, g': real -> real)
    requires |bars| >= MIN_DAYS && Unit(f) && Unit(f') && Unit(g)
    ensures B1Verdict(MapBars(bars, f, g), MapBars(weekly, f', g'), rt) == B1Verdict(bars, weekly, rt)
  {
    B1InputsMapped(bars, weekly, f, f', g, g');
    B1Is(bars, weekly, rt);
    B1Is(MapBars(bars, f, g), MapBars(weekly, f', g'), rt);
  }

  lemma {:induction false} SeriesJMapped(bars: seq<Bar>, f: real -> real, g: real -> real, i: nat)
    requires Unit(f) && i < |bars|
    ensures SeriesJ(MapBars(bars, f, g), i) == SeriesJ(bars, i)
  {
    RsvSeriesMapped(bars, f, g, KDJ_DAYS);
  }

  lemma {:induction false} ChangeMapped(f: real -> real, close: real, prev: real)
    requires Unit(f)
    ensures ChangePercent(f(close), f(prev)) == ChangePercent(close, prev)
  {
    Same(f, prev, 0.0);
    assert SameRatio(f, close, prev);
  }

  lemma {:induction false} RiseMapped(today: Bar, last: Bar, f: real -> real, g: real -> real)
    requires Unit(f) && Unit(g)
    ensures RiseConditions(MapBar(today, f, g), MapBar(last, f, g)) == RiseConditions(today, last)
  {
    ChangeMapped(f, today.c, last.c);
    Same(g, last.v, today.v);
  }

  lemma {:induction false} CleanRiseMapped(b: Bar, prev: real, f: real -> real, g: real -> real)
    requires Unit(f)
    ensures CleanRise(MapBar(b, f, g), f(prev)) == CleanRise(b, prev)
  {
    Same(f, b.o, b.c);
    Same(f, prev, b.h);
    assert Plus(f, b.h, b.c) && Plus(f, b.h, prev) && SameRatio(f, b.h - b.c, b.h - prev);
  }

  lemma {:induction false} AboveMapped(s: seq<real>, t: seq<real>, f: real -> real)
    requires |s| >= MIN_DAYS && Unit(f) && Mapped(s, t, f)
    ensures AboveYellow(t) == AboveYellow(s)
  {
    YellowMapped(s, t, f);
    WhiteMapped(s, t, f);
    Same(f, Yellow(s), Last(s));
    Same(f, Yellow(s), White(s));
  }

  /** What decides both B2 verdicts. */
  datatype B2Inputs = B2Inputs(j: real, jLast: real, rise: bool, clean: bool, above: bool) {
    predicate Strict() { j < 55.0 && jLast < 13.0 && rise && clean && above }

    predicate Loose() { j < 55.0 && jLast < 0.0 && rise }
  }

  function B2InputsOf(bars: seq<Bar>): B2Inputs
    requires |bars| >= MIN_DAYS
  {
    var today, last := bars[|bars| - 1], bars[|bars| - 2];
    B2Inputs(SeriesJ(bars, |bars| - 1), SeriesJ(bars, |bars| - 2), RiseConditions(today, last),
             CleanRise(today, last.c), AboveYellow(Closes(bars)))
  }

  lemma {:induction false} B2Is(bars: seq<Bar>)
    requires |bars| >= MIN_DAYS
    ensures B2Strict(bars) <==> B2InputsOf(bars).Strict()
    ensures B2Loose(bars) <==> B2InputsOf(bars).Loose()
  {
  }

  lemma {:induction false} AboveOnBars(bars: seq<Bar>, f: real -> real, g: real -> real)
    requires Unit(f) && |bars| >= MIN_DAYS
    ensures AboveYellow(Closes(MapBars(bars, f, g))) == AboveYellow(Closes(bars))
  {
    ColumnsMapped(bars, f, g);
    AboveMapped(Closes(bars), Closes(MapBars(bars, f, g)), f);
  }

  lemma {:induction false} RiseOnBars(bars: seq<Bar>, f: real -> real, g: real -> real)
    requires Unit(f) && Unit(g) && |bars| >= MIN_DAYS
    ensures var n, bars' := |bars|, MapBars(bars, f, g);
            && RiseConditions(bars'[n - 1], bars'[n - 2]) == RiseConditions(bars[n - 1], bars[n - 2])
            && CleanRise(bars'[n - 1], bars'[n - 2].c) == CleanRise(bars[n - 1], bars[n - 2].c)
  {
    hide Unit, RiseConditions, CleanRise;
    var today, last := bars[|bars| - 1], bars[|bars| - 2];
    RiseMapped(today, last, f, g);
    CleanRiseMapped(today, last.c, f, g);
  }

  lemma {:induction false} B2InputsMapped(bars: seq<Bar>, f: real -> real, g: real -> real)
    requires Unit(f) && Unit(g) && |bars| >= MIN_DAYS
    ensures B2InputsOf(MapBars(bars, f, g)) == B2InputsOf(bars)
  {
    hide Unit, MapBars, MapBar, Closes, SeriesJ, RiseConditions, CleanRise, AboveYellow;
    SeriesJMapped(bars, f, g, |bars| - 1);
    SeriesJMapped(bars, f, g, |bars| - 2);
    RiseOnBars(bars, f, g);
    AboveOnBars(bars, f, g);
  }

  lemma {:induction false} B2Mapped(bars: seq<Bar>, f: real -> real, g: real -> real)
    requires Unit(f) && Unit(g)
    ensures B2Strict(MapBars(bars, f, g)) == B2Strict(bars)
    ensures B2Loose(MapBars(bars, f, g)) == B2Loose(bars)
  {
    if |bars| >= MIN_DAYS {
      B2InputsMapped(bars, f, g);
      B2Is(bars);
      B2Is(MapBars(bars, f, g));
    }
  }

  // ----- multiplication by a positive constant -----

  function Times(c: real): real -> real { x => c * x }

  /** Every price multiplied by `c` and every volume by `v`. */
  function ScaleBars(bars: seq<Bar>, c: real, v: real): (r: seq<Bar>)
    ensures |r| == |bars|
    ensures forall i :: 0 <= i < |bars| ==>
              var b := bars[i]; r[i] == Bar(c * b.o, c * b.h, c * b.l, c * b.c, v * b.v)
  {
    MapBars(bars, Times(c), Times(v))
  }

  lemma {:induction false} RatioLaw(c: real, x: real, y: real)
    requires c > 0.0 && y != 0.0
    ensures c * y != 0.0 && (c * x) / (c * y) == x / y
  {
  }

  lemma {:induction false} OrderLaw(c: real, x: real, y: real)
    requires c > 0.0
    ensures Ordered(Times(c), x, y)
  {
  }

  lemma {:induction false} PlusLaw(c: real, x: real, y: real)
    ensures Plus(Times(c), x, y)
  {
  }

  lemma {:induction false} FactorLaw(c: real, x: real, a: real, y: real)
    ensures Factor(Times(c), x, a, y)
  {
  }

  lemma {:induction false} DividedLaw(c: real, x: real, a: real, y: real)
    ensures Divided(Times(c), x, a, y)
  {
  }

  lemma {:induction false} TimesIsUnit(c: real)
    requires c > 0.0
    ensures Unit(Times(c))
  {
    var f := Times(c);
    forall x, y ensures Ordered(f, x, y) { OrderLaw(c, x, y); }
    forall x, y ensures Plus(f, x, y) { PlusLaw(c, x, y); }
    forall x, a, y ensures Factor(f, x, a, y) { FactorLaw(c, x, a, y); }
    forall x, a, y ensures Divided(f, x, a, y) { DividedLaw(c, x, a, y); }
    forall x, y ensures SameRatio(f, x, y) { if y != 0.0 { RatioLaw(c, x, y); } }
  }

  /** B1 does not change when daily prices are multiplied by c > 0, weekly prices by c' > 0 and volumes by
      v > 0, whatever happens to the weekly volumes. */
  lemma {:induction false} B1ScaleInvariant(bars: seq<Bar>, weekly: seq<Bar>, rt: Option<Realtime>, c: real,
                                            c': real, v: real, v': real)
    requires c > 0.0 && c' > 0.0 && v > 0.0
    ensures B1Verdict(ScaleBars(bars, c, v), ScaleBars(weekly, c', v'), rt) == B1Verdict(bars, weekly, rt)
  {
    TimesIsUnit(c);
    TimesIsUnit(c');
    TimesIsUnit(v);
    if |bars| >= MIN_DAYS { B1Mapped(bars, weekly, rt, Times(c), Times(c'), Times(v), Times(v')); }
  }

  /** Neither B2 verdict changes when prices are multiplied by c > 0 and volumes by v > 0. */
  lemma {:induction false} B2ScaleInvariant(bars: seq<Bar>, c: real, v: real)
    requires c > 0.0 && v > 0.0
    ensures B2Strict(ScaleBars(bars, c, v)) == B2Strict(bars)
    ensures B2Loose(ScaleBars(bars, c, v)) == B2Loose(bars)
  {
    TimesIsUnit(c);
    TimesIsUnit(v);
    B2Mapped(bars, Times(c), Times(v));
  }
}
