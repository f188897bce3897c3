/** The indicator loops of filter.py and stock_filter_b2.py over real prices, each method proved against a
    function on its inputs. */
module Indicators {
  import opened Wrappers

  /** One candle: open, high, low, close, volume. */
  datatype Bar = Bar(o: real, h: real, l: real, c: real, v: real)

  predicate WellFormed(b: Bar) { b.l <= b.c <= b.h }

  function Closes(bars: seq<Bar>): (s: seq<real>)
    ensures |s| == |bars| && forall i :: 0 <= i < |bars| ==> s[i] == bars[i].c
  {
    seq(|bars|, i requires 0 <= i < |bars| => bars[i].c)
  }

  function Highs(bars: seq<Bar>): (s: seq<real>)
    ensures |s| == |bars| && forall i :: 0 <= i < |bars| ==> s[i] == bars[i].h
  {
    seq(|bars|, i requires 0 <= i < |bars| => bars[i].h)
  }

  function Lows(bars: seq<Bar>): (s: seq<real>)
    ensures |s| == |bars| && forall i :: 0 <= i < |bars| ==> s[i] == bars[i].l
  {
    seq(|bars|, i requires 0 <= i < |bars| => bars[i].l)
  }

  function Last(s: seq<real>): real
    requires s != []
  {
    s[|s| - 1]
  }

  function Sum(s: seq<real>): real {
    if s == [] then 0.0 else Sum(s[..|s| - 1]) + Last(s)
  }

  function Mean(s: seq<real>): real
    requires s != []
  {
    Sum(s) / |s| as real
  }

  /** The greatest element, as the built-in max returns it. */
  function MaxOf(s: seq<real>): real
    requires s != []
  {
    if |s| == 1 then s[0]
    else var m := MaxOf(s[..|s| - 1]); if Last(s) > m then Last(s) else m
  }

  function MinOf(s: seq<real>): real
    requires s != []
  {
    if |s| == 1 then s[0]
    else var m := MinOf(s[..|s| - 1]); if Last(s) < m then Last(s) else m
  }

  lemma {:induction false} MaxOfIsGreatest(s: seq<real>)
    requires s != []
    ensures exists i :: 0 <= i < |s| && s[i] == MaxOf(s)
    ensures forall i :: 0 <= i < |s| ==> s[i] <= MaxOf(s)
  {
    if |s| > 1 {
      var init := s[..|s| - 1];
      MaxOfIsGreatest(init);
      var j :| 0 <= j < |init| && init[j] == MaxOf(init);
      assert s[if Last(s) > MaxOf(init) then |s| - 1 else j] == MaxOf(s);
      forall i | 0 <= i < |s| ensures s[i] <= MaxOf(s) { if i < |init| { assert init[i] == s[i]; } }
    } else {
      assert s[0] == MaxOf(s);
    }
  }

  lemma {:induction false} MinOfIsLeast(s: seq<real>)
    requires s != []
    ensures exists i :: 0 <= i < |s| && s[i] == MinOf(s)
    ensures forall i :: 0 <= i < |s| ==> MinOf(s) <= s[i]
  {
    if |s| > 1 {
      var init := s[..|s| - 1];
      MinOfIsLeast(init);
      var j :| 0 <= j < |init| && init[j] == MinOf(init);
      assert s[if Last(s) < MinOf(init) then |s| - 1 else j] == MinOf(s);
      forall i | 0 <= i < |s| ensures MinOf(s) <= s[i] { if i < |init| { assert init[i] == s[i]; } }
    } else {
      assert s[0] == MinOf(s);
    }
  }

  // ----- moving averages -----

  /** Element i of a moving average is the mean of the period prices that start at day i. */
  method CalculateMa(prices: seq<real>, period: nat) returns (r: Option<seq<real>>)
    requires period >= 1
    ensures r.None? <==> |prices| < period
    ensures r.Some? ==> |r.value| == |prices| - period + 1
    ensures r.Some? ==> forall i :: 0 <= i < |r.value| ==> r.value[i] == Mean(prices[i..i + period])
  {
    if |prices| < period { return None; }
    var ma: seq<real> := [];
    for i := 0 to |prices| - period + 1
      invariant |ma| == i && forall k :: 0 <= k < i ==> ma[k] == Mean(prices[k..k + period])
    {
      var sum := SumLoop(prices[i..i + period]);
      ma := ma + [sum / period as real];
    }
    r := Some(ma);
  }

  method SumLoop(s: seq<real>) returns (sum: real)
    ensures sum == Sum(s)
  {
    sum := 0.0;
    for i := 0 to |s|
      invariant sum == Sum(s[..i])
    {
      assert s[..i + 1][..i] == s[..i];
      sum := sum + s[i];
    }
    assert s[..|s|] == s;
  }

  /** The exponential moving average, seeded with the mean of the first `p` prices. */
  function Ema(prices: seq<real>, p: nat): (e: seq<real>)
    requires 1 <= p <= |prices|
    ensures |e| == |prices| - p + 1
  {
    if |prices| == p then [Mean(prices)]
    else
      var e := Ema(prices[..|prices| - 1], p);
      e + [EmaNext(Last(e), Last(prices), p)]
  }

  function EmaNext(prev: real, price: real, p: nat): real {
    (price - prev) * (2.0 / (p as real + 1.0)) + prev
  }

  method CalculateEma(prices: seq<real>, period: nat) returns (r: Option<seq<real>>)
    requires period >= 1
    ensures r == if |prices| < period then None else Some(Ema(prices, period))
  {
    if |prices| < period { return None; }
    var first := SumLoop(prices[..period]);
    var ema := [first / period as real];
    for i := period to |prices|
      invariant ema == Ema(prices[..i], period)
    {
      assert prices[..i + 1][..i] == prices[..i];
      assert Last(prices[..i + 1]) == prices[i];
      ema := ema + [EmaNext(ema[|ema| - 1], prices[i], period)];
    }
    assert prices[..|prices|] == prices;
    r := Some(ema);
  }

  /** SMA(X, N, M): each element mixes m parts of the new value with n - m parts of the previous element. */
  function Sma(values: seq<real>, n: real, m: real): (r: seq<real>)
    requires n != 0.0
    ensures |r| == |values|
  {
    if values == [] then []
    else if |values| == 1 then values
    else
      var r := Sma(values[..|values| - 1], n, m);
      r + [SmaNext(Last(r), Last(values), n, m)]
  }

  function SmaNext(prev: real, x: real, n: real, m: real): real
    requires n != 0.0
  {
    (m * x + (n - m) * prev) / n
  }

  method CalculateSma(values: seq<real>, n: real, m: real) returns (result: seq<real>)
    requires n != 0.0
    ensures result == Sma(values, n, m)
  {
    if values == [] { return []; }
    result := [values[0]];
    assert values[..1] == [values[0]];
    for i := 1 to |values|
      invariant result == Sma(values[..i], n, m)
    {
      assert values[..i + 1][..i] == values[..i];
      assert Last(values[..i + 1]) == values[i];
      result := result + [SmaNext(result[|result| - 1], values[i], n, m)];
    }
    assert values[..|values|] == values;
  }

  // ----- RSV -----

  function Rsv(close: real, highs: seq<real>, lows: seq<real>): real
    requires highs != [] && lows != []
  {
    var rng := MaxOf(highs) - MinOf(lows);
    if rng == 0.0 then 50.0 else (close - MinOf(lows)) / rng * 100.0
  }

  function WindowStart(i: nat, n: nat): (w: nat)
    requires n >= 1
    ensures w <= i
  {
    if i < n - 1 then 0 else i - n + 1
  }

  /** The RSV of day `i` over the last `n` days, or over all days so far when there are fewer. */
  function RsvAt(bars: seq<Bar>, i: nat, n: nat): real
    requires n >= 1 && i < |bars|
  {
    var w := WindowStart(i, n);
    Rsv(bars[i].c, Highs(bars)[w..i + 1], Lows(bars)[w..i + 1])
  }

  function RsvSeries(bars: seq<Bar>, n: nat): (r: seq<real>)
    requires n >= 1
    ensures |r| == |bars| && forall i :: 0 <= i < |bars| ==> r[i] == RsvAt(bars, i, n)
  {
    seq(|bars|, i requires 0 <= i < |bars| => RsvAt(bars, i, n))
  }

  /** calculate_rsv: the RSV of the last day, if there are `n` days. */
  function CalculateRsv(closes: seq<real>, highs: seq<real>, lows: seq<real>, n: nat): Option<real>
    requires n >= 1 && |closes| == |highs| == |lows|
  {
    if |closes| < n then None
    else Some(Rsv(Last(closes), highs[|highs| - n..], lows[|lows| - n..]))
  }

  lemma {:induction false} RsvOnPrefix(bars: seq<Bar>, i: nat, n: nat)
    requires n >= 1 && n - 1 <= i < |bars|
    ensures CalculateRsv(Closes(bars)[..i + 1], Highs(bars)[..i + 1], Lows(bars)[..i + 1], n) ==
            Some(RsvAt(bars, i, n))
  {
  }

  /** The list that b1_strategy_filter builds day by day is the tail of the full RSV series. */
  method RsvFromDayN(bars: seq<Bar>, n: nat) returns (rsv: seq<real>)
    requires 1 <= n <= |bars| + 1
    ensures rsv == RsvSeries(bars, n)[n - 1..]
  {
    rsv := [];
    var closes, highs, lows := Closes(bars), Highs(bars), Lows(bars);
    for i := n - 1 to |bars|
      invariant |rsv| == i - n + 1 && forall k :: 0 <= k < |rsv| ==> rsv[k] == RsvAt(bars, n - 1 + k, n)
    {
      RsvOnPrefix(bars, i, n);
      var x := CalculateRsv(closes[..i + 1], highs[..i + 1], lows[..i + 1], n);
      if x.Some? { rsv := rsv + [x.value]; }
    }
  }

  // ----- KDJ -----

  /** The last K and D of the fused loop over a non-empty RSV list. */
  function K(rsv: seq<real>): real
    requires rsv != []
  {
    if |rsv| == 1 then rsv[0] else 2.0 / 3.0 * K(rsv[..|rsv| - 1]) + 1.0 / 3.0 * Last(rsv)
  }

  function D(rsv: seq<real>): real
    requires rsv != []
  {
    if |rsv| == 1 then rsv[0] else 2.0 / 3.0 * D(rsv[..|rsv| - 1]) + 1.0 / 3.0 * K(rsv)
  }

  function J(rsv: seq<real>): real
    requires rsv != []
  {
    3.0 * K(rsv) - 2.0 * D(rsv)
  }

  lemma {:induction false} SmaPrefix(values: seq<real>, n: real, m: real, i: nat)
    requires n != 0.0 && i <= |values|
    ensures Sma(values, n, m)[..i] == Sma(values[..i], n, m)
  {
    if i < |values| && |values| > 1 {
      SmaPrefix(values[..|values| - 1], n, m, i);
      assert values[..|values| - 1][..i] == values[..i];
    } else if i == |values| {
      assert values[..i] == values;
    }
  }

  lemma {:induction false} KIsSma(rsv: seq<real>)
    requires rsv != []
    ensures K(rsv) == Last(Sma(rsv, 3.0, 1.0))
  {
    if |rsv| > 1 { KIsSma(rsv[..|rsv| - 1]); }
  }

  lemma {:induction false} DIsSmaOfSma(rsv: seq<real>)
    requires rsv != []
    ensures D(rsv) == Last(Sma(Sma(rsv, 3.0, 1.0), 3.0, 1.0))
  {
    KIsSma(rsv);
    if |rsv| > 1 {
      var k := Sma(rsv, 3.0, 1.0);
      DIsSmaOfSma(rsv[..|rsv| - 1]);
      assert k[..|k| - 1] == Sma(rsv[..|rsv| - 1], 3.0, 1.0);
    }
  }

  /** The fused loop returns the last elements of the two-pass form: K = SMA(RSV,3,1), D = SMA(K,3,1),
      J = 3K - 2D. */
  method CalculateKdj(rsv: seq<real>) returns (k: real, d: real, j: real)
    ensures rsv == [] ==> k == d == j == 50.0
    ensures rsv != [] ==>
              && k == Last(Sma(rsv, 3.0, 1.0))
              && d == Last(Sma(Sma(rsv, 3.0, 1.0), 3.0, 1.0))
              && j == 3.0 * k - 2.0 * d
              && k == K(rsv) && d == D(rsv)
  {
    if rsv == [] { return 50.0, 50.0, 50.0; }
    k := rsv[0];
    d := k;
    j := 3.0 * k - 2.0 * d;
    assert rsv[..1] == [rsv[0]];
    for i := 1 to |rsv|
      invariant k == K(rsv[..i]) && d == D(rsv[..i]) && j == 3.0 * k - 2.0 * d
    {
      assert rsv[..i + 1][..i] == rsv[..i];
      k := 2.0 / 3.0 * k + 1.0 / 3.0 * rsv[i];
      d := 2.0 / 3.0 * d + 1.0 / 3.0 * k;
      j := 3.0 * k - 2.0 * d;
    }
    assert rsv[..|rsv|] == rsv;
    KIsSma(rsv);
    DIsSmaOfSma(rsv);
  }

  lemma {:induction false} SeriesAt(rsv: seq<real>, i: nat)
    requires i < |rsv|
    ensures Sma(rsv, 3.0, 1.0)[i] == K(rsv[..i + 1])
    ensures Sma(Sma(rsv, 3.0, 1.0), 3.0, 1.0)[i] == D(rsv[..i + 1])
  {
    var k := Sma(rsv, 3.0, 1.0);
    SmaPrefix(rsv, 3.0, 1.0, i + 1);
    SmaPrefix(k, 3.0, 1.0, i + 1);
    KIsSma(rsv[..i + 1]);
    DIsSmaOfSma(rsv[..i + 1]);
    assert k[i] == k[..i + 1][i] && Sma(k, 3.0, 1.0)[i] == Sma(k, 3.0, 1.0)[..i + 1][i];
  }

  method RsvLoop(bars: seq<Bar>, n: nat) returns (rsv: seq<real>)
    requires n >= 1
    ensures rsv == RsvSeries(bars, n)
  {
    rsv := [];
    var highs, lows := Highs(bars), Lows(bars);
    for i := 0 to |bars|
      invariant |rsv| == i && forall k :: 0 <= k < i ==> rsv[k] == RsvAt(bars, k, n)
    {
      var start := if i < n - 1 then 0 else i - n + 1;
      var hh, ll := MaxOf(highs[start..i + 1]), MinOf(lows[start..i + 1]);
      var rng := hh - ll;
      rsv := rsv + [if rng == 0.0 then 50.0 else (bars[i].c - ll) / rng * 100.0];
    }
  }

  /** The two-pass series: on day i its K, D and J are those of the fused loop over the RSVs of days 0 .. i. */
  method CalculateKdjSeries(bars: seq<Bar>, n: nat) returns (ks: seq<real>, ds: seq<real>, js: seq<real>)
    requires n >= 1
    ensures |ks| == |ds| == |js| == |bars|
    ensures forall i :: 0 <= i < |bars| ==>
              var rsv := RsvSeries(bars, n)[..i + 1];
              ks[i] == K(rsv) && ds[i] == D(rsv) && js[i] == J(rsv)
  {
    hide RsvSeries, Sma;
    var rsv := RsvLoop(bars, n);
    ks := CalculateSma(rsv, 3.0, 1.0);
    ds := CalculateSma(ks, 3.0, 1.0);
    js := [];
    for i := 0 to |ks|
      invariant |js| == i && forall k :: 0 <= k < i ==> js[k] == 3.0 * ks[k] - 2.0 * ds[k]
    {
      js := js + [3.0 * ks[i] - 2.0 * ds[i]];
    }
    forall i | 0 <= i < |bars| ensures ks[i] == K(rsv[..i + 1]) && ds[i] == D(rsv[..i + 1]) { SeriesAt(rsv, i); }
  }
}
