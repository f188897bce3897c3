/** Splitting the qualified stocks into cards of at most 19 KB: a greedy loop around a binary search, and why
    no other contiguous split needs fewer cards. */
module BatchSplit {
  import opened JsonText

  /** A stock with the JSON text its elements add to a card, separators included. */
  datatype Stock = Stock(code: string, text: string)

  const MAX_BYTES := 19 * 1024
  const MAX_STOCKS := 30

  function Bytes(batch: seq<Stock>): nat {
    if batch == [] then 0 else Bytes(batch[..|batch| - 1]) + Utf8(batch[|batch| - 1].text)
  }

  /** The size of a card: what every card carries, plus its stocks. */
  function CardSize(base: nat, batch: seq<Stock>): nat { base + Bytes(batch) }

  /** A batch that may be sent: a single stock always, several when the card fits. */
  predicate Allowed(base: nat, batch: seq<Stock>) {
    |batch| == 1 || (1 <= |batch| <= MAX_STOCKS && CardSize(base, batch) <= MAX_BYTES)
  }

  /** The stocks from i up to j may be sent together. */
  predicate Fits(base: nat, stocks: seq<Stock>, i: nat, j: nat)
    requires i <= j <= |stocks|
  {
    Allowed(base, stocks[i..j])
  }

  function Concat(batches: seq<seq<Stock>>): seq<Stock> {
    if batches == [] then [] else batches[0] + Concat(batches[1..])
  }

  ghost predicate IsSplit(base: nat, batches: seq<seq<Stock>>, stocks: seq<Stock>) {
    Concat(batches) == stocks && forall k :: 0 <= k < |batches| ==> Allowed(base, batches[k])
  }

  /** `j` is the end of the longest batch that starts at `i`. */
  ghost predicate IsFurthest(base: nat, stocks: seq<Stock>, i: nat, j: nat) {
    i < j <= |stocks| && Fits(base, stocks, i, j) && forall m :: j < m <= |stocks| ==> !Fits(base, stocks, i, m)
  }

  lemma {:induction false} BytesSnoc(s: seq<Stock>, i: nat, j: nat)
    requires i < j <= |s|
    ensures Bytes(s[i..j]) == Bytes(s[i..j - 1]) + Utf8(s[j - 1].text)
  {
    assert s[i..j][..j - 1 - i] == s[i..j - 1];
  }

  lemma {:induction false} BytesAdd(s: seq<Stock>, i: nat, k: nat, j: nat)
    requires i <= k <= j <= |s|
    ensures Bytes(s[i..j]) == Bytes(s[i..k]) + Bytes(s[k..j])
    decreases j
  {
    if k < j {
      BytesAdd(s, i, k, j - 1);
      BytesSnoc(s, i, j);
      BytesSnoc(s, k, j);
    }
  }

  /** What lies inside a batch that may be sent may be sent. */
  lemma {:induction false} FitsInside(base: nat, stocks: seq<Stock>, i: nat, i': nat, j': nat, j: nat)
    requires i <= i' < j' <= j <= |stocks| && Fits(base, stocks, i, j)
    ensures Fits(base, stocks, i', j')
  {
    BytesAdd(stocks, i, i', j);
    BytesAdd(stocks, i', j', j);
  }

  lemma {:induction false} LongerIsTooLong(base: nat, stocks: seq<Stock>, i: nat, k: nat)
    requires i < k <= |stocks| && CardSize(base, stocks[i..k]) > MAX_BYTES
    ensures forall m :: k <= m <= |stocks| && i + 1 < m ==> !Fits(base, stocks, i, m)
  {
    forall m | k <= m <= |stocks| && i + 1 < m ensures !Fits(base, stocks, i, m) {
      BytesAdd(stocks, i, k, m);
    }
  }

  /** The binary search of one card finds its longest batch. */
  method FurthestFrom(base: nat, stocks: seq<Stock>, i: nat) returns (best: nat)
    requires i < |stocks|
    ensures IsFurthest(base, stocks, i, i + best)
  {
    hide CardSize;
    var total := |stocks|;
    var lo, hi := 1, if total - i < 30 then total - i else 30;
    best := 1;
    while lo <= hi
      invariant 1 <= best && i + best <= total && (lo == best + 1 || (lo == 1 && best == 1))
      invariant 0 <= hi && i + hi <= total && hi <= 30 && lo <= hi + 1
      invariant Fits(base, stocks, i, i + best)
      invariant forall m :: i + hi < m <= total && i + 1 < m ==> !Fits(base, stocks, i, m)
      decreases hi - lo
    {
      var mid := (lo + hi) / 2;
      var candidate := stocks[i..i + mid];
      if CardSize(base, candidate) <= MAX_BYTES {
        best := mid;
        lo := mid + 1;
      } else {
        LongerIsTooLong(base, stocks, i, i + mid);
        hi := mid - 1;
      }
    }
  }

  function LongestUpTo(base: nat, stocks: seq<Stock>, i: nat, top: nat): (j: nat)
    requires i < top <= |stocks|
    ensures i < j <= top
  {
    if top == i + 1 || Fits(base, stocks, i, top) then top else LongestUpTo(base, stocks, i, top - 1)
  }

  lemma {:induction false} LongestUpToIs(base: nat, stocks: seq<Stock>, i: nat, top: nat)
    requires i < top <= |stocks|
    ensures var j := LongestUpTo(base, stocks, i, top);
            Fits(base, stocks, i, j) && forall m :: j < m <= top ==> !Fits(base, stocks, i, m)
  {
    if top > i + 1 && !Fits(base, stocks, i, top) { LongestUpToIs(base, stocks, i, top - 1); }
  }

  /** Where the greedy batch that starts at `i` ends. */
  function Furthest(base: nat, stocks: seq<Stock>, i: nat): (j: nat)
    requires i < |stocks|
    ensures i < j <= |stocks|
  {
    LongestUpTo(base, stocks, i, |stocks|)
  }

  lemma {:induction false} FurthestIs(base: nat, stocks: seq<Stock>, i: nat, j: nat)
    requires i < |stocks|
    ensures IsFurthest(base, stocks, i, j) <==> j == Furthest(base, stocks, i)
  {
    LongestUpToIs(base, stocks, i, |stocks|);
  }

  /** The greedy split of the stocks from `i` on. */
  function Greedy(base: nat, stocks: seq<Stock>, i: nat): seq<seq<Stock>>
    requires i <= |stocks|
    decreases |stocks| - i
  {
    if i == |stocks| then []
    else var j := Furthest(base, stocks, i); [stocks[i..j]] + Greedy(base, stocks, j)
  }

  lemma {:induction false} Reassociate(done: seq<seq<Stock>>, batch: seq<Stock>, rest: seq<seq<Stock>>)
    ensures done + ([batch] + rest) == (done + [batch]) + rest
  {
  }

  /** The outer loop builds the greedy split. */
  method SplitIntoBatches(base: nat, stocks: seq<Stock>) returns (batches: seq<seq<Stock>>)
    ensures batches == Greedy(base, stocks, 0)
  {
    hide Furthest, Fits, IsFurthest;
    batches := [];
    var i := 0;
    while i < |stocks|
      invariant 0 <= i <= |stocks|
      invariant batches + Greedy(base, stocks, i) == Greedy(base, stocks, 0)
      decreases |stocks| - i
    {
      var best := FurthestFrom(base, stocks, i);
      FurthestIs(base, stocks, i, i + best);
      Reassociate(batches, stocks[i..i + best], Greedy(base, stocks, i + best));
      batches := batches + [stocks[i..i + best]];
      i := i + best;
    }
  }

  /** The greedy batches concatenate to the input and each may be sent. */
  lemma {:induction false} GreedyIsSplit(base: nat, stocks: seq<Stock>, i: nat)
    requires i <= |stocks|
    ensures IsSplit(base, Greedy(base, stocks, i), stocks[i..])
    decreases |stocks| - i
  {
    if i < |stocks| {
      var j := Furthest(base, stocks, i);
      FurthestIs(base, stocks, i, j);
      GreedyIsSplit(base, stocks, j);
      assert stocks[i..] == stocks[i..j] + stocks[j..];
    }
  }

  /** No batch is empty or has more than 30 stocks, and one of several stocks is measured at no more than 19 KB. */
  lemma {:induction false} GreedyLimits(base: nat, stocks: seq<Stock>, k: nat)
    requires k < |Greedy(base, stocks, 0)|
    ensures var batch := Greedy(base, stocks, 0)[k];
            1 <= |batch| <= 30 && (|batch| > 1 ==> base + Bytes(batch) <= 19456)
  {
    hide Bytes;
    GreedyIsSplit(base, stocks, 0);
    assert Allowed(base, Greedy(base, stocks, 0)[k]);
  }

  /** The start of greedy batch `k`. */
  function Cut(base: nat, stocks: seq<Stock>, i: nat, k: nat): (c: nat)
    requires i <= |stocks| && k <= |Greedy(base, stocks, i)|
    ensures i <= c <= |stocks|
    decreases k
  {
    if k == 0 then i else Cut(base, stocks, Furthest(base, stocks, i), k - 1)
  }

  /** Every greedy batch is the longest one that may be sent from where it starts. */
  lemma {:induction false} GreedyTakesLongest(base: nat, stocks: seq<Stock>, i: nat, k: nat)
    requires i <= |stocks| && k < |Greedy(base, stocks, i)|
    ensures var from, to := Cut(base, stocks, i, k), Cut(base, stocks, i, k + 1);
            IsFurthest(base, stocks, from, to) && Greedy(base, stocks, i)[k] == stocks[from..to]
    decreases k
  {
    FurthestIs(base, stocks, i, Furthest(base, stocks, i));
    if k > 0 { GreedyTakesLongest(base, stocks, Furthest(base, stocks, i), k - 1); }
  }

  /** Starting inside a greedy batch, the next cut comes no earlier. */
  lemma {:induction false} LaterReachesFurther(base: nat, stocks: seq<Stock>, i: nat, k: nat)
    requires i < |stocks| && i <= k < Furthest(base, stocks, i)
    ensures Furthest(base, stocks, i) <= Furthest(base, stocks, k)
  {
    var j := Furthest(base, stocks, i);
    FurthestIs(base, stocks, i, j);
    FurthestIs(base, stocks, k, Furthest(base, stocks, k));
    FitsInside(base, stocks, i, k, j, j);
  }

  /** Starting later never needs more batches. */
  lemma {:induction false} LaterIsNoWorse(base: nat, stocks: seq<Stock>, i: nat, k: nat)
    requires i <= k <= |stocks|
    ensures |Greedy(base, stocks, k)| <= |Greedy(base, stocks, i)|
    decreases |stocks| - i
  {
    if k < |stocks| {
      var j := Furthest(base, stocks, i);
      if k >= j {
        LaterIsNoWorse(base, stocks, j, k);
      } else {
        LaterReachesFurther(base, stocks, i, k);
        LaterIsNoWorse(base, stocks, j, Furthest(base, stocks, k));
      }
    }
  }

  lemma {:induction false} FirstIsShorter(base: nat, stocks: seq<Stock>, i: nat, m: nat)
    requires i < m <= |stocks| && Fits(base, stocks, i, m)
    ensures m <= Furthest(base, stocks, i)
  {
    FurthestIs(base, stocks, i, Furthest(base, stocks, i));
  }

  /** No contiguous split that obeys the same limits has fewer batches than the greedy one. */
  lemma {:induction false} GreedyIsOptimal(base: nat, stocks: seq<Stock>, i: nat, other: seq<seq<Stock>>)
    requires i <= |stocks| && IsSplit(base, other, stocks[i..])
    ensures |Greedy(base, stocks, i)| <= |other|
    decreases |other|
  {
    if i < |stocks| {
      var m := i + |other[0]|;
      SplitTail(base, stocks, i, other);
      GreedyIsOptimal(base, stocks, m, other[1..]);
      FirstIsShorter(base, stocks, i, m);
      LaterIsNoWorse(base, stocks, m, Furthest(base, stocks, i));
    }
  }

  lemma {:induction false} SplitTail(base: nat, stocks: seq<Stock>, i: nat, other: seq<seq<Stock>>)
    requires i < |stocks| && IsSplit(base, other, stocks[i..])
    ensures other != [] && var m := i + |other[0]|;
            i < m <= |stocks| && Fits(base, stocks, i, m) && IsSplit(base, other[1..], stocks[m..])
  {
    var first, rest := other[0], Concat(other[1..]);
    var m := i + |first|;
    assert stocks[i..] == first + rest;
    assert stocks[i..m] == stocks[i..][..|first|] == first;
    assert stocks[m..] == stocks[i..][|first|..] == rest;
  }

  /** The batches sent are a split of all the stocks, and none with the same limits is shorter. */
  lemma {:induction false} SplitIsBest(base: nat, stocks: seq<Stock>)
    ensures IsSplit(base, Greedy(base, stocks, 0), stocks)
    ensures forall other :: IsSplit(base, other, stocks) ==> |Greedy(base, stocks, 0)| <= |other|
  {
    assert stocks[0..] == stocks;
    GreedyIsSplit(base, stocks, 0);
    forall other | IsSplit(base, other, stocks) ensures |Greedy(base, stocks, 0)| <= |other| {
      GreedyIsOptimal(base, stocks, 0, other);
    }
  }
}
