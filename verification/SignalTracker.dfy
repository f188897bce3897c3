/** The cross-day tracker: signals are recorded on the day they fire and closed once they have been held long
    enough. Dates are day numbers. */
module SignalTracker {
  import opened Wrappers

  datatype Strategy = B1 | B2

  datatype Signal = Signal(code: string, price: real, score: int, tags: seq<string>)

  datatype Record = Record(code: string, buyDate: int, buyPrice: real, strategy: Strategy, score: int,
                           tags: seq<string>, hold: int)

  datatype Sale = Sale(price: real, returnPct: real)

  /** A record moved to the verified file of `sellDate`; without a sale when no price ever came. */
  datatype Closed = Closed(record: Record, sellDate: int, heldDays: int, sale: Option<Sale>)

  const GRACE := 3

  // ----- what one day's signals become -----

  /** The records of the first `i` B1 signals. */
  function FromB1(b1: seq<Signal>, i: nat, today: int, hold: int): seq<Record>
    requires i <= |b1|
  {
    if i == 0 then []
    else
      var rs, s := FromB1(b1, i - 1, today, hold), b1[i - 1];
      if s.price > 0.0 then rs + [Record(s.code, today, s.price, B1, s.score, ["B1"], hold)] else rs
  }

  predicate Holds(rs: seq<Record>, code: string) {
    exists k :: 0 <= k < |rs| && rs[k].code == code
  }

  predicate IsFirst(rs: seq<Record>, code: string, k: nat) {
    k < |rs| && rs[k].code == code && forall m :: 0 <= m < k ==> rs[m].code != code
  }

  function First(rs: seq<Record>, code: string): (k: nat)
    requires Holds(rs, code)
    ensures IsFirst(rs, code, k)
  {
    if rs[0].code == code then 0 else 1 + First(rs[1..], code)
  }

  /** A B2 signal adds its tags to the first record of its stock, or becomes a record of its own. */
  function AddB2(rs: seq<Record>, s: Signal, today: int, hold: int): seq<Record> {
    if s.price <= 0.0 then rs
    else if Holds(rs, s.code) then
      var k := First(rs, s.code);
      rs[k := rs[k].(tags := rs[k].tags + s.tags)]
    else rs + [Record(s.code, today, s.price, B2, 0, s.tags, hold)]
  }

  function WithB2(rs: seq<Record>, b2: seq<Signal>, i: nat, today: int, hold: int): seq<Record>
    requires i <= |b2|
  {
    if i == 0 then rs else AddB2(WithB2(rs, b2, i - 1, today, hold), b2[i - 1], today, hold)
  }

  function NewRecords(b1: seq<Signal>, b2: seq<Signal>, today: int, hold: int): seq<Record> {
    WithB2(FromB1(b1, |b1|, today, hold), b2, |b2|, today, hold)
  }

  ghost predicate DistinctCodes(rs: seq<Record>) {
    forall i, j :: 0 <= i < j < |rs| ==> rs[i].code != rs[j].code
  }

  /** Among the signals with a price, no stock comes twice. */
  ghost predicate DistinctPriced(signals: seq<Signal>, n: nat)
    requires n <= |signals|
  {
    forall i, j :: 0 <= i < j < n && signals[i].price > 0.0 && signals[j].price > 0.0
      ==> signals[i].code != signals[j].code
  }

  predicate HasPriced(signals: seq<Signal>, n: nat, code: string)
    requires n <= |signals|
  {
    exists j :: 0 <= j < n && signals[j].price > 0.0 && signals[j].code == code
  }

  ghost predicate Sound(rs: seq<Record>, today: int, hold: int) {
    forall k :: 0 <= k < |rs| ==> rs[k].buyDate == today && rs[k].buyPrice > 0.0 && rs[k].hold == hold
  }

  lemma {:induction false} FromB1Facts(b1: seq<Signal>, i: nat, today: int, hold: int)
    requires i <= |b1|
    ensures var rs := FromB1(b1, i, today, hold);
            && Sound(rs, today, hold)
            && (forall c :: Holds(rs, c) <==> HasPriced(b1, i, c))
            && (DistinctCodes(rs) <==> DistinctPriced(b1, i))
            && forall k :: 0 <= k < |rs| ==> rs[k].tags == ["B1"] && rs[k].strategy == B1
  {
    if i > 0 {
      FromB1Facts(b1, i - 1, today, hold);
      var was, rs, s := FromB1(b1, i - 1, today, hold), FromB1(b1, i, today, hold), b1[i - 1];
      forall c ensures Holds(rs, c) <==> HasPriced(b1, i, c) {
        assert Holds(rs, c) <==> Holds(was, c) || (s.price > 0.0 && c == s.code) by {
          if s.price > 0.0 { HoldsSnoc(was, rs[|was|], c); }
        }
        assert HasPriced(b1, i, c) <==> HasPriced(b1, i - 1, c) || (s.price > 0.0 && c == s.code);
      }
      if s.price > 0.0 {
        DistinctSnoc(was, rs[|was|]);
        assert DistinctPriced(b1, i) <==> DistinctPriced(b1, i - 1) && !HasPriced(b1, i - 1, s.code);
      }
    }
  }

  lemma {:induction false} HoldsSnoc(rs: seq<Record>, r: Record, c: string)
    ensures Holds(rs + [r], c) <==> Holds(rs, c) || c == r.code
  {
    if Holds(rs, c) {
      var k :| 0 <= k < |rs| && rs[k].code == c;
      assert (rs + [r])[k].code == c;
    }
    assert (rs + [r])[|rs|] == r;
  }

  lemma {:induction false} DistinctSnoc(rs: seq<Record>, r: Record)
    ensures DistinctCodes(rs + [r]) <==> DistinctCodes(rs) && !Holds(rs, r.code)
  {
    var all := rs + [r];
    assert all[|rs|] == r && forall k :: 0 <= k < |rs| ==> all[k] == rs[k];
  }

  /** B2 signals never bring a stock in twice, and never lose one. */
  lemma {:induction false} WithB2Facts(rs: seq<Record>, b2: seq<Signal>, i: nat, today: int, hold: int)
    requires i <= |b2| && Sound(rs, today, hold)
    ensures var all := WithB2(rs, b2, i, today, hold);
            && Sound(all, today, hold)
            && (forall c :: Holds(all, c) <==> Holds(rs, c) || HasPriced(b2, i, c))
            && (DistinctCodes(all) <==> DistinctCodes(rs))
  {
    if i > 0 {
      WithB2Facts(rs, b2, i - 1, today, hold);
      var was, s := WithB2(rs, b2, i - 1, today, hold), b2[i - 1];
      AddB2Facts(was, s, today, hold);
      var all := WithB2(rs, b2, i, today, hold);
      forall c ensures Holds(all, c) <==> Holds(rs, c) || HasPriced(b2, i, c) {
        assert HasPriced(b2, i, c) <==> HasPriced(b2, i - 1, c) || (s.price > 0.0 && c == s.code);
      }
    }
  }

  lemma {:induction false} AddB2Facts(rs: seq<Record>, s: Signal, today: int, hold: int)
    requires Sound(rs, today, hold)
    ensures var all := AddB2(rs, s, today, hold);
            && Sound(all, today, hold)
            && (forall c :: Holds(all, c) <==> Holds(rs, c) || (s.price > 0.0 && c == s.code))
            && (DistinctCodes(all) <==> DistinctCodes(rs))
  {
    var all := AddB2(rs, s, today, hold);
    if s.price > 0.0 {
      if Holds(rs, s.code) {
        assert |all| == |rs| && forall k :: 0 <= k < |rs| ==> all[k].code == rs[k].code;
        forall c ensures Holds(all, c) <==> Holds(rs, c) {}
      } else {
        DistinctSnoc(rs, all[|rs|]);
        forall c ensures Holds(all, c) <==> Holds(rs, c) || c == s.code { HoldsSnoc(rs, all[|rs|], c); }
      }
    }
  }

  /** One day's records cover exactly the stocks with a priced signal, at a positive price, and no stock comes
      twice exactly when no stock has two priced B1 signals. */
  lemma {:induction false} DaysRecords(b1: seq<Signal>, b2: seq<Signal>, today: int, hold: int)
    ensures var rs := NewRecords(b1, b2, today, hold);
            && Sound(rs, today, hold)
            && (forall c :: Holds(rs, c) <==> HasPriced(b1, |b1|, c) || HasPriced(b2, |b2|, c))
            && (DistinctCodes(rs) <==> DistinctPriced(b1, |b1|))
  {
    FromB1Facts(b1, |b1|, today, hold);
    WithB2Facts(FromB1(b1, |b1|, today, hold), b2, |b2|, today, hold);
  }

  /** The tags of the stock's priced signals among the first `i`, in order. */
  function TagsFor(signals: seq<Signal>, i: nat, code: string): seq<string>
    requires i <= |signals|
  {
    if i == 0 then []
    else TagsFor(signals, i - 1, code)
         + if signals[i - 1].price > 0.0 && signals[i - 1].code == code then signals[i - 1].tags else []
  }

  function TagsIn(rs: seq<Record>, code: string): seq<string> {
    if Holds(rs, code) then rs[First(rs, code)].tags else []
  }

  lemma {:induction false} FirstUnique(rs: seq<Record>, code: string, k: nat)
    requires IsFirst(rs, code, k)
    ensures Holds(rs, code) && First(rs, code) == k
  {
  }

  lemma {:induction false} AddB2Tags(rs: seq<Record>, s: Signal, today: int, hold: int, code: string)
    ensures TagsIn(AddB2(rs, s, today, hold), code)
            == TagsIn(rs, code) + if s.price > 0.0 && s.code == code then s.tags else []
  {
    var all := AddB2(rs, s, today, hold);
    if s.price > 0.0 {
      if Holds(rs, code) {
        var k := First(rs, code);
        assert IsFirst(all, code, k);
        FirstUnique(all, code, k);
      } else if s.code == code {
        assert IsFirst(all, code, |rs|);
        FirstUnique(all, code, |rs|);
      } else if !Holds(rs, s.code) {
        HoldsSnoc(rs, all[|rs|], code);
      } else {
        assert forall k :: 0 <= k < |rs| ==> all[k].code == rs[k].code;
      }
    }
  }

  lemma {:induction false} WithB2Tags(rs: seq<Record>, b2: seq<Signal>, i: nat, today: int, hold: int, code: string)
    requires i <= |b2|
    ensures TagsIn(WithB2(rs, b2, i, today, hold), code) == TagsIn(rs, code) + TagsFor(b2, i, code)
  {
    if i > 0 {
      var was, s := WithB2(rs, b2, i - 1, today, hold), b2[i - 1];
      WithB2Tags(rs, b2, i - 1, today, hold, code);
      assert WithB2(rs, b2, i, today, hold) == AddB2(was, s, today, hold);
      NextTags(rs, was, s, today, hold, code, TagsFor(b2, i - 1, code));
    }
  }

  lemma {:induction false} NextTags(rs: seq<Record>, was: seq<Record>, s: Signal, today: int, hold: int, code: string,
                                    tags: seq<string>)
    requires TagsIn(was, code) == TagsIn(rs, code) + tags
    ensures TagsIn(AddB2(was, s, today, hold), code)
            == TagsIn(rs, code) + (tags + if s.price > 0.0 && s.code == code then s.tags else [])
  {
    AddB2Tags(was, s, today, hold, code);
  }

  /** The (first) record of a stock is tagged B1 when it has a priced B1 signal, then with the tags of every
      priced B2 signal of that stock in order. */
  lemma {:induction false} TagsTellEverySignal(b1: seq<Signal>, b2: seq<Signal>, today: int, hold: int, code: string)
    ensures TagsIn(NewRecords(b1, b2, today, hold), code)
            == (if HasPriced(b1, |b1|, code) then ["B1"] else []) + TagsFor(b2, |b2|, code)
  {
    FromB1Facts(b1, |b1|, today, hold);
    WithB2Tags(FromB1(b1, |b1|, today, hold), b2, |b2|, today, hold, code);
  }

  // ----- closing -----

  predicate IsPriced(prices: map<string, real>, code: string) { code in prices && prices[code] > 0.0 }

  /** Whether a record stays pending. */
  predicate Stays(r: Record, today: int, prices: map<string, real>) {
    today - r.buyDate < r.hold || (!IsPriced(prices, r.code) && today - r.buyDate < r.hold + GRACE)
  }

  function ReturnPct(buy: real, sell: real): real
    requires buy > 0.0
  {
    (sell - buy) / buy * 100.0
  }

  /** The nearest integer, the even one of two equally near. */
  function Nearest(x: real): int {
    var f := x.Floor;
    var rest := x - f as real;
    if rest < 0.5 || (rest == 0.5 && f % 2 == 0) then f else f + 1
  }

  /** round(x, 2) */
  function Round2(x: real): real { Nearest(x * 100.0) as real / 100.0 }

  /** The return in percent that a closed record stores. */
  function StoredReturn(buy: real, sell: real): real
    requires buy > 0.0
  {
    Round2(ReturnPct(buy, sell))
  }

  lemma {:induction false} NearestIs(x: real)
    ensures var n := Nearest(x);
            && -0.5 <= n as real - x <= 0.5
            && (n > 0 <==> x > 0.5)
            && (n < 0 <==> x < -0.5)
            && (n <= -10000 <==> x <= -9999.5)
  {
  }

  lemma {:induction false} NearestMonotone(x: real, y: real)
    requires x <= y
    ensures Nearest(x) <= Nearest(y)
  {
    assert x.Floor <= y.Floor;
  }

  lemma {:induction false} ReturnIs(buy: real, sell: real)
    requires buy > 0.0
    ensures sell == buy * (1.0 + ReturnPct(buy, sell) / 100.0)
    ensures sell > 0.0 <==> ReturnPct(buy, sell) > -100.0
  {
    var q := (sell - buy) / buy;
    assert q * buy == sell - buy;
    assert sell == buy * (1.0 + q);
    SignOfProduct(buy, 1.0 + q);
  }

  lemma {:induction false} SignOfProduct(x: real, y: real)
    requires x > 0.0
    ensures x * y > 0.0 <==> y > 0.0
  {
  }

  lemma {:induction false} BetterSaleReturn(buy: real, sell: real, better: real)
    requires buy > 0.0 && sell <= better
    ensures ReturnPct(buy, sell) <= ReturnPct(buy, better)
  {
    var q, r := (sell - buy) / buy, (better - buy) / buy;
    assert q * buy == sell - buy && r * buy == better - buy;
  }

  lemma {:induction false} Round2Is(x: real)
    ensures var p := Round2(x);
            && -0.005 <= p - x <= 0.005
            && (p > 0.0 <==> x > 0.005)
            && (p < 0.0 <==> x < -0.005)
            && (p <= -100.0 <==> x <= -99.995)
            && (x > -100.0 ==> p >= -100.0)
  {
    NearestIs(x * 100.0);
    if x > -100.0 { NearestMonotone(-10000.0, x * 100.0); }
  }

  /** What the stored return still tells: the return to half a hundredth of a percent, a gain exactly when it was
      more than 0.005 percent, a loss exactly when it was more than that, and a total loss exactly when at most
      0.005 percent of the price was left. */
  lemma {:induction false} StoredReturnTells(buy: real, sell: real)
    requires buy > 0.0
    ensures var p, exact := StoredReturn(buy, sell), ReturnPct(buy, sell);
            && -0.005 <= p - exact <= 0.005
            && (p > 0.0 <==> exact > 0.005)
            && (p < 0.0 <==> exact < -0.005)
            && (p <= -100.0 <==> exact <= -99.995)
            && (sell > 0.0 ==> p >= -100.0)
  {
    Round2Is(ReturnPct(buy, sell));
    ReturnIs(buy, sell);
  }

  /** A better sale never stores a smaller return. */
  lemma {:induction false} StoredReturnMonotone(buy: real, sell: real, better: real)
    requires buy > 0.0 && sell <= better
    ensures StoredReturn(buy, sell) <= StoredReturn(buy, better)
  {
    BetterSaleReturn(buy, sell, better);
    NearestMonotone(ReturnPct(buy, sell) * 100.0, ReturnPct(buy, better) * 100.0);
  }

  /** A sale at a positive price can be stored as a total loss. */
  lemma {:induction false} SaleStoredAsTotalLoss()
    ensures ReturnPct(10000.0, 0.1) == -99.999 && StoredReturn(10000.0, 0.1) == -100.0
  {
  }

  function Close(r: Record, today: int, prices: map<string, real>): Closed
    requires r.buyPrice > 0.0
  {
    Closed(r, today, today - r.buyDate,
           if IsPriced(prices, r.code) then Some(Sale(prices[r.code], StoredReturn(r.buyPrice, prices[r.code])))
           else None)
  }

  predicate AllBought(rs: seq<Record>) {
    forall k :: 0 <= k < |rs| ==> rs[k].buyPrice > 0.0
  }

  function Kept(rs: seq<Record>, i: nat, today: int, prices: map<string, real>): seq<Record>
    requires i <= |rs|
  {
    if i == 0 then []
    else Kept(rs, i - 1, today, prices) + if Stays(rs[i - 1], today, prices) then [rs[i - 1]] else []
  }

  function Closing(rs: seq<Record>, i: nat, today: int, prices: map<string, real>): seq<Closed>
    requires i <= |rs| && AllBought(rs)
  {
    if i == 0 then []
    else Closing(rs, i - 1, today, prices)
         + if Stays(rs[i - 1], today, prices) then [] else [Close(rs[i - 1], today, prices)]
  }

  function RecordsOf(log: seq<Closed>): (rs: seq<Record>)
    ensures |rs| == |log| && forall k :: 0 <= k < |log| ==> rs[k] == log[k].record
  {
    seq(|log|, k requires 0 <= k < |log| => log[k].record)
  }

  lemma {:induction false} RecordsOfSnoc(log: seq<Closed>, c: Closed)
    ensures RecordsOf(log + [c]) == RecordsOf(log) + [c.record]
  {
  }

  lemma {:induction false} PlacedOnce(kept: seq<Record>, closed: seq<Closed>, all: seq<Record>, c: Closed, stays: bool)
    requires multiset(kept) + multiset(RecordsOf(closed)) == multiset(all)
    ensures multiset(kept + if stays then [c.record] else [])
            + multiset(RecordsOf(closed + if stays then [] else [c])) == multiset(all + [c.record])
  {
    if stays {
      assert closed + [] == closed;
    } else {
      assert kept + [] == kept;
      RecordsOfSnoc(closed, c);
    }
  }

  /** Verification splits the pending records in two: none is lost, none is copied. */
  lemma {:induction false} VerifySplits(rs: seq<Record>, i: nat, today: int, prices: map<string, real>)
    requires i <= |rs| && AllBought(rs)
    ensures multiset(Kept(rs, i, today, prices)) + multiset(RecordsOf(Closing(rs, i, today, prices)))
            == multiset(rs[..i])
  {
    if i == 0 {
      assert |RecordsOf(Closing(rs, 0, today, prices))| == 0;
    } else {
      VerifySplits(rs, i - 1, today, prices);
      var r, kept, closed := rs[i - 1], Kept(rs, i - 1, today, prices), Closing(rs, i - 1, today, prices);
      var stays, c := Stays(r, today, prices), Close(r, today, prices);
      assert rs[..i] == rs[..i - 1] + [r];
      assert Kept(rs, i, today, prices) == kept + if stays then [r] else [];
      assert Closing(rs, i, today, prices) == closed + if stays then [] else [c];
      PlacedOnce(kept, closed, rs[..i - 1], c, stays);
    }
  }

  lemma {:induction false} KeptStay(rs: seq<Record>, i: nat, today: int, prices: map<string, real>)
    requires i <= |rs|
    ensures forall r :: r in Kept(rs, i, today, prices) <==> r in rs[..i] && Stays(r, today, prices)
  {
    if i > 0 {
      KeptStay(rs, i - 1, today, prices);
      assert rs[..i] == rs[..i - 1] + [rs[i - 1]];
    }
  }

  lemma {:induction false} ClosingAre(rs: seq<Record>, i: nat, today: int, prices: map<string, real>)
    requires i <= |rs| && AllBought(rs)
    ensures forall c :: c in Closing(rs, i, today, prices)
              ==> c.record in rs[..i] && !Stays(c.record, today, prices) && c.record.buyPrice > 0.0
                  && c == Close(c.record, today, prices)
  {
    if i > 0 {
      ClosingAre(rs, i - 1, today, prices);
      assert rs[..i] == rs[..i - 1] + [rs[i - 1]];
    }
  }

  // ----- runs over days -----

  datatype State = State(pending: seq<Record>, log: seq<Closed>)

  datatype Event =
    | RecordSignals(today: int, hold: int, b1: seq<Signal>, b2: seq<Signal>)
    | Verify(today: int, prices: map<string, real>)

  predicate RecordedOn(pending: seq<Record>, today: int) {
    exists k :: 0 <= k < |pending| && pending[k].buyDate == today
  }

  /** What an event adds to the pending records. */
  function Added(s: State, e: Event): seq<Record> {
    if e.RecordSignals? && !RecordedOn(s.pending, e.today) then NewRecords(e.b1, e.b2, e.today, e.hold) else []
  }

  function Step(s: State, e: Event): State
    requires AllBought(s.pending)
  {
    match e
    case RecordSignals(_, _, _, _) => s.(pending := s.pending + Added(s, e))
    case Verify(today, prices) =>
      if prices == map[] then s
      else State(Kept(s.pending, |s.pending|, today, prices), s.log + Closing(s.pending, |s.pending|, today, prices))
  }

  /** Everything known of a state on day `now`. */
  ghost predicate Inv(s: State, now: int) {
    && AllBought(s.pending)
    && (forall k :: 0 <= k < |s.pending| ==> s.pending[k].buyDate <= now && s.pending[k].hold >= 1)
    && (forall k :: 0 <= k < |s.log| ==> Settled(s.log[k], now))
  }

  /** A closed record was bought at a price, held its time, and sold at a price or waited out its grace. */
  ghost predicate Earned(c: Closed) {
    && c.record.buyPrice > 0.0
    && c.heldDays == c.sellDate - c.record.buyDate >= c.record.hold
    && match c.sale
       case Some(sale) => sale.price > 0.0 && sale.returnPct == StoredReturn(c.record.buyPrice, sale.price)
       case None => c.heldDays >= c.record.hold + GRACE
  }

  ghost predicate AllEarned(log: seq<Closed>) { forall k :: 0 <= k < |log| ==> Earned(log[k]) }

  /** Moreover it was to be held at least a day and has been closed by today. */
  ghost predicate Settled(c: Closed, now: int) { Earned(c) && c.record.hold >= 1 && c.sellDate <= now }

  lemma {:induction false} AddedAreSound(s: State, e: Event)
    requires e.RecordSignals?
    ensures Sound(Added(s, e), e.today, e.hold)
  {
    DaysRecords(e.b1, e.b2, e.today, e.hold);
  }

  lemma {:induction false} StepKeepsInv(s: State, e: Event, now: int)
    requires Inv(s, now) && now <= e.today && (e.RecordSignals? ==> e.hold >= 1)
    ensures Inv(Step(s, e), e.today)
  {
    var t := Step(s, e);
    match e
    case RecordSignals(_, _, _, _) => AddedAreSound(s, e);
    case Verify(today, prices) =>
      if prices != map[] {
        var p := s.pending;
        assert p[..|p|] == p;
        KeptStay(p, |p|, today, prices);
        ClosingAre(p, |p|, today, prices);
        forall k | 0 <= k < |t.pending|
          ensures t.pending[k].buyDate <= today && t.pending[k].hold >= 1 && t.pending[k].buyPrice > 0.0
        {
          assert t.pending[k] in t.pending;
        }
        forall k | 0 <= k < |t.log| ensures Settled(t.log[k], today) {
          if k >= |s.log| { assert t.log[k] in Closing(p, |p|, today, prices); }
        }
      }
  }

  /** Dates never go back and records are held at least a day. */
  ghost predicate Orderly(es: seq<Event>) {
    && (forall i :: 0 <= i < |es| && es[i].RecordSignals? ==> es[i].hold >= 1)
    && (forall i, j :: 0 <= i < j < |es| ==> es[i].today <= es[j].today)
  }

  function Now(es: seq<Event>, i: nat): int
    requires i <= |es|
  {
    if i == 0 then (if es == [] then 0 else es[0].today) else es[i - 1].today
  }

  /** The state after the first `i` events, from nothing. */
  function After(es: seq<Event>, i: nat): (s: State)
    requires i <= |es|
    ensures AllBought(s.pending)
  {
    if i == 0 then State([], [])
    else
      var s, e := After(es, i - 1), es[i - 1];
      assert AllBought(Step(s, e).pending) by { StepKeepsBought(s, e); }
      Step(s, e)
  }

  lemma {:induction false} StepKeepsBought(s: State, e: Event)
    requires AllBought(s.pending)
    ensures AllBought(Step(s, e).pending)
  {
    match e
    case RecordSignals(_, _, _, _) => AddedAreSound(s, e);
    case Verify(today, prices) =>
      KeptStay(s.pending, |s.pending|, today, prices);
      assert s.pending[..|s.pending|] == s.pending;
      var kept := Kept(s.pending, |s.pending|, today, prices);
      forall k | 0 <= k < |kept| ensures kept[k].buyPrice > 0.0 { assert kept[k] in kept; }
  }

  /** With dates in order and a holding time of at least a day, nothing is ever dated in the future. */
  lemma {:induction false} RunKeepsInv(es: seq<Event>, i: nat)
    requires Orderly(es) && i <= |es|
    ensures Inv(After(es, i), Now(es, i))
  {
    if i > 0 {
      RunKeepsInv(es, i - 1);
      StepKeepsInv(After(es, i - 1), es[i - 1], Now(es, i - 1));
    }
  }

  lemma {:induction false} StepEarns(s: State, e: Event)
    requires AllBought(s.pending) && AllEarned(s.log)
    ensures AllEarned(Step(s, e).log)
  {
    if e.Verify? && e.prices != map[] {
      var p := s.pending;
      var closing := Closing(p, |p|, e.today, e.prices);
      ClosingAre(p, |p|, e.today, e.prices);
      forall k | 0 <= k < |closing| ensures Earned(closing[k]) { assert closing[k] in closing; }
    }
  }

  /** Over any run at all, whatever the dates and holding times, every record was bought at a positive price, and
      every closed one was held its time and sold at a price or waited out its grace. */
  lemma {:induction false} EveryRunEarns(es: seq<Event>, i: nat)
    requires i <= |es|
    ensures AllBought(After(es, i).pending) && AllEarned(After(es, i).log)
  {
    if i > 0 {
      EveryRunEarns(es, i - 1);
      StepEarns(After(es, i - 1), es[i - 1]);
    }
  }

  /** Everything the first `i` events recorded. */
  function Issued(es: seq<Event>, i: nat): seq<Record>
    requires i <= |es|
  {
    if i == 0 then [] else Issued(es, i - 1) + Added(After(es, i - 1), es[i - 1])
  }

  function Everything(s: State): multiset<Record> { multiset(s.pending) + multiset(RecordsOf(s.log)) }

  lemma {:induction false} RecordsOfAppend(log: seq<Closed>, closing: seq<Closed>)
    ensures RecordsOf(log + closing) == RecordsOf(log) + RecordsOf(closing)
  {
  }

  lemma {:induction false} StepConserves(s: State, e: Event)
    requires AllBought(s.pending)
    ensures Everything(Step(s, e)) == Everything(s) + multiset(Added(s, e))
  {
    hide AllBought, Kept, Closing, RecordsOf, NewRecords, RecordedOn;
    if e.Verify? && e.prices != map[] {
      var p := s.pending;
      VerifySplits(p, |p|, e.today, e.prices);
      assert p[..|p|] == p;
      RecordsOfAppend(s.log, Closing(p, |p|, e.today, e.prices));
    }
  }

  /** These are all the records the state has, as often as it has them. */
  ghost predicate Holding(s: State, past: seq<Record>) { multiset(past) == Everything(s) }

  lemma {:induction false} StepHolding(s: State, e: Event, past: seq<Record>)
    requires AllBought(s.pending) && Holding(s, past)
    ensures Holding(Step(s, e), past + Added(s, e))
  {
    StepConserves(s, e);
  }

  lemma {:induction false} NothingYet()
    ensures Holding(State([], []), [])
  {
    assert RecordsOf([]) == [];
  }

  /** Over any run, every record ever made is pending or closed, and in one of them only once. */
  lemma {:induction false} RecordsConserved(es: seq<Event>, i: nat)
    requires i <= |es|
    ensures Holding(After(es, i), Issued(es, i))
  {
    hide Holding, Step, Added, AllBought;
    if i == 0 {
      NothingYet();
    } else {
      RecordsConserved(es, i - 1);
      StepHolding(After(es, i - 1), es[i - 1], Issued(es, i - 1));
    }
  }

  /** The verified files only grow. */
  lemma {:induction false} LogGrows(es: seq<Event>, i: nat, j: nat)
    requires i <= j <= |es|
    ensures After(es, i).log <= After(es, j).log
    decreases j
  {
    if i < j { LogGrows(es, i, j - 1); }
  }

  ghost predicate DistinctKeys(rs: seq<Record>) {
    forall i, j :: 0 <= i < j < |rs| ==> rs[i].code != rs[j].code || rs[i].buyDate != rs[j].buyDate
  }

  /** Event `i` records nothing or has no stock with two priced B1 signals. */
  ghost predicate CleanDay(es: seq<Event>, i: nat)
    requires i < |es|
  {
    es[i].RecordSignals? && !RecordedOn(After(es, i).pending, es[i].today) ==> DistinctPriced(es[i].b1, |es[i].b1|)
  }

  /** Event `i` records a stock again that was bought and closed on the same day. */
  ghost predicate Reopens(es: seq<Event>, i: nat)
    requires i < |es|
  {
    && es[i].RecordSignals? && !RecordedOn(After(es, i).pending, es[i].today)
    && exists m :: 0 <= m < |After(es, i).log| && ReopenedBy(After(es, i).log[m].record, es[i])
  }

  ghost predicate ReopenedBy(r: Record, e: Event)
    requires e.RecordSignals?
  {
    r.buyDate == e.today && (HasPriced(e.b1, |e.b1|, r.code) || HasPriced(e.b2, |e.b2|, r.code))
  }

  ghost predicate CleanUpTo(es: seq<Event>, n: nat)
    requires n <= |es|
  {
    forall i :: 0 <= i < n ==> CleanDay(es, i) && !Reopens(es, i)
  }

  /** A record with today's date that is no longer pending has been closed, and a closed one was issued. */
  lemma {:induction false} IssuedToday(es: seq<Event>, i: nat, r: Record)
    requires i < |es| && !RecordedOn(After(es, i).pending, es[i].today) && r.buyDate == es[i].today
    ensures r in Issued(es, i) <==> exists m :: 0 <= m < |After(es, i).log| && After(es, i).log[m].record == r
  {
    var s := After(es, i);
    RecordsConserved(es, i);
    assert r !in s.pending;
    assert r in multiset(Issued(es, i)) <==> r in multiset(RecordsOf(s.log));
    if r in RecordsOf(s.log) {
      var m :| 0 <= m < |s.log| && RecordsOf(s.log)[m] == r;
      assert s.log[m].record == r;
    }
    if m :| 0 <= m < |s.log| && s.log[m].record == r { assert RecordsOf(s.log)[m] == r; }
  }

  /** Some record issued before has the code and date of one issued now. */
  ghost predicate Meet(past: seq<Record>, added: seq<Record>) {
    exists k, j :: 0 <= k < |past| && 0 <= j < |added| && past[k].code == added[j].code
                   && past[k].buyDate == added[j].buyDate
  }

  lemma {:induction false} MeetMeansReopen(es: seq<Event>, i: nat)
    requires i < |es| && es[i].RecordSignals? && !RecordedOn(After(es, i).pending, es[i].today)
    ensures Meet(Issued(es, i), Added(After(es, i), es[i])) <==> Reopens(es, i)
  {
    var s, e, past := After(es, i), es[i], Issued(es, i);
    var added := Added(s, e);
    DaysRecords(e.b1, e.b2, e.today, e.hold);
    if Meet(past, added) {
      var k, j :| 0 <= k < |past| && 0 <= j < |added| && past[k].code == added[j].code
                  && past[k].buyDate == added[j].buyDate;
      assert Holds(added, past[k].code);
      IssuedToday(es, i, past[k]);
      var m :| 0 <= m < |s.log| && s.log[m].record == past[k];
      assert ReopenedBy(s.log[m].record, e);
    }
    if Reopens(es, i) {
      var m :| 0 <= m < |s.log| && ReopenedBy(s.log[m].record, e);
      var r := s.log[m].record;
      IssuedToday(es, i, r);
      var k :| 0 <= k < |past| && past[k] == r;
      assert Holds(added, r.code);
      var j :| 0 <= j < |added| && added[j].code == r.code;
    }
  }

  lemma {:induction false} DistinctKeysAppend(past: seq<Record>, added: seq<Record>, today: int, hold: int)
    requires Sound(added, today, hold)
    ensures DistinctKeys(past + added) <==> DistinctKeys(past) && DistinctCodes(added) && !Meet(past, added)
  {
    var all, n := past + added, |past|;
    assert forall k :: 0 <= k < n ==> all[k] == past[k];
    assert forall k :: 0 <= k < |added| ==> all[n + k] == added[k];
    if DistinctKeys(all) {
      forall i, j | 0 <= i < j < |added| ensures added[i].code != added[j].code {
        var a, b := all[n + i], all[n + j];
        assert a == added[i] && b == added[j];
      }
      forall k, j | 0 <= k < n && 0 <= j < |added|
        ensures past[k].code != added[j].code || past[k].buyDate != added[j].buyDate
      {
        var a, b := all[k], all[n + j];
        assert a == past[k] && b == added[j];
      }
    }
    if DistinctKeys(past) && DistinctCodes(added) && !Meet(past, added) {
      forall i, j | 0 <= i < j < |all| ensures all[i].code != all[j].code || all[i].buyDate != all[j].buyDate {
        if i >= n { assert all[i] == added[i - n] && all[j] == added[j - n]; }
        else if j >= n { assert all[j] == added[j - n]; }
      }
    }
  }

  lemma {:induction false} DayAddsDuplicates(es: seq<Event>, i: nat)
    requires i < |es|
    ensures DistinctKeys(Issued(es, i + 1)) <==> DistinctKeys(Issued(es, i)) && CleanDay(es, i) && !Reopens(es, i)
  {
    var e, s, past := es[i], After(es, i), Issued(es, i);
    if e.RecordSignals? && !RecordedOn(s.pending, e.today) {
      DaysRecords(e.b1, e.b2, e.today, e.hold);
      MeetMeansReopen(es, i);
      DistinctKeysAppend(past, Added(s, e), e.today, e.hold);
    } else {
      assert Issued(es, i + 1) == past;
    }
  }

  lemma {:induction false} NoneIssued(es: seq<Event>)
    ensures DistinctKeys(Issued(es, 0)) && CleanUpTo(es, 0)
  {
  }

  /** Over any run at all, no stock is ever recorded twice for one day, neither pending nor closed, exactly when no
      day that records has a stock with two priced B1 signals or one already bought and closed that day. */
  lemma {:induction false} NoDuplicates(es: seq<Event>, i: nat)
    requires i <= |es|
    ensures DistinctKeys(Issued(es, i)) <==> CleanUpTo(es, i)
  {
    hide DistinctKeys, CleanUpTo, CleanDay, Reopens, Issued;
    if i == 0 {
      NoneIssued(es);
    } else {
      NoDuplicates(es, i - 1);
      DayAddsDuplicates(es, i - 1);
      CleanStep(es, i);
    }
  }

  lemma {:induction false} CleanStep(es: seq<Event>, n: nat)
    requires 0 < n <= |es|
    ensures CleanUpTo(es, n) <==> CleanUpTo(es, n - 1) && CleanDay(es, n - 1) && !Reopens(es, n - 1)
  {
  }

  /** With dates that never go back and a holding time of at least a day, nothing is closed on the day it was
      bought, so the second case cannot come about. */
  lemma {:induction false} HeldADayNeverReopens(es: seq<Event>, i: nat)
    requires Orderly(es) && i < |es|
    ensures !Reopens(es, i)
  {
    RunKeepsInv(es, i);
    var log := After(es, i).log;
    forall m | 0 <= m < |log| && es[i].RecordSignals? ensures !ReopenedBy(log[m].record, es[i]) {
      assert Settled(log[m], Now(es, i));
    }
  }

  /** Two priced B1 signals of one stock make two records of it. */
  lemma {:induction false} DoubleSignalRepeats()
    ensures var s := Signal("600519", 10.0, 2, []);
            var es := [RecordSignals(1, 3, [s, s], [])];
            Orderly(es) && !DistinctKeys(Issued(es, 1)) && !CleanDay(es, 0)
  {
    var s := Signal("600519", 10.0, 2, []);
    var es := [RecordSignals(1, 3, [s, s], [])];
    assert es[0].b1[0].code == es[0].b1[1].code;
    assert !DistinctPriced(es[0].b1, 2);
    assert !CleanDay(es, 0);
    NoDuplicates(es, 1);
  }

  /** Right after a verification with prices, no pending record is past its grace, and those past their holding
      time have no price. */
  lemma {:induction false} VerifyLeavesNothingOverdue(es: seq<Event>, i: nat, r: Record)
    requires 0 < i <= |es| && es[i - 1].Verify? && es[i - 1].prices != map[]
    ensures var e := es[i - 1];
            r in After(es, i).pending <==> r in After(es, i - 1).pending && Stays(r, e.today, e.prices)
    ensures var e := es[i - 1];
            r in After(es, i).pending ==> e.today - r.buyDate < r.hold + GRACE
                                          && (IsPriced(e.prices, r.code) ==> e.today - r.buyDate < r.hold)
  {
    var p, e := After(es, i - 1).pending, es[i - 1];
    KeptStay(p, |p|, e.today, e.prices);
    assert p[..|p|] == p;
  }

  /** With a holding time of no days the guard on pending dates is not enough: a record made and closed on one
      day is made again. */
  lemma {:induction false} ZeroHoldRepeats()
    ensures var buy := RecordSignals(1, 0, [Signal("600519", 10.0, 2, [])], []);
            var es := [buy, Verify(1, map["600519" := 11.0]), buy];
            !DistinctKeys(Issued(es, 3)) && Reopens(es, 2)
  {
    var s := Signal("600519", 10.0, 2, []);
    var buy := RecordSignals(1, 0, [s], []);
    var es := [buy, Verify(1, map["600519" := 11.0]), buy];
    var r := Record("600519", 1, 10.0, B1, 2, ["B1"], 0);
    assert FromB1([s], 1, 1, 0) == [r];
    assert NewRecords([s], [], 1, 0) == [r];
    assert After(es, 1) == State([r], []);
    ZeroHoldCloses(r, es[1]);
    assert After(es, 2).pending == [] && After(es, 2).log[0].record == r;
    assert es[2].b1[0].price > 0.0 && es[2].b1[0].code == r.code;
    assert HasPriced(es[2].b1, 1, r.code);
    assert ReopenedBy(After(es, 2).log[0].record, es[2]);
    assert Reopens(es, 2);
    NoDuplicates(es, 3);
  }

  lemma {:induction false} ZeroHoldCloses(r: Record, e: Event)
    requires e.Verify? && IsPriced(e.prices, r.code) && r.hold == 0 && r.buyDate == e.today && r.buyPrice > 0.0
    ensures var s := Step(State([r], []), e); s.pending == [] && |s.log| == 1 && s.log[0].record == r
  {
    assert Kept([r], 0, e.today, e.prices) == [] && Closing([r], 0, e.today, e.prices) == [];
  }

  // ----- the tracker as an object over its files -----

  /** The closed records of one day. */
  function OnDate(log: seq<Closed>, date: int): seq<Closed> {
    if log == [] then []
    else OnDate(log[..|log| - 1], date) + if log[|log| - 1].sellDate == date then [log[|log| - 1]] else []
  }

  lemma {:induction false} OnDateSnoc(log: seq<Closed>, c: Closed, date: int)
    ensures OnDate(log + [c], date) == OnDate(log, date) + if c.sellDate == date then [c] else []
  {
    assert (log + [c])[..|log|] == log;
  }

  lemma {:induction false} OneMore(before: seq<Closed>, front: seq<Closed>, last: Closed, more: seq<Closed>)
    requires more == front + [last]
    ensures before + more == before + front + [last]
  {
  }

  lemma {:induction false} OnDateAppend(log: seq<Closed>, more: seq<Closed>, today: int, date: int)
    requires forall k :: 0 <= k < |more| ==> more[k].sellDate == today
    ensures OnDate(log + more, date) == OnDate(log, date) + if date == today then more else []
    decreases |more|
  {
    hide OnDate;
    if more == [] {
      assert log + more == log && OnDate(log, date) + [] == OnDate(log, date);
    } else {
      var front, last := more[..|more| - 1], more[|more| - 1];
      OnDateAppend(log, front, today, date);
      OnDateSnoc(log + front, last, date);
      assert log + more == log + front + [last];
      if date == today { OneMore(OnDate(log, date), front, last, more); }
    }
  }

  function FileOf(files: map<int, seq<Closed>>, date: int): seq<Closed> {
    if date in files then files[date] else []
  }

  class CrossDayTracker {
    const holdDays: int
    var pending: seq<Record>
    var verified: map<int, seq<Closed>>
    /** All closed records, in the order of their closing. */
    ghost var log: seq<Closed>

    ghost predicate Valid()
      reads this
    {
      AllBought(pending) && forall date :: FileOf(verified, date) == OnDate(log, date)
    }

    ghost function Abs(): State
      reads this
    {
      State(pending, log)
    }

    constructor (holdDays: int)
      ensures Valid() && Abs() == State([], []) && this.holdDays == holdDays
    {
      this.holdDays := holdDays;
      pending, verified, log := [], map[], [];
    }

    /** A B2 signal joins the first record of its stock, or makes one. */
    static method AddSignal(rs: seq<Record>, s: Signal, today: int, hold: int) returns (records: seq<Record>)
      requires s.price > 0.0
      ensures records == AddB2(rs, s, today, hold)
    {
      var k := 0;
      while k < |rs| && rs[k].code != s.code
        invariant 0 <= k <= |rs| && forall m :: 0 <= m < k ==> rs[m].code != s.code
      {
        k := k + 1;
      }
      if k < |rs| {
        FirstUnique(rs, s.code, k);
        records := rs[k := rs[k].(tags := rs[k].tags + s.tags)];
      } else {
        records := rs + [Record(s.code, today, s.price, B2, 0, s.tags, hold)];
      }
    }

    method RecordTodaySignals(b1: seq<Signal>, b2: seq<Signal>, today: int)
      requires Valid()
      modifies this`pending
      ensures Valid() && Abs() == Step(old(Abs()), RecordSignals(today, holdDays, b1, b2))
    {
      ghost var s0, e := Abs(), RecordSignals(today, holdDays, b1, b2);
      StepKeepsBought(s0, e);
      assert RecordedOn(pending, today) ==> Step(s0, e).pending == pending;
      if RecordedOn(pending, today) { return; }
      var records := [];
      var i := 0;
      while i < |b1|
        invariant 0 <= i <= |b1| && records == FromB1(b1, i, today, holdDays)
      {
        var s := b1[i];
        if s.price > 0.0 {
          records := records + [Record(s.code, today, s.price, B1, s.score, ["B1"], holdDays)];
        }
        i := i + 1;
      }
      i := 0;
      while i < |b2|
        invariant unchanged(this)
        invariant 0 <= i <= |b2| && records == WithB2(FromB1(b1, |b1|, today, holdDays), b2, i, today, holdDays)
      {
        if b2[i].price > 0.0 { records := AddSignal(records, b2[i], today, holdDays); }
        i := i + 1;
      }
      assert records == Added(s0, e);
      pending := pending + records;
    }

    method SaveVerified(today: int, records: seq<Closed>)
      requires Valid() && forall k :: 0 <= k < |records| ==> records[k].sellDate == today
      modifies this`verified, this`log
      ensures Valid() && log == old(log) + records
    {
      var existing := if today in verified then verified[today] else [];
      forall date ensures OnDate(log + records, date) == OnDate(log, date) + if date == today then records else [] {
        OnDateAppend(log, records, today, date);
      }
      verified := verified[today := existing + records];
      log := log + records;
    }

    /** One pass of the loop: nothing for a record that stays pending. */
    static method Judge(r: Record, prices: map<string, real>, today: int) returns (closed: Option<Closed>)
      requires r.buyPrice > 0.0
      ensures closed == if Stays(r, today, prices) then None else Some(Close(r, today, prices))
    {
      var held := today - r.buyDate;
      if held < r.hold { return None; }
      if r.code !in prices || prices[r.code] <= 0.0 {
        if held < r.hold + 3 { return None; }
        return Some(Closed(r, today, held, None));
      }
      var sell := prices[r.code];
      var returnPct := (sell - r.buyPrice) / r.buyPrice * 100.0;
      closed := Some(Closed(r, today, held, Some(Sale(sell, Round2(returnPct)))));
    }

    method VerifyPending(prices: map<string, real>, today: int)
      requires Valid()
      modifies this
      ensures Valid() && Abs() == Step(old(Abs()), Verify(today, prices))
    {
      if prices == map[] { return; }
      StepKeepsBought(Abs(), Verify(today, prices));
      ClosingAre(pending, |pending|, today, prices);
      var kept, closing := [], [];
      var i := 0;
      while i < |pending|
        invariant 0 <= i <= |pending|
        invariant unchanged(this)
        invariant kept == Kept(pending, i, today, prices) && closing == Closing(pending, i, today, prices)
      {
        var closed := Judge(pending[i], prices, today);
        match closed {
          case None => kept := kept + [pending[i]];
          case Some(c) => closing := closing + [c];
        }
        i := i + 1;
      }
      pending := kept;
      if closing != [] { SaveVerified(today, closing); }
    }
  }
}
