/** Where the values of a record come from: the signals of its day, and the prices of the verification that
    closed it. */
module SignalLaws {
  import opened Wrappers
  import opened SignalTracker

  // ----- what a day's records say -----

  /** The signals with a price among the first `n`, in order. */
  function Priced(signals: seq<Signal>, n: nat): seq<Signal>
    requires n <= |signals|
  {
    if n == 0 then []
    else Priced(signals, n - 1) + if signals[n - 1].price > 0.0 then [signals[n - 1]] else []
  }

  /** The record of a B1 signal, bought at its price. */
  ghost predicate OfB1(r: Record, s: Signal, today: int, hold: int) {
    && r.code == s.code && r.buyDate == today && r.buyPrice == s.price && r.strategy == B1 && r.score == s.score
    && r.hold == hold
  }

  /** Signal `j` is the first with a price for this stock among the first `n`. */
  ghost predicate FirstPriced(signals: seq<Signal>, n: nat, code: string, j: nat) {
    && j < n <= |signals| && signals[j].price > 0.0 && signals[j].code == code
    && forall m :: 0 <= m < j ==> !(signals[m].price > 0.0 && signals[m].code == code)
  }

  /** A record that a B2 signal made, bought at the price of the first one with a price. */
  ghost predicate OfB2(r: Record, b2: seq<Signal>, n: nat, today: int, hold: int) {
    && r.buyDate == today && r.strategy == B2 && r.score == 0 && r.hold == hold
    && exists j: nat :: FirstPriced(b2, n, r.code, j) && r.buyPrice == b2[j].price
  }

  lemma {:induction false} FromB1Tells(b1: seq<Signal>, i: nat, today: int, hold: int)
    requires i <= |b1|
    ensures var rs, p := FromB1(b1, i, today, hold), Priced(b1, i);
            |rs| == |p| && forall k :: 0 <= k < |p| ==> OfB1(rs[k], p[k], today, hold)
  {
    if i > 0 { FromB1Tells(b1, i - 1, today, hold); }
  }

  /** From `was` to `all` the first records kept everything but their tags, and the new ones come from B2 signals. */
  ghost predicate Extends(was: seq<Record>, all: seq<Record>, b2: seq<Signal>, n: nat, today: int, hold: int) {
    && |was| <= |all|
    && (forall k :: 0 <= k < |was| ==> all[k] == was[k].(tags := all[k].tags))
    && forall k :: |was| <= k < |all| ==> OfB2(all[k], b2, n, today, hold) && !Holds(was, all[k].code)
  }

  lemma {:induction false} OneMoreSignal(r: Record, t: seq<string>, b2: seq<Signal>, n: nat, today: int, hold: int)
    requires n < |b2| && OfB2(r, b2, n, today, hold)
    ensures OfB2(r.(tags := t), b2, n + 1, today, hold)
  {
    var j: nat :| FirstPriced(b2, n, r.code, j) && r.buyPrice == b2[j].price;
    assert FirstPriced(b2, n + 1, r.code, j);
  }

  lemma {:induction false} JoinsRecord(was: seq<Record>, now: seq<Record>, all: seq<Record>, b2: seq<Signal>, n: nat,
                                       today: int, hold: int)
    requires n < |b2| && Extends(was, now, b2, n, today, hold) && |all| == |now|
    requires forall k :: 0 <= k < |now| ==> all[k] == now[k].(tags := all[k].tags)
    ensures Extends(was, all, b2, n + 1, today, hold)
  {
    hide OfB2, Holds;
    forall k | |was| <= k < |all| ensures OfB2(all[k], b2, n + 1, today, hold) && !Holds(was, all[k].code) {
      OneMoreSignal(now[k], all[k].tags, b2, n, today, hold);
    }
  }

  lemma {:induction false} MakesRecord(was: seq<Record>, now: seq<Record>, r: Record, b2: seq<Signal>, n: nat,
                                       today: int, hold: int)
    requires n < |b2| && Extends(was, now, b2, n, today, hold)
    requires OfB2(r, b2, n + 1, today, hold) && !Holds(was, r.code)
    ensures Extends(was, now + [r], b2, n + 1, today, hold)
  {
    hide OfB2, Holds;
    var all := now + [r];
    forall k | |was| <= k < |all| ensures OfB2(all[k], b2, n + 1, today, hold) && !Holds(was, all[k].code) {
      if k < |now| { OneMoreSignal(now[k], now[k].tags, b2, n, today, hold); }
    }
  }

  lemma {:induction false} WithB2Tells(rs: seq<Record>, b2: seq<Signal>, i: nat, today: int, hold: int)
    requires i <= |b2| && Sound(rs, today, hold)
    ensures Extends(rs, WithB2(rs, b2, i, today, hold), b2, i, today, hold)
  {
    hide Extends, Holds, HasPriced, AddB2, Sound;
    if i == 0 {
      NothingAdded(rs, b2, today, hold);
    } else {
      var now := WithB2(rs, b2, i - 1, today, hold);
      WithB2Tells(rs, b2, i - 1, today, hold);
      CodesSoFar(rs, now, b2, i - 1, today, hold);
      NextB2(rs, now, b2, i - 1, today, hold);
    }
  }

  lemma {:induction false} NothingAdded(rs: seq<Record>, b2: seq<Signal>, today: int, hold: int)
    ensures Extends(rs, rs, b2, 0, today, hold)
  {
  }

  /** These records cover the old ones and the B2 signals so far. */
  ghost predicate Covers(rs: seq<Record>, now: seq<Record>, b2: seq<Signal>, n: nat)
    requires n <= |b2|
  {
    forall c :: Holds(now, c) <==> Holds(rs, c) || HasPriced(b2, n, c)
  }

  lemma {:induction false} CodesSoFar(rs: seq<Record>, now: seq<Record>, b2: seq<Signal>, n: nat, today: int, hold: int)
    requires n <= |b2| && Sound(rs, today, hold) && now == WithB2(rs, b2, n, today, hold)
    ensures Covers(rs, now, b2, n)
  {
    hide WithB2, Holds, HasPriced, Sound;
    WithB2Facts(rs, b2, n, today, hold);
  }

  lemma {:induction false} NextB2(rs: seq<Record>, now: seq<Record>, b2: seq<Signal>, n: nat, today: int, hold: int)
    requires n < |b2| && Extends(rs, now, b2, n, today, hold)
    requires Covers(rs, now, b2, n)
    ensures Extends(rs, AddB2(now, b2[n], today, hold), b2, n + 1, today, hold)
  {
    hide Extends, Holds;
    var s, all := b2[n], AddB2(now, b2[n], today, hold);
    if s.price <= 0.0 || Holds(now, s.code) {
      JoinsRecord(rs, now, all, b2, n, today, hold);
    } else {
      var r := Record(s.code, today, s.price, B2, 0, s.tags, hold);
      assert FirstPriced(b2, n + 1, s.code, n);
      MakesRecord(rs, now, r, b2, n, today, hold);
    }
  }

  /** The records of a day: first one for every priced B1 signal in order, with its price and score; then one for every
      stock that only B2 signals name, at the price of the first of them, with score 0. */
  lemma {:induction false} RecordsTell(b1: seq<Signal>, b2: seq<Signal>, today: int, hold: int)
    ensures var rs, p := NewRecords(b1, b2, today, hold), Priced(b1, |b1|);
            && |p| <= |rs|
            && (forall k :: 0 <= k < |p| ==> OfB1(rs[k], p[k], today, hold))
            && forall k :: |p| <= k < |rs| ==>
                 OfB2(rs[k], b2, |b2|, today, hold) && !HasPriced(b1, |b1|, rs[k].code)
  {
    hide OfB2, Holds, HasPriced, Priced;
    var first := FromB1(b1, |b1|, today, hold);
    FromB1Facts(b1, |b1|, today, hold);
    FromB1Tells(b1, |b1|, today, hold);
    WithB2Tells(first, b2, |b2|, today, hold);
  }

  // ----- what closed a record -----

  /** Event `j` closed the record: a verification with prices on its sale date, which had this price for the stock, or
      none for a record without a sale. */
  ghost predicate ClosedBy(c: Closed, es: seq<Event>, j: nat) {
    && j < |es| && es[j].Verify? && es[j].today == c.sellDate && es[j].prices != map[]
    && match c.sale
       case Some(sale) => c.record.code in es[j].prices && es[j].prices[c.record.code] == sale.price > 0.0
       case None => c.record.code in es[j].prices ==> es[j].prices[c.record.code] <= 0.0
  }

  ghost predicate AllClosedBy(log: seq<Closed>, es: seq<Event>, i: nat) {
    forall k :: 0 <= k < |log| ==> ClosedIn(log[k], es, i)
  }

  /** One of the first `i` events closed the record. */
  ghost predicate ClosedIn(c: Closed, es: seq<Event>, i: nat) { exists j: nat :: j < i && ClosedBy(c, es, j) }

  lemma {:induction false} ClosedStays(c: Closed, es: seq<Event>, i: nat)
    ensures ClosedIn(c, es, i) ==> ClosedIn(c, es, i + 1)
  {
  }

  lemma {:induction false} JustClosed(c: Closed, es: seq<Event>, i: nat)
    requires i < |es| && es[i].Verify? && es[i].prices != map[] && c.record.buyPrice > 0.0
    requires c == Close(c.record, es[i].today, es[i].prices)
    ensures ClosedIn(c, es, i + 1)
  {
    assert ClosedBy(c, es, i);
  }

  lemma {:induction false} StepCloses(s: State, es: seq<Event>, i: nat)
    requires i < |es| && AllBought(s.pending) && AllClosedBy(s.log, es, i)
    ensures AllClosedBy(Step(s, es[i]).log, es, i + 1)
  {
    var p, e, log := s.pending, es[i], Step(s, es[i]).log;
    if e.Verify? && e.prices != map[] {
      ClosingAre(p, |p|, e.today, e.prices);
      var closing := Closing(p, |p|, e.today, e.prices);
      hide ClosedIn;
      forall k | |s.log| <= k < |log| ensures ClosedIn(log[k], es, i + 1) {
        assert log[k] in closing;
        JustClosed(log[k], es, i);
      }
    }
    hide ClosedIn;
    forall k | 0 <= k < |s.log| ensures ClosedIn(log[k], es, i + 1) { ClosedStays(s.log[k], es, i); }
  }

  /** Over any run every closed record was closed by a verification of its sale date, at the price that one had
      for it. */
  lemma {:induction false} SalesAreMarketPrices(es: seq<Event>, i: nat)
    requires i <= |es|
    ensures AllClosedBy(After(es, i).log, es, i)
  {
    if i > 0 {
      hide AllClosedBy, Step;
      SalesAreMarketPrices(es, i - 1);
      StepCloses(After(es, i - 1), es, i - 1);
    }
  }

  /** What a verification keeps: a record younger than its holding time, and for three days more one without a price. */
  lemma {:induction false} PendingTells(es: seq<Event>, i: nat, r: Record)
    requires 0 < i <= |es| && es[i - 1].Verify?
    ensures var e, age := es[i - 1], es[i - 1].today - r.buyDate;
            r in After(es, i).pending
            <==> && r in After(es, i - 1).pending
                 && (|| e.prices == map[] || age < r.hold
                     || (age < r.hold + 3 && (r.code in e.prices ==> e.prices[r.code] <= 0.0)))
  {
    if es[i - 1].prices != map[] { VerifyLeavesNothingOverdue(es, i, r); }
  }
}
