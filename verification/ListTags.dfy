/** What the tags of the final list tell about where a stock came from, and why no stock carries both a B1 and a
    B2 tag when both filters saw the same bars. */
module ListTags {
  import opened MergeResults
  import opened ListExtras
  import Verdicts
  import Indicators
  import Wrappers

  lemma {:induction false} TagsDiffer()
    ensures B1 != B2_STRICT && B1 != B2_LOOSE && B2_STRICT != B2_LOOSE
    ensures WATCHLIST != B1 && WATCHLIST != B2_STRICT && WATCHLIST != B2_LOOSE && WATCHLIST != HIGH_SCORE
    ensures HIGH_SCORE != B1 && HIGH_SCORE != B2_STRICT && HIGH_SCORE != B2_LOOSE
  {
    assert B2_STRICT[2] != B2_LOOSE[2] && WATCHLIST[0] != B1[0];
  }

  /** The item is a B2 pass of the stock, by the strict or by the loose verdict. */
  predicate Hit(item: B2Item, code: string, strict: bool) {
    item.Passes() && item.code == code && if strict then item.strict else item.loose
  }

  /** The B2 passes of a stock among the first `n` items. */
  function Hits(b2: seq<B2Item>, n: nat, code: string, strict: bool): nat
    requires n <= |b2|
  {
    if n == 0 then 0 else Hits(b2, n - 1, code, strict) + if Hit(b2[n - 1], code, strict) then 1 else 0
  }

  lemma {:induction false} HitsSome(b2: seq<B2Item>, n: nat, code: string, strict: bool)
    requires n <= |b2|
    ensures Hits(b2, n, code, strict) > 0 <==> exists j :: 0 <= j < n && Hit(b2[j], code, strict)
  {
    if n > 0 { HitsSome(b2, n - 1, code, strict); }
  }

  /** Two B2 passes of the stock by the same verdict. */
  ghost predicate PassesTwice(b2: seq<B2Item>, n: nat, code: string, strict: bool)
    requires n <= |b2|
  {
    exists i, j :: 0 <= i < j < n && Hit(b2[i], code, strict) && Hit(b2[j], code, strict)
  }

  lemma {:induction false} HitsTwo(b2: seq<B2Item>, n: nat, code: string, strict: bool)
    requires n <= |b2|
    ensures Hits(b2, n, code, strict) >= 2 <==> PassesTwice(b2, n, code, strict)
  {
    if n > 0 {
      HitsTwo(b2, n - 1, code, strict);
      HitsSome(b2, n - 1, code, strict);
      if PassesTwice(b2, n, code, strict) && !PassesTwice(b2, n - 1, code, strict) {
        var i, j :| 0 <= i < j < n && Hit(b2[i], code, strict) && Hit(b2[j], code, strict);
        assert j == n - 1;
      }
    }
  }

  /** The tags one item brings. */
  lemma {:induction false} ItemCount(item: B2Item, tag: string)
    ensures Count(item.Tags(), tag)
            == if tag == B2_STRICT then (if item.strict then 1 else 0)
               else if tag == B2_LOOSE then (if item.loose then 1 else 0)
               else 0
  {
    hide Count;
    var strict, loose := if item.strict then [B2_STRICT] else [], if item.loose then [B2_LOOSE] else [];
    TagsDiffer();
    CountAppend(strict, loose, tag);
    CountNone(tag);
    CountOne(B2_STRICT, tag);
    CountOne(B2_LOOSE, tag);
  }

  lemma {:induction false} CountNone(tag: string)
    ensures Count([], tag) == 0
  {
  }

  lemma {:induction false} B2TagsCount(b2: seq<B2Item>, n: nat, code: string, tag: string)
    requires n <= |b2|
    ensures Count(B2Tags(b2, n, code), tag)
            == if tag == B2_STRICT then Hits(b2, n, code, true)
               else if tag == B2_LOOSE then Hits(b2, n, code, false)
               else 0
  {
    hide Count;
    TagsDiffer();
    CountNone(tag);
    if n > 0 {
      B2TagsCount(b2, n - 1, code, tag);
      ItemCount(b2[n - 1], tag);
      CountAppend(B2Tags(b2, n - 1, code), b2[n - 1].Tags(), tag);
      assert B2Tags(b2, n - 1, code) + [] == B2Tags(b2, n - 1, code);
    }
  }

  /** How often a ranked stock carries the tag. */
  function RankedTimes(b1: seq<B1Item>, b2: seq<B2Item>, tag: string, code: string): nat {
    if tag == B1 then (if InB1(b1, |b1|, code) then 1 else 0)
    else if tag == B2_STRICT then Hits(b2, |b2|, code, true)
    else if tag == B2_LOOSE then Hits(b2, |b2|, code, false)
    else 0
  }

  /** How often a stock of the final list carries the tag. */
  function Times(b1: seq<B1Item>, b2: seq<B2Item>, watchlist: seq<string>, high: seq<Stock>, tag: string,
                 code: string): nat
  {
    if tag == WATCHLIST then (if code in watchlist then 1 else 0)
    else if tag == HIGH_SCORE then (if Scored(high, code) then 1 else 0)
    else RankedTimes(b1, b2, tag, code)
  }

  lemma {:induction false} OwnTagsCount(b1: seq<B1Item>, b2: seq<B2Item>, code: string, tag: string)
    ensures Count((if InB1(b1, |b1|, code) then [B1] else []) + B2Tags(b2, |b2|, code), tag)
            == RankedTimes(b1, b2, tag, code)
  {
    hide Count, InB1, B2Tags, Hits;
    TagsDiffer();
    CountNone(tag);
    CountOne(B1, tag);
    B2TagsCount(b2, |b2|, code, tag);
    CountAppend(if InB1(b1, |b1|, code) then [B1] else [], B2Tags(b2, |b2|, code), tag);
  }

  lemma {:induction false} RankedTagged(b1: seq<B1Item>, b2: seq<B2Item>, tag: string)
    ensures Tagged(Ranked(b1, b2), tag, code => RankedTimes(b1, b2, tag, code))
  {
    hide Ranked, RankedTimes, Count, InB1, B2Tags;
    var r := Ranked(b1, b2);
    forall i | 0 <= i < |r| ensures Count(r[i].tags, tag) == RankedTimes(b1, b2, tag, r[i].code) {
      RankedTags(b1, b2, r[i]);
      OwnTagsCount(b1, b2, r[i].code, tag);
    }
  }

  /** A stock that is not ranked passed nothing. */
  lemma {:induction false} UnrankedTimes(b1: seq<B1Item>, b2: seq<B2Item>, tag: string, code: string)
    requires !Holds(Ranked(b1, b2), code)
    ensures RankedTimes(b1, b2, tag, code) == 0
  {
    RankedIs(b1, b2);
    HitsSome(b2, |b2|, code, true);
    HitsSome(b2, |b2|, code, false);
  }

  lemma {:induction false} WatchlistTagged(list: seq<Stock>, watchlist: seq<string>, tag: string,
                                           was: string -> nat, now: string -> nat)
    requires Tagged(list, tag, was) && forall c :: !Holds(list, c) ==> was(c) == 0
    requires forall c :: now(c) == if tag == WATCHLIST then Mark(was(c), c in watchlist) else was(c)
    ensures Tagged(WatchlistPass(list, watchlist), tag, now)
  {
    hide Count, Brings, Holds;
    var extras := WatchExtras(watchlist);
    WatchedBring(list, watchlist);
    InjectTags(list, extras, WATCHLIST, tag, was, now);
    SortTagged(WatchlistFirst, Inject(list, Codes(list), extras, |extras|), tag, now);
  }

  lemma {:induction false} HighScoreTagged(list: seq<Stock>, high: seq<Stock>, tag: string,
                                           was: string -> nat, now: string -> nat)
    requires Tagged(list, tag, was) && forall c :: !Holds(list, c) ==> was(c) == 0
    requires forall i :: 0 <= i < |high| ==> high[i].tags == [HIGH_SCORE]
    requires forall c :: now(c) == if tag == HIGH_SCORE then Mark(was(c), Scored(high, c)) else was(c)
    ensures Tagged(HighScorePass(list, high), tag, now)
  {
    hide Count, Brings, Holds, Scored;
    ScoredBring(list, high);
    InjectTags(list, ScoreExtras(high), HIGH_SCORE, tag, was, now);
  }

  /** In the final list every stock carries a tag exactly as often as its source named it: B1 once if it passed B1,
      each B2 tag once for every B2 pass with that verdict, the watchlist's and the scan's tag once if they name it,
      and no other tag at all. */
  lemma {:induction false} TagsTellSources(b1: seq<B1Item>, b2: seq<B2Item>, watchlist: seq<string>,
                                           high: seq<Stock>, tag: string)
    requires forall i :: 0 <= i < |high| ==> high[i].tags == [HIGH_SCORE]
    ensures Tagged(FinalList(b1, b2, watchlist, high), tag, code => Times(b1, b2, watchlist, high, tag, code))
  {
    hide Count, Holds, Ranked, WatchlistPass, HighScorePass, Tagged, Hits, InB1, Scored;
    var r := Ranked(b1, b2);
    var ranked: string -> nat := code => RankedTimes(b1, b2, tag, code);
    var watched: string -> nat :=
      code => if tag == WATCHLIST then Mark(RankedTimes(b1, b2, tag, code), code in watchlist)
              else RankedTimes(b1, b2, tag, code);
    var final: string -> nat := code => Times(b1, b2, watchlist, high, tag, code);
    TagsDiffer();
    RankedTagged(b1, b2, tag);
    WatchlistCodes(r, watchlist);
    forall c | !Holds(r, c) ensures ranked(c) == 0 { UnrankedTimes(b1, b2, tag, c); }
    WatchlistTagged(r, watchlist, tag, ranked, watched);
    HighScoreTagged(WatchlistPass(r, watchlist), high, tag, watched, final);
  }

  /** On every input the B1, watchlist and high-score tags stand at most once on a stock, and a B2 tag is doubled on
      exactly the stocks that two B2 items passed by that verdict. */
  lemma {:induction false} DoubledTags(b1: seq<B1Item>, b2: seq<B2Item>, watchlist: seq<string>, high: seq<Stock>,
                                       s: Stock)
    requires forall i :: 0 <= i < |high| ==> high[i].tags == [HIGH_SCORE]
    requires s in FinalList(b1, b2, watchlist, high)
    ensures forall tag :: tag != B2_STRICT && tag != B2_LOOSE ==> Count(s.tags, tag) <= 1
    ensures Count(s.tags, B2_STRICT) >= 2 <==> PassesTwice(b2, |b2|, s.code, true)
    ensures Count(s.tags, B2_LOOSE) >= 2 <==> PassesTwice(b2, |b2|, s.code, false)
  {
    hide Count, FinalList, InB1, Scored, Hits, PassesTwice;
    TagsDiffer();
    forall tag ensures Count(s.tags, tag) == Times(b1, b2, watchlist, high, tag, s.code) {
      TagsTellSources(b1, b2, watchlist, high, tag);
    }
    HitsTwo(b2, |b2|, s.code, true);
    HitsTwo(b2, |b2|, s.code, false);
  }

  // ----- both filters on the same bars -----

  datatype Market = Market(bars: seq<Indicators.Bar>, weekly: seq<Indicators.Bar>,
                           realtime: Wrappers.Option<Verdicts.Realtime>)

  /** The items are the verdicts of the two filters on the bars of their stocks. */
  ghost predicate SameBars(b1: seq<B1Item>, b2: seq<B2Item>, market: string -> Market) {
    && (forall i :: 0 <= i < |b1| && b1[i].Passes() ==>
          var m := market(b1[i].code); Verdicts.B1Verdict(m.bars, m.weekly, m.realtime))
    && (forall i :: 0 <= i < |b2| && b2[i].Passes() ==>
          var m := market(b2[i].code);
          (b2[i].strict ==> Verdicts.B2Strict(m.bars)) && (b2[i].loose ==> Verdicts.B2Loose(m.bars)))
  }

  lemma {:induction false} NeverInBoth(b1: seq<B1Item>, b2: seq<B2Item>, market: string -> Market, code: string)
    requires SameBars(b1, b2, market)
    ensures !(InB1(b1, |b1|, code) && InB2(b2, |b2|, code))
  {
    if InB1(b1, |b1|, code) {
      var m := market(code);
      Verdicts.NeverBoth(m.bars, m.weekly, m.realtime);
    }
  }

  lemma {:induction false} HitsInB2(b2: seq<B2Item>, code: string)
    ensures Hits(b2, |b2|, code, true) + Hits(b2, |b2|, code, false) > 0 <==> InB2(b2, |b2|, code)
  {
    HitsSome(b2, |b2|, code, true);
    HitsSome(b2, |b2|, code, false);
    if j :| 0 <= j < |b2| && b2[j].Passes() && b2[j].code == code {
      assert Hit(b2[j], code, true) || Hit(b2[j], code, false);
    }
  }

  /** When both filters saw the same bars, no stock of the final list carries both a B1 and a B2 tag. */
  lemma {:induction false} NoStockHasBoth(b1: seq<B1Item>, b2: seq<B2Item>, watchlist: seq<string>, high: seq<Stock>,
                       market: string -> Market, s: Stock)
    requires SameBars(b1, b2, market) && s in FinalList(b1, b2, watchlist, high)
    requires forall i :: 0 <= i < |high| ==> high[i].tags == [HIGH_SCORE]
    ensures !(B1 in s.tags && (B2_STRICT in s.tags || B2_LOOSE in s.tags))
  {
    hide Count, FinalList, InB1, InB2, Hits, SameBars;
    TagsDiffer();
    forall tag ensures tag in s.tags <==> Times(b1, b2, watchlist, high, tag, s.code) > 0 {
      TagsTellSources(b1, b2, watchlist, high, tag);
      CountIn(s.tags, tag);
    }
    NeverInBoth(b1, b2, market, s.code);
    HitsInB2(b2, s.code);
  }

  lemma {:induction false} OneSide(b1: seq<B1Item>, b2: seq<B2Item>, market: string -> Market, s: Stock)
    requires SameBars(b1, b2, market) && s in Ranked(b1, b2)
    ensures B1 in s.tags <==> Priority(s) == 0
  {
    hide Count, Ranked, InB1, InB2, Hits, SameBars, B2Tags;
    TagsDiffer();
    RankedTags(b1, b2, s);
    forall tag ensures tag in s.tags <==> RankedTimes(b1, b2, tag, s.code) > 0 {
      OwnTagsCount(b1, b2, s.code, tag);
      CountIn(s.tags, tag);
    }
    NeverInBoth(b1, b2, market, s.code);
    HitsInB2(b2, s.code);
    RankedIs(b1, b2);
    assert Holds(Ranked(b1, b2), s.code);
  }

  /** Then the ranked list holds all B2 stocks before all B1 stocks, these by falling score. */
  lemma {:induction false} B2BeforeB1(b1: seq<B1Item>, b2: seq<B2Item>, market: string -> Market, i: nat, j: nat)
    requires SameBars(b1, b2, market) && i < j < |Ranked(b1, b2)|
    ensures var r := Ranked(b1, b2);
            B1 in r[i].tags ==> B1 in r[j].tags && Score(r[i]) >= Score(r[j])
  {
    var r := Ranked(b1, b2);
    RankedIs(b1, b2);
    OneSide(b1, b2, market, r[i]);
    OneSide(b1, b2, market, r[j]);
    assert !Less(Key(ByPriority, r[j]), Key(ByPriority, r[i]));
  }
}
