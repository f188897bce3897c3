/** Working the watchlist and the high-score scan into the ranked list. */
module ListExtras {
  import opened MergeResults

  const HIGH_SCORE := "缠高分"

  /** What is worked into the list: a watched code, or a stock of the high-score scan. */
  datatype Extra = Watched(watched: string) | HighScore(stock: Stock) {
    function Code(): string { if Watched? then watched else stock.code }

    function Tag(): string { if Watched? then WATCHLIST else HIGH_SCORE }

    /** The entry of a code that the list does not have. */
    function Fresh(): Stock { if Watched? then Stock(watched, watched, [WATCHLIST], map[]) else stock }

    /** What happens to an entry the list has. */
    function Touch(s: Stock): Stock {
      var t := s.AddTag(Tag());
      if Watched? then t else t.(details := t.details + stock.details)
    }
  }

  function TouchAll(list: seq<Stock>, e: Extra): (out: seq<Stock>)
    ensures |out| == |list|
    ensures forall i :: 0 <= i < |list| ==> out[i] == if list[i].code == e.Code() then e.Touch(list[i]) else list[i]
  {
    seq(|list|, i requires 0 <= i < |list| => if list[i].code == e.Code() then e.Touch(list[i]) else list[i])
  }

  /** The list after the first `n` extras; the known codes are fixed before the first. */
  function Inject(list: seq<Stock>, known: set<string>, extras: seq<Extra>, n: nat): seq<Stock>
    requires n <= |extras|
  {
    if n == 0 then list
    else
      var out, e := Inject(list, known, extras, n - 1), extras[n - 1];
      if e.Code() in known then TouchAll(out, e) else out + [e.Fresh()]
  }

  function Codes(list: seq<Stock>): (known: set<string>)
    ensures forall c :: c in known <==> Holds(list, c)
  {
    var known := set i | 0 <= i < |list| :: list[i].code;
    assert forall c :: c in known <==> exists i :: 0 <= i < |list| && list[i].code == c;
    known
  }

  /** A stock after all the extras of its code among the first `n`. */
  function Touched(s: Stock, extras: seq<Extra>, n: nat): (t: Stock)
    requires n <= |extras|
    ensures t.code == s.code
  {
    if n == 0 then s
    else
      var t := Touched(s, extras, n - 1);
      if extras[n - 1].Code() == s.code then extras[n - 1].Touch(t) else t
  }

  function TouchedAll(list: seq<Stock>, extras: seq<Extra>, n: nat): (out: seq<Stock>)
    requires n <= |extras|
    ensures |out| == |list| && forall i :: 0 <= i < |list| ==> out[i] == Touched(list[i], extras, n)
  {
    seq(|list|, i requires 0 <= i < |list| => Touched(list[i], extras, n))
  }

  /** The new entries that the first `n` extras bring. */
  function NewEntries(known: set<string>, extras: seq<Extra>, n: nat): seq<Stock>
    requires n <= |extras|
  {
    if n == 0 then []
    else
      NewEntries(known, extras, n - 1)
      + if extras[n - 1].Code() in known then [] else [extras[n - 1].Fresh()]
  }

  ghost predicate Brings(extras: seq<Extra>, n: nat, code: string)
    requires n <= |extras|
  {
    exists j :: 0 <= j < n && extras[j].Code() == code
  }

  lemma {:induction false} BringsStep(extras: seq<Extra>, n: nat, code: string)
    requires 0 < n <= |extras|
    ensures Brings(extras, n, code) <==> Brings(extras, n - 1, code) || extras[n - 1].Code() == code
  {
  }

  lemma {:induction false} NewEntriesStep(known: set<string>, extras: seq<Extra>, n: nat)
    requires 0 < n <= |extras|
    ensures NewEntries(known, extras, n)
            == if extras[n - 1].Code() in known then NewEntries(known, extras, n - 1)
               else NewEntries(known, extras, n - 1) + [extras[n - 1].Fresh()]
  {
  }

  lemma {:induction false} NewEntriesAreNew(known: set<string>, extras: seq<Extra>, n: nat)
    requires n <= |extras|
    ensures forall i :: 0 <= i < |NewEntries(known, extras, n)| ==> NewEntries(known, extras, n)[i].code !in known
    ensures forall c :: Holds(NewEntries(known, extras, n), c) <==> c !in known && Brings(extras, n, c)
  {
    if n > 0 {
      hide NewEntries, Holds, Brings;
      NewEntriesAreNew(known, extras, n - 1);
      NewEntriesStep(known, extras, n);
      var was, e := NewEntries(known, extras, n - 1), extras[n - 1];
      forall c ensures Holds(NewEntries(known, extras, n), c) <==> c !in known && Brings(extras, n, c) {
        BringsStep(extras, n, c);
        HoldsAppend(was, [e.Fresh()], c);
        SingleHolds(e.Fresh(), c);
      }
    }
  }

  /** Injection touches the stocks that were there and puts the new entries behind them. */
  lemma {:induction false} InjectIs(list: seq<Stock>, extras: seq<Extra>, n: nat)
    requires n <= |extras|
    ensures Inject(list, Codes(list), extras, n)
            == TouchedAll(list, extras, n) + NewEntries(Codes(list), extras, n)
  {
    var known := Codes(list);
    if n == 0 {
      assert TouchedAll(list, extras, 0) == list;
    } else {
      InjectIs(list, extras, n - 1);
      NewEntriesAreNew(known, extras, n - 1);
      InjectStep(TouchedAll(list, extras, n - 1), NewEntries(known, extras, n - 1), TouchedAll(list, extras, n),
                 known, list, extras, n);
    }
  }

  lemma {:induction false} InjectStep(was: seq<Stock>, added: seq<Stock>, now: seq<Stock>, known: set<string>,
                                      list: seq<Stock>, extras: seq<Extra>, n: nat)
    requires 0 < n <= |extras| && known == Codes(list)
    requires was == TouchedAll(list, extras, n - 1) && now == TouchedAll(list, extras, n)
    requires forall i :: 0 <= i < |added| ==> added[i].code !in known
    ensures var e := extras[n - 1];
            (if e.Code() in known then TouchAll(was + added, e) else was + added + [e.Fresh()])
            == now + (added + if e.Code() in known then [] else [e.Fresh()])
  {
  }

  /** No two of the first `n` extras have the same unknown code. */
  ghost predicate NewOnce(known: set<string>, extras: seq<Extra>, n: nat)
    requires n <= |extras|
  {
    forall i, j :: 0 <= i < j < n && extras[i].Code() == extras[j].Code() ==> extras[i].Code() in known
  }

  lemma {:induction false} NewOnceStep(known: set<string>, extras: seq<Extra>, n: nat)
    requires 0 < n <= |extras|
    ensures NewOnce(known, extras, n)
            <==> NewOnce(known, extras, n - 1)
                 && (extras[n - 1].Code() in known || !Brings(extras, n - 1, extras[n - 1].Code()))
  {
  }

  lemma {:induction false} OneMoreDistinct(known: set<string>, extras: seq<Extra>, n: nat)
    requires 0 < n <= |extras| && extras[n - 1].Code() !in known
    ensures Distinct(NewEntries(known, extras, n))
            <==> Distinct(NewEntries(known, extras, n - 1)) && !Brings(extras, n - 1, extras[n - 1].Code())
  {
    hide NewEntries, Distinct, Holds, Brings;
    NewEntriesAreNew(known, extras, n - 1);
    NewEntriesStep(known, extras, n);
    DistinctSnoc(NewEntries(known, extras, n - 1), extras[n - 1].Fresh());
  }

  lemma {:induction false} NoMoreDistinct(known: set<string>, extras: seq<Extra>, n: nat)
    requires 0 < n <= |extras| && extras[n - 1].Code() in known
    ensures NewEntries(known, extras, n) == NewEntries(known, extras, n - 1)
  {
    hide NewEntries;
    NewEntriesStep(known, extras, n);
  }

  lemma {:induction false} NewEntriesDistinct(known: set<string>, extras: seq<Extra>, n: nat)
    requires n <= |extras|
    ensures Distinct(NewEntries(known, extras, n)) <==> NewOnce(known, extras, n)
  {
    if n > 0 {
      hide NewEntries, Distinct, Brings, NewOnce, Extra.Code;
      NewEntriesDistinct(known, extras, n - 1);
      NewOnceStep(known, extras, n);
      if extras[n - 1].Code() in known {
        NoMoreDistinct(known, extras, n);
      } else {
        OneMoreDistinct(known, extras, n);
      }
    }
  }

  /** The known codes are not updated while extras come in, so the list keeps distinct codes exactly when no two
      extras share a code that it did not have; it ends up with its own codes and theirs. */
  lemma {:induction false} InjectCodes(list: seq<Stock>, extras: seq<Extra>)
    ensures var out := Inject(list, Codes(list), extras, |extras|);
            && (Distinct(out) <==> Distinct(list) && NewOnce(Codes(list), extras, |extras|))
            && forall c :: Holds(out, c) <==> Holds(list, c) || Brings(extras, |extras|, c)
  {
    var n, known := |extras|, Codes(list);
    var front, back := TouchedAll(list, extras, n), NewEntries(known, extras, n);
    InjectIs(list, extras, n);
    NewEntriesAreNew(known, extras, n);
    NewEntriesDistinct(known, extras, n);
    DistinctAppend(front, back);
    SameCodes(front, list);
    forall c ensures Holds(front + back, c) <==> Holds(list, c) || Brings(extras, n, c) {
      HoldsAppend(front, back, c);
    }
  }

  lemma {:induction false} SameCodes(s: seq<Stock>, t: seq<Stock>)
    requires |s| == |t| && forall i :: 0 <= i < |s| ==> s[i].code == t[i].code
    ensures Distinct(s) <==> Distinct(t)
    ensures forall c :: Holds(s, c) <==> Holds(t, c)
  {
  }

  // ----- how often a stock carries a tag -----

  function Count(tags: seq<string>, tag: string): nat {
    if tags == [] then 0 else Count(tags[..|tags| - 1], tag) + if tags[|tags| - 1] == tag then 1 else 0
  }

  lemma {:induction false} CountSnoc(tags: seq<string>, last: string, tag: string)
    ensures Count(tags + [last], tag) == Count(tags, tag) + if last == tag then 1 else 0
  {
    assert (tags + [last])[..|tags|] == tags;
  }

  lemma {:induction false} CountAppend(s: seq<string>, t: seq<string>, tag: string)
    ensures Count(s + t, tag) == Count(s, tag) + Count(t, tag)
  {
    if t == [] {
      assert s + t == s;
    } else {
      var front, last := t[..|t| - 1], t[|t| - 1];
      CountAppend(s, front, tag);
      CountSnoc(s + front, last, tag);
      assert s + t == s + front + [last];
    }
  }

  lemma {:induction false} CountOne(last: string, tag: string)
    ensures Count([last], tag) == if last == tag then 1 else 0
  {
    CountSnoc([], last, tag);
    assert [] + [last] == [last];
  }

  lemma {:induction false} CountIn(tags: seq<string>, tag: string)
    ensures tag in tags <==> Count(tags, tag) > 0
  {
    if tags != [] {
      CountIn(tags[..|tags| - 1], tag);
      assert tags == tags[..|tags| - 1] + [tags[|tags| - 1]];
    }
  }

  /** What becomes of the count of a tag that is added only where it is missing. */
  function Mark(count: nat, added: bool): nat { if added && count == 0 then 1 else count }

  lemma {:induction false} AddTagCount(s: Stock, own: string, tag: string)
    ensures Count(s.AddTag(own).tags, tag) == if tag == own then Mark(Count(s.tags, tag), true) else Count(s.tags, tag)
  {
    hide Count;
    CountIn(s.tags, own);
    CountSnoc(s.tags, own, tag);
  }

  lemma {:induction false} TouchedCount(s: Stock, extras: seq<Extra>, n: nat, own: string, tag: string)
    requires n <= |extras| && forall j :: 0 <= j < |extras| ==> extras[j].Tag() == own
    ensures Count(Touched(s, extras, n).tags, tag)
            == if tag == own then Mark(Count(s.tags, tag), Brings(extras, n, s.code)) else Count(s.tags, tag)
  {
    if n > 0 {
      hide Count, Brings, Extra.Code, Extra.Tag;
      TouchedCount(s, extras, n - 1, own, tag);
      BringsStep(extras, n, s.code);
      AddTagCount(Touched(s, extras, n - 1), own, tag);
    }
  }

  /** The extras all carry their own tag and nothing else. */
  ghost predicate Plain(extras: seq<Extra>, own: string) {
    forall j :: 0 <= j < |extras| ==> extras[j].Tag() == own && extras[j].Fresh().tags == [own]
  }

  lemma {:induction false} NewEntriesTags(known: set<string>, extras: seq<Extra>, n: nat, own: string)
    requires n <= |extras| && Plain(extras, own)
    ensures forall i :: 0 <= i < |NewEntries(known, extras, n)| ==> NewEntries(known, extras, n)[i].tags == [own]
  {
    if n > 0 { NewEntriesTags(known, extras, n - 1, own); }
  }

  /** Every stock carries the tag as often as its code says. */
  ghost predicate Tagged(list: seq<Stock>, tag: string, times: string -> nat) {
    forall i :: 0 <= i < |list| ==> Count(list[i].tags, tag) == times(list[i].code)
  }

  lemma {:induction false} FrontTagged(list: seq<Stock>, extras: seq<Extra>, own: string, tag: string,
                                       was: string -> nat, now: string -> nat)
    requires Plain(extras, own) && Tagged(list, tag, was)
    requires forall c :: now(c) == if tag == own then Mark(was(c), Brings(extras, |extras|, c)) else was(c)
    ensures Tagged(TouchedAll(list, extras, |extras|), tag, now)
  {
    hide Count, Brings;
    forall i | 0 <= i < |list| ensures Count(TouchedAll(list, extras, |extras|)[i].tags, tag) == now(list[i].code) {
      TouchedCount(list[i], extras, |extras|, own, tag);
    }
  }

  lemma {:induction false} BackTagged(list: seq<Stock>, extras: seq<Extra>, own: string, tag: string,
                                      was: string -> nat, now: string -> nat)
    requires Plain(extras, own) && forall c :: !Holds(list, c) ==> was(c) == 0
    requires forall c :: now(c) == if tag == own then Mark(was(c), Brings(extras, |extras|, c)) else was(c)
    ensures Tagged(NewEntries(Codes(list), extras, |extras|), tag, now)
  {
    hide Count, Brings, NewEntries;
    var back := NewEntries(Codes(list), extras, |extras|);
    NewEntriesAreNew(Codes(list), extras, |extras|);
    NewEntriesTags(Codes(list), extras, |extras|, own);
    CountOne(own, tag);
    forall i | 0 <= i < |back| ensures Count(back[i].tags, tag) == now(back[i].code) {
      assert Holds(back, back[i].code);
    }
  }

  /** An injection puts its own tag once on every stock the extras name and has it missing, and leaves the count of
      every other tag as it was. */
  lemma {:induction false} InjectTags(list: seq<Stock>, extras: seq<Extra>, own: string, tag: string,
                                      was: string -> nat, now: string -> nat)
    requires Plain(extras, own) && Tagged(list, tag, was) && forall c :: !Holds(list, c) ==> was(c) == 0
    requires forall c :: now(c) == if tag == own then Mark(was(c), Brings(extras, |extras|, c)) else was(c)
    ensures Tagged(Inject(list, Codes(list), extras, |extras|), tag, now)
  {
    hide Count, Brings, NewEntries, Inject, Holds;
    InjectIs(list, extras, |extras|);
    FrontTagged(list, extras, own, tag, was, now);
    BackTagged(list, extras, own, tag, was, now);
  }

  lemma {:induction false} SortTagged(ord: Order, s: seq<Stock>, tag: string, times: string -> nat)
    requires Tagged(s, tag, times)
    ensures Tagged(StableSort(ord, s), tag, times)
  {
    hide Count;
    var t := StableSort(ord, s);
    forall i | 0 <= i < |t| ensures Count(t[i].tags, tag) == times(t[i].code) {
      assert t[i] in t;
      SortMembers(ord, s, t[i]);
      var j :| 0 <= j < |s| && s[j] == t[i];
    }
  }

  // ----- the watchlist pass -----

  function WatchExtras(watchlist: seq<string>): (extras: seq<Extra>)
    ensures |extras| == |watchlist| && forall i :: 0 <= i < |extras| ==> extras[i] == Watched(watchlist[i])
  {
    seq(|watchlist|, i requires 0 <= i < |watchlist| => Watched(watchlist[i]))
  }

  function WatchlistPass(list: seq<Stock>, watchlist: seq<string>): seq<Stock> {
    if watchlist == [] then list
    else StableSort(WatchlistFirst, Inject(list, Codes(list), WatchExtras(watchlist), |watchlist|))
  }

  lemma {:induction false} NoneOfKey(ord: Order, s: seq<Stock>, k: (int, int))
    requires forall i :: 0 <= i < |s| ==> Key(ord, s[i]) != k
    ensures OfKey(ord, s, k) == []
  {
    if s != [] { NoneOfKey(ord, s[..|s| - 1], k); }
  }

  lemma {:induction false} TwoClasses(s: seq<Stock>)
    requires Ordered(WatchlistFirst, s)
    ensures s == OfKey(WatchlistFirst, s, (0, 0)) + OfKey(WatchlistFirst, s, (1, 0))
  {
    if s != [] {
      var front, last := s[..|s| - 1], s[|s| - 1];
      assert s == front + [last];
      TwoClasses(front);
      if Key(WatchlistFirst, last) == (0, 0) {
        forall i | 0 <= i < |front| ensures Key(WatchlistFirst, front[i]) != (1, 0) {
          assert !Less(Key(WatchlistFirst, s[|s| - 1]), Key(WatchlistFirst, s[i]));
        }
        NoneOfKey(WatchlistFirst, front, (1, 0));
      }
    }
  }

  /** The sort brings the watched stocks forward and keeps the order among them and among the others. */
  lemma {:induction false} WatchedComeFirst(s: seq<Stock>)
    ensures StableSort(WatchlistFirst, s) == OfKey(WatchlistFirst, s, (0, 0)) + OfKey(WatchlistFirst, s, (1, 0))
  {
    SortIs(WatchlistFirst, s);
    TwoClasses(StableSort(WatchlistFirst, s));
  }

  // ----- the loops -----

  /** The inner loop over the stocks of the list. */
  method TouchEach(list: seq<Stock>, e: Extra) returns (out: seq<Stock>)
    ensures out == TouchAll(list, e)
  {
    out := list;
    var i := 0;
    while i < |out|
      invariant 0 <= i <= |out| == |list|
      invariant forall j :: 0 <= j < i ==> out[j] == TouchAll(list, e)[j]
      invariant forall j :: i <= j < |list| ==> out[j] == list[j]
    {
      if out[i].code == e.Code() { out := out[i := e.Touch(out[i])]; }
      i := i + 1;
    }
  }

  method InjectEach(list: seq<Stock>, extras: seq<Extra>) returns (out: seq<Stock>)
    ensures out == Inject(list, Codes(list), extras, |extras|)
  {
    out := list;
    var known := Codes(list);
    var i := 0;
    while i < |extras|
      invariant 0 <= i <= |extras| && out == Inject(list, known, extras, i)
    {
      if extras[i].Code() in known {
        out := TouchEach(out, extras[i]);
      } else {
        out := out + [extras[i].Fresh()];
      }
      i := i + 1;
    }
  }

  method InjectWatchlist(list: seq<Stock>, watchlist: seq<string>) returns (out: seq<Stock>)
    ensures out == WatchlistPass(list, watchlist)
  {
    out := InjectEach(list, WatchExtras(watchlist));
    if watchlist != [] {
      out := StableSort(WatchlistFirst, out);
    } else {
      assert out == Inject(list, Codes(list), WatchExtras(watchlist), 0);
    }
  }

  method MergeHighScores(list: seq<Stock>, high: seq<Stock>) returns (out: seq<Stock>)
    ensures out == HighScorePass(list, high)
  {
    out := InjectEach(list, ScoreExtras(high));
  }

  // ----- the list the analysis starts from -----

  function ScoreExtras(high: seq<Stock>): (extras: seq<Extra>)
    ensures |extras| == |high| && forall i :: 0 <= i < |extras| ==> extras[i] == HighScore(high[i])
  {
    seq(|high|, i requires 0 <= i < |high| => HighScore(high[i]))
  }

  function HighScorePass(list: seq<Stock>, high: seq<Stock>): seq<Stock> {
    Inject(list, Codes(list), ScoreExtras(high), |high|)
  }

  function FinalList(b1: seq<B1Item>, b2: seq<B2Item>, watchlist: seq<string>, high: seq<Stock>): seq<Stock> {
    HighScorePass(WatchlistPass(Ranked(b1, b2), watchlist), high)
  }

  predicate Passed(b1: seq<B1Item>, b2: seq<B2Item>, code: string) {
    InB1(b1, |b1|, code) || InB2(b2, |b2|, code)
  }

  predicate Scored(high: seq<Stock>, code: string) { exists i :: 0 <= i < |high| && high[i].code == code }

  /** A watched code may come twice only if the list has it. */
  ghost predicate DoublesWatched(list: seq<Stock>, watchlist: seq<string>) {
    forall i, j :: 0 <= i < j < |watchlist| && watchlist[i] == watchlist[j] ==> Holds(list, watchlist[i])
  }

  ghost predicate DoublesScored(list: seq<Stock>, high: seq<Stock>) {
    forall i, j :: 0 <= i < j < |high| && high[i].code == high[j].code ==> Holds(list, high[i].code)
  }

  lemma {:induction false} WatchlistCodes(list: seq<Stock>, watchlist: seq<string>)
    ensures var out := WatchlistPass(list, watchlist);
            && (Distinct(out) <==> Distinct(list) && DoublesWatched(list, watchlist))
            && forall c :: Holds(out, c) <==> Holds(list, c) || c in watchlist
  {
    var extras := WatchExtras(watchlist);
    InjectCodes(list, extras);
    SortCodes(WatchlistFirst, Inject(list, Codes(list), extras, |extras|));
    WatchedBring(list, watchlist);
  }

  lemma {:induction false} WatchedBring(list: seq<Stock>, watchlist: seq<string>)
    ensures var extras := WatchExtras(watchlist);
            && (forall c :: c in watchlist <==> Brings(extras, |extras|, c))
            && (NewOnce(Codes(list), extras, |extras|) <==> DoublesWatched(list, watchlist))
  {
  }

  lemma {:induction false} HighScoreCodes(list: seq<Stock>, high: seq<Stock>)
    ensures var out := HighScorePass(list, high);
            && (Distinct(out) <==> Distinct(list) && DoublesScored(list, high))
            && forall c :: Holds(out, c) <==> Holds(list, c) || Scored(high, c)
  {
    InjectCodes(list, ScoreExtras(high));
    ScoredBring(list, high);
  }

  lemma {:induction false} ScoredBring(list: seq<Stock>, high: seq<Stock>)
    ensures var extras := ScoreExtras(high);
            && (forall c :: Scored(high, c) <==> Brings(extras, |extras|, c))
            && (NewOnce(Codes(list), extras, |extras|) <==> DoublesScored(list, high))
  {
  }

  /** A watched code may come twice only if its stock passed a filter, a scored one only if it did or is watched. */
  ghost predicate DoublesAreKnown(b1: seq<B1Item>, b2: seq<B2Item>, watchlist: seq<string>, high: seq<Stock>) {
    && (forall i, j :: 0 <= i < j < |watchlist| && watchlist[i] == watchlist[j] ==> Passed(b1, b2, watchlist[i]))
    && (forall i, j :: 0 <= i < j < |high| && high[i].code == high[j].code
          ==> Passed(b1, b2, high[i].code) || high[i].code in watchlist)
  }

  /** The final list has exactly the codes of its four sources, and no code twice exactly when no source names
      an unknown code twice. */
  lemma {:induction false} FinalCodes(b1: seq<B1Item>, b2: seq<B2Item>, watchlist: seq<string>, high: seq<Stock>)
    ensures var out := FinalList(b1, b2, watchlist, high);
            && (forall c :: Holds(out, c) <==> Passed(b1, b2, c) || c in watchlist || Scored(high, c))
            && (Distinct(out) <==> DoublesAreKnown(b1, b2, watchlist, high))
  {
    RankedIs(b1, b2);
    WatchlistCodes(Ranked(b1, b2), watchlist);
    HighScoreCodes(WatchlistPass(Ranked(b1, b2), watchlist), high);
  }

  /** A stock that passed nothing and stands twice in the watchlist is analysed twice. */
  lemma {:induction false} DoubleWatchIsDoubled(code: string)
    ensures !Distinct(FinalList([], [], [code, code], []))
  {
    FinalCodes([], [], [code, code], []);
    var watchlist := [code, code];
    assert watchlist[0] == watchlist[1] && !Passed([], [], watchlist[0]);
  }
}
