/** The ranked list and the lists behind it, told by tags, verdicts and positions, without the sort key. */
module ListLaws {
  import opened MergeResults
  import opened ListExtras
  import opened ListTags

  // ----- a stable sort keeps the order of equal keys -----

  /** How many stocks with the key stand before position `p`. */
  function RankAt(ord: Order, s: seq<Stock>, p: nat, k: (int, int)): nat
    requires p <= |s|
  {
    |OfKey(ord, s[..p], k)|
  }

  lemma {:induction false} RankNext(ord: Order, s: seq<Stock>, p: nat, k: (int, int))
    requires p < |s|
    ensures RankAt(ord, s, p + 1, k) == RankAt(ord, s, p, k) + if Key(ord, s[p]) == k then 1 else 0
  {
    assert s[..p + 1] == s[..p] + [s[p]];
    OfKeySnoc(ord, s[..p], s[p], k);
  }

  lemma {:induction false} RankGrows(ord: Order, s: seq<Stock>, p: nat, q: nat, k: (int, int))
    requires p <= q <= |s|
    ensures RankAt(ord, s, p, k) <= RankAt(ord, s, q, k)
    decreases q
  {
    if p < q {
      RankGrows(ord, s, p, q - 1, k);
      RankNext(ord, s, q - 1, k);
    }
  }

  lemma {:induction false} OfKeyAt(ord: Order, s: seq<Stock>, p: nat, q: nat)
    requires p < q <= |s|
    ensures var k := Key(ord, s[p]);
            RankAt(ord, s, p, k) < |OfKey(ord, s[..q], k)| && OfKey(ord, s[..q], k)[RankAt(ord, s, p, k)] == s[p]
    decreases q
  {
    var k := Key(ord, s[p]);
    assert s[..q] == s[..q - 1] + [s[q - 1]];
    OfKeySnoc(ord, s[..q - 1], s[q - 1], k);
    if p < q - 1 { OfKeyAt(ord, s, p, q - 1); }
  }

  /** The position of the `r`-th stock with the key. */
  lemma {:induction false} FindOfKey(ord: Order, s: seq<Stock>, q: nat, k: (int, int), r: nat) returns (p: nat)
    requires q <= |s| && r < |OfKey(ord, s[..q], k)|
    ensures p < q && s[p] == OfKey(ord, s[..q], k)[r] && RankAt(ord, s, p, k) == r
    decreases q
  {
    assert s[..q] == s[..q - 1] + [s[q - 1]];
    OfKeySnoc(ord, s[..q - 1], s[q - 1], k);
    if r < |OfKey(ord, s[..q - 1], k)| { p := FindOfKey(ord, s, q - 1, k, r); } else { p := q - 1; }
  }

  /** Stocks of equal key stand in the sorted list in the order in which they came. */
  lemma {:induction false} SortKeepsOrder(ord: Order, s: seq<Stock>, i: nat, j: nat) returns (a: nat, b: nat)
    requires i < j < |StableSort(ord, s)| && Key(ord, StableSort(ord, s)[i]) == Key(ord, StableSort(ord, s)[j])
    ensures a < b < |s| && s[a] == StableSort(ord, s)[i] && s[b] == StableSort(ord, s)[j]
  {
    hide Key, StableSort, OfKey;
    var t := StableSort(ord, s);
    var k := Key(ord, t[i]);
    SortIs(ord, s);
    assert s[..|s|] == s && t[..|t|] == t;
    OfKeyAt(ord, t, i, |t|);
    OfKeyAt(ord, t, j, |t|);
    RankNext(ord, t, i, k);
    RankGrows(ord, t, i + 1, j, k);
    a := FindOfKey(ord, s, |s|, k, RankAt(ord, t, i, k));
    b := FindOfKey(ord, s, |s|, k, RankAt(ord, t, j, k));
    if b <= a { RankGrows(ord, s, b, a, k); }
  }

  // ----- the ranking, by tags -----

  predicate StrictOnly(s: Stock) { B2_STRICT in s.tags && B2_LOOSE !in s.tags }

  predicate StrictAndLoose(s: Stock) { B2_STRICT in s.tags && B2_LOOSE in s.tags }

  predicate LooseOnly(s: Stock) { B2_STRICT !in s.tags && B2_LOOSE in s.tags }

  predicate NoB2(s: Stock) { B2_STRICT !in s.tags && B2_LOOSE !in s.tags }

  predicate SameB2(s: Stock, t: Stock) {
    (B2_STRICT in s.tags <==> B2_STRICT in t.tags) && (B2_LOOSE in s.tags <==> B2_LOOSE in t.tags)
  }

  /** The score that counts: that of B1, and 0 without one. */
  predicate CountsAs(s: Stock, score: int) {
    score == if B1 in s.tags && SCORE in s.details then s.details[SCORE] else 0
  }

  /** The earlier stock is of no worse class, and in its class of no smaller score. */
  ghost predicate RankedBefore(s: Stock, t: Stock) {
    && (StrictOnly(t) ==> StrictOnly(s))
    && (StrictAndLoose(t) ==> StrictOnly(s) || StrictAndLoose(s))
    && (LooseOnly(t) ==> !NoB2(s))
    && (SameB2(s, t) ==> forall x, y :: CountsAs(s, x) && CountsAs(t, y) ==> x >= y)
  }

  /** Nothing more than the order of arrival separates the two. */
  ghost predicate Tied(s: Stock, t: Stock) {
    SameB2(s, t) && forall x, y :: CountsAs(s, x) && CountsAs(t, y) ==> x == y
  }

  lemma {:induction false} KeyOrder(s: Stock, t: Stock)
    requires !Less(Key(ByPriority, t), Key(ByPriority, s))
    ensures RankedBefore(s, t)
  {
    assert CountsAs(s, Score(s)) && CountsAs(t, Score(t));
  }

  lemma {:induction false} TiedKeys(s: Stock, t: Stock)
    requires Tied(s, t)
    ensures Key(ByPriority, s) == Key(ByPriority, t)
  {
    assert CountsAs(s, Score(s)) && CountsAs(t, Score(t));
  }

  /** Stock `s` stands before stock `t` in the dictionary of merged stocks. */
  ghost predicate CameBefore(keys: seq<string>, s: Stock, t: Stock) {
    exists a, b :: 0 <= a < b < |keys| && keys[a] == s.code && keys[b] == t.code
  }

  /** The ranked list has the strict-only stocks first, then those with both B2 tags, then the loose-only ones,
      then those without a B2 tag; in a class by falling B1 score; and what is equal in both in the order of the
      dictionary. */
  lemma {:induction false} RankedByTags(b1: seq<B1Item>, b2: seq<B2Item>, i: nat, j: nat)
    requires i < j < |Ranked(b1, b2)|
    ensures var s, t := Ranked(b1, b2)[i], Ranked(b1, b2)[j];
            RankedBefore(s, t) && (Tied(s, t) ==> CameBefore(Merged(b1, b2).keys, s, t))
  {
    hide Key, Less, Tied, RankedBefore, StableSort, Merged;
    var s, t, d := Ranked(b1, b2)[i], Ranked(b1, b2)[j], Merged(b1, b2);
    RankedIs(b1, b2);
    KeyOrder(s, t);
    if Tied(s, t) {
      TiedKeys(s, t);
      var a, b := SortKeepsOrder(ByPriority, d.Values(), i, j);
      assert d.Values()[a] == d.at[d.keys[a]] && d.Values()[b] == d.at[d.keys[b]];
      assert d.keys[a] in d.keys && d.keys[b] in d.keys;
    }
  }

  // ----- the ranking, by the verdicts of the items -----

  /** Some B2 item passed the stock by this verdict. */
  ghost predicate PassedB2(b2: seq<B2Item>, code: string, strict: bool) {
    exists j :: 0 <= j < |b2| && Hit(b2[j], code, strict)
  }

  lemma {:induction false} TagsAreVerdicts(b1: seq<B1Item>, b2: seq<B2Item>, s: Stock)
    requires s in Ranked(b1, b2)
    ensures B2_STRICT in s.tags <==> PassedB2(b2, s.code, true)
    ensures B2_LOOSE in s.tags <==> PassedB2(b2, s.code, false)
    ensures B1 in s.tags <==> InB1(b1, |b1|, s.code)
  {
    hide Ranked, Count, InB1, Hits;
    TagsDiffer();
    RankedTags(b1, b2, s);
    forall tag ensures tag in s.tags <==> RankedTimes(b1, b2, tag, s.code) > 0 {
      OwnTagsCount(b1, b2, s.code, tag);
      CountIn(s.tags, tag);
    }
    HitsSome(b2, |b2|, s.code, true);
    HitsSome(b2, |b2|, s.code, false);
  }

  /** The same on the verdicts: who passed only strict, who passed both ways, who passed only loose, who passed
      only B1. */
  lemma {:induction false} RankedByVerdicts(b1: seq<B1Item>, b2: seq<B2Item>, i: nat, j: nat)
    requires i < j < |Ranked(b1, b2)|
    ensures var c, e := Ranked(b1, b2)[i].code, Ranked(b1, b2)[j].code;
            && (PassedB2(b2, e, true) ==> PassedB2(b2, c, true))
            && (PassedB2(b2, e, true) && !PassedB2(b2, e, false) ==> !PassedB2(b2, c, false))
            && (PassedB2(b2, e, false) ==> PassedB2(b2, c, true) || PassedB2(b2, c, false))
  {
    hide Ranked, PassedB2, Tied, CameBefore;
    TagsAreVerdicts(b1, b2, Ranked(b1, b2)[i]);
    TagsAreVerdicts(b1, b2, Ranked(b1, b2)[j]);
    RankedByTags(b1, b2, i, j);
  }

  // ----- the order of the dictionary -----

  function PassingB1(b1: seq<B1Item>, n: nat): seq<string>
    requires n <= |b1|
  {
    if n == 0 then [] else PassingB1(b1, n - 1) + if b1[n - 1].Passes() then [b1[n - 1].code] else []
  }

  function PassingB2(b2: seq<B2Item>, n: nat): seq<string>
    requires n <= |b2|
  {
    if n == 0 then [] else PassingB2(b2, n - 1) + if b2[n - 1].Passes() then [b2[n - 1].code] else []
  }

  /** Every code once, where it first comes. */
  function Firsts(codes: seq<string>): seq<string> {
    if codes == [] then []
    else
      var f, c := Firsts(codes[..|codes| - 1]), codes[|codes| - 1];
      if c in f then f else f + [c]
  }

  lemma {:induction false} FirstsSnoc(codes: seq<string>, c: string)
    ensures Firsts(codes + [c]) == if c in Firsts(codes) then Firsts(codes) else Firsts(codes) + [c]
  {
    assert (codes + [c])[..|codes|] == codes;
  }

  lemma {:induction false} FirstsMembers(codes: seq<string>, c: string)
    ensures c in Firsts(codes) <==> c in codes
  {
    if codes != [] {
      var front, last := codes[..|codes| - 1], codes[|codes| - 1];
      assert codes == front + [last];
      FirstsMembers(front, c);
      FirstsMembers(front, last);
    }
  }

  lemma {:induction false} InFront(front: seq<string>, n: nat, c: string)
    requires n <= |front|
    ensures c in front[..n] ==> c in front
  {
  }

  /** What stands earlier in `Firsts` comes before the other's first occurrence. */
  lemma {:induction false} FirstsOrder(codes: seq<string>, a: nat, b: nat)
    requires a < b < |Firsts(codes)|
    ensures exists p :: 0 <= p < |codes| && codes[p] == Firsts(codes)[a] && Firsts(codes)[b] !in codes[..p + 1]
  {
    var front, last := codes[..|codes| - 1], codes[|codes| - 1];
    var f := Firsts(front);
    assert codes == front + [last] && Firsts(codes) == if last in f then f else f + [last];
    FirstsMembers(front, Firsts(codes)[a]);
    FirstsMembers(front, last);
    if b < |f| {
      FirstsOrder(front, a, b);
      var p :| 0 <= p < |front| && front[p] == f[a] && f[b] !in front[..p + 1];
      assert codes[p] == front[p] && codes[..p + 1] == front[..p + 1];
    } else {
      var p :| 0 <= p < |front| && front[p] == f[a];
      assert codes[p] == f[a] && codes[..p + 1] == front[..p + 1];
      InFront(front, p + 1, last);
    }
  }

  lemma {:induction false} AddB1Keys(d: Dict, item: B1Item)
    requires d.Valid()
    ensures AddB1(d, item).keys == d.keys + if item.Passes() && item.code !in d.keys then [item.code] else []
  {
    assert d.keys + [] == d.keys;
  }

  lemma {:induction false} AddB2Keys(d: Dict, item: B2Item)
    requires d.Valid()
    ensures AddB2(d, item).keys == d.keys + if item.Passes() && item.code !in d.keys then [item.code] else []
  {
    assert d.keys + [] == d.keys;
  }

  lemma {:induction false} FromB1Keys(b1: seq<B1Item>, n: nat)
    requires n <= |b1|
    ensures FromB1(b1, n).keys == Firsts(PassingB1(b1, n))
  {
    if n > 0 {
      hide Firsts, AddB1, Dict.Valid;
      FromB1Keys(b1, n - 1);
      FromB1Valid(b1, n - 1);
      AddB1Keys(FromB1(b1, n - 1), b1[n - 1]);
      FirstsSnoc(PassingB1(b1, n - 1), b1[n - 1].code);
      assert PassingB1(b1, n - 1) + [] == PassingB1(b1, n - 1);
    }
  }

  lemma {:induction false} OneMoreCode(codes: seq<string>, more: seq<string>, c: string)
    ensures codes + (more + [c]) == codes + more + [c] && more + [] == more
  {
  }

  lemma {:induction false} WithB2Keys(d: Dict, codes: seq<string>, b2: seq<B2Item>, n: nat)
    requires n <= |b2| && d.Valid() && d.keys == Firsts(codes)
    ensures WithB2(d, b2, n).keys == Firsts(codes + PassingB2(b2, n))
  {
    hide Firsts, AddB2, Dict.Valid, B2Item.Passes;
    if n == 0 {
      assert codes + [] == codes;
    } else {
      var before, was := PassingB2(b2, n - 1), WithB2(d, b2, n - 1);
      WithB2Keys(d, codes, b2, n - 1);
      WithB2Valid(d, b2, n - 1);
      AddB2Keys(was, b2[n - 1]);
      OneMoreCode(codes, before, b2[n - 1].code);
      FirstsSnoc(codes + before, b2[n - 1].code);
      assert was.keys + [] == was.keys;
    }
  }

  /** The dictionary has the codes in the order in which they first pass, B1 before B2. */
  lemma {:induction false} DictionaryOrder(b1: seq<B1Item>, b2: seq<B2Item>)
    ensures Merged(b1, b2).keys == Firsts(PassingB1(b1, |b1|) + PassingB2(b2, |b2|))
  {
    FromB1Keys(b1, |b1|);
    FromB1Valid(b1, |b1|);
    WithB2Keys(FromB1(b1, |b1|), PassingB1(b1, |b1|), b2, |b2|);
  }

  // ----- names -----

  function NameAt(d: Dict, code: string): string { if code in d.at then d.at[code].name else "" }

  /** The first B2 item that passes the stock. */
  ghost predicate FirstB2(b2: seq<B2Item>, n: nat, code: string, j: nat) {
    && j < n <= |b2| && b2[j].Passes() && b2[j].code == code
    && forall m :: 0 <= m < j ==> !(b2[m].Passes() && b2[m].code == code)
  }

  lemma {:induction false} NameOfB1(b1: seq<B1Item>, n: nat, j: nat, code: string)
    requires n <= |b1| && LastB1(b1, n, j, code)
    ensures code in FromB1(b1, n).at && NameAt(FromB1(b1, n), code) == b1[j].name
  {
    if j < n - 1 { NameOfB1(b1, n - 1, j, code); }
  }

  lemma {:induction false} NameKept(d: Dict, b2: seq<B2Item>, n: nat, code: string)
    requires n <= |b2| && code in d.at
    ensures code in WithB2(d, b2, n).at && NameAt(WithB2(d, b2, n), code) == NameAt(d, code)
  {
    if n > 0 { NameKept(d, b2, n - 1, code); }
  }

  lemma {:induction false} NameOfB2(d: Dict, b2: seq<B2Item>, n: nat, code: string, j: nat)
    requires code !in d.at && FirstB2(b2, n, code, j)
    ensures code in WithB2(d, b2, n).at && NameAt(WithB2(d, b2, n), code) == b2[j].name
  {
    if j < n - 1 {
      NameOfB2(d, b2, n - 1, code, j);
    } else {
      WithB2Is(d, b2, n - 1, code);
    }
  }

  /** A merged stock has the name of its last B1 pass, and without one that of its first B2 pass. */
  lemma {:induction false} MergedNames(b1: seq<B1Item>, b2: seq<B2Item>, code: string, j: nat)
    ensures LastB1(b1, |b1|, j, code) ==> NameAt(Merged(b1, b2), code) == b1[j].name
    ensures !InB1(b1, |b1|, code) && FirstB2(b2, |b2|, code, j) ==> NameAt(Merged(b1, b2), code) == b2[j].name
  {
    hide LastB1, FirstB2, InB1;
    FromB1Is(b1, |b1|, code);
    var d := FromB1(b1, |b1|);
    if LastB1(b1, |b1|, j, code) {
      NameOfB1(b1, |b1|, j, code);
      NameKept(d, b2, |b2|, code);
    }
    if !InB1(b1, |b1|, code) && FirstB2(b2, |b2|, code, j) { NameOfB2(d, b2, |b2|, code, j); }
  }

  // ----- what the watchlist and the scan do to a stock -----

  /** A scanned stock of this code that has the detail. */
  predicate BringsDetail(e: Extra, code: string, key: string) {
    e.HighScore? && e.stock.code == code && key in e.stock.details
  }

  ghost predicate LastDetail(extras: seq<Extra>, n: nat, code: string, key: string, j: nat) {
    j < n <= |extras| && BringsDetail(extras[j], code, key)
    && forall m :: j < m < n ==> !BringsDetail(extras[m], code, key)
  }

  ghost predicate SameDetail(s: Stock, t: Stock, key: string) {
    (key in s.details <==> key in t.details) && (key in s.details ==> s.details[key] == t.details[key])
  }

  /** The detail of a known stock after the first `n` extras: the value of the last scanned stock of its code
      that has it, or the one it had. */
  ghost predicate DetailIs(s: Stock, t: Stock, extras: seq<Extra>, n: nat, key: string)
    requires n <= |extras|
  {
    && ((forall m :: 0 <= m < n ==> !BringsDetail(extras[m], s.code, key)) ==> SameDetail(s, t, key))
    && forall j: nat :: LastDetail(extras, n, s.code, key, j) ==>
         key in t.details && t.details[key] == extras[j].stock.details[key]
  }

  lemma {:induction false} TouchedOnce(s: Stock, t: Stock, e: Extra, key: string)
    requires t.code == s.code
    ensures var u := if e.Code() == t.code then e.Touch(t) else t;
            && u.name == t.name && t.tags <= u.tags
            && if BringsDetail(e, s.code, key) then key in u.details && u.details[key] == e.stock.details[key]
               else SameDetail(t, u, key)
  {
  }

  lemma {:induction false} DetailBrought(s: Stock, u: Stock, extras: seq<Extra>, n: nat, key: string)
    requires 0 < n <= |extras| && BringsDetail(extras[n - 1], s.code, key)
    requires key in u.details && u.details[key] == extras[n - 1].stock.details[key]
    ensures DetailIs(s, u, extras, n, key)
  {
    forall j: nat ensures LastDetail(extras, n, s.code, key, j) ==> j == n - 1 {}
  }

  lemma {:induction false} EarlierDetail(extras: seq<Extra>, n: nat, code: string, key: string, j: nat)
    requires 0 < n <= |extras| && LastDetail(extras, n, code, key, j) && !BringsDetail(extras[n - 1], code, key)
    ensures LastDetail(extras, n - 1, code, key, j)
  {
    hide BringsDetail;
  }

  lemma {:induction false} DetailUntouched(s: Stock, t: Stock, u: Stock, extras: seq<Extra>, n: nat, key: string)
    requires 0 < n <= |extras| && DetailIs(s, t, extras, n - 1, key)
    requires !BringsDetail(extras[n - 1], s.code, key) && SameDetail(t, u, key)
    ensures DetailIs(s, u, extras, n, key)
  {
    hide LastDetail;
    forall j: nat | LastDetail(extras, n, s.code, key, j)
      ensures LastDetail(extras, n - 1, s.code, key, j)
    {
      EarlierDetail(extras, n, s.code, key, j);
    }
    LastBrings(extras, n, s.code, key);
  }

  lemma {:induction false} LastBrings(extras: seq<Extra>, n: nat, code: string, key: string)
    ensures forall j: nat :: LastDetail(extras, n, code, key, j) ==> j < |extras| && BringsDetail(extras[j], code, key)
  {
  }

  lemma {:induction false} DetailKept(s: Stock, extras: seq<Extra>, key: string)
    ensures DetailIs(s, s, extras, 0, key)
  {
  }

  /** A known stock keeps code, name and details, except that a detail which the scan brings for it takes the
      value of the last scanned stock that has it. */
  lemma {:induction false} TouchedTells(s: Stock, extras: seq<Extra>, n: nat, key: string)
    requires n <= |extras|
    ensures var t := Touched(s, extras, n);
            t.code == s.code && t.name == s.name && s.tags <= t.tags && DetailIs(s, t, extras, n, key)
  {
    hide DetailIs, BringsDetail, SameDetail, Extra.Touch, Extra.Code;
    if n == 0 {
      DetailKept(s, extras, key);
    } else {
      TouchedTells(s, extras, n - 1, key);
      TouchedOnce(s, Touched(s, extras, n - 1), extras[n - 1], key);
      if BringsDetail(extras[n - 1], s.code, key) {
        DetailBrought(s, Touched(s, extras, n), extras, n, key);
      } else {
        DetailUntouched(s, Touched(s, extras, n - 1), Touched(s, extras, n), extras, n, key);
      }
    }
  }

  /** An unknown watched code comes in as a bare stock of that name, a scanned stock as it is. */
  predicate ComesFrom(s: Stock, e: Extra) {
    match e
    case Watched(code) => s == Stock(code, code, [WATCHLIST], map[])
    case HighScore(stock) => s == stock
  }

  /** Every new entry is unknown and comes from one of the extras. */
  lemma {:induction false} NewEntriesTell(known: set<string>, extras: seq<Extra>, n: nat, i: nat)
    requires n <= |extras| && i < |NewEntries(known, extras, n)|
    ensures var s := NewEntries(known, extras, n)[i];
            s.code !in known && exists j :: 0 <= j < n && ComesFrom(s, extras[j])
  {
    NewEntriesStep(known, extras, n);
    if i < |NewEntries(known, extras, n - 1)| {
      NewEntriesTell(known, extras, n - 1, i);
    } else {
      assert ComesFrom(extras[n - 1].Fresh(), extras[n - 1]);
    }
  }

  // ----- the watchlist sort -----

  /** In the watchlist's order no watched stock follows one that is not, and neither kind changes its own order. */
  lemma {:induction false} WatchedByTags(s: seq<Stock>, i: nat, j: nat)
    requires i < j < |StableSort(WatchlistFirst, s)|
    ensures var t := StableSort(WatchlistFirst, s);
            && (WATCHLIST in t[j].tags ==> WATCHLIST in t[i].tags)
            && ((WATCHLIST in t[i].tags <==> WATCHLIST in t[j].tags) ==>
                  exists a, b :: 0 <= a < b < |s| && s[a] == t[i] && s[b] == t[j])
  {
    hide StableSort;
    var t := StableSort(WatchlistFirst, s);
    SortIs(WatchlistFirst, s);
    assert !Less(Key(WatchlistFirst, t[j]), Key(WatchlistFirst, t[i]));
    if WATCHLIST in t[i].tags <==> WATCHLIST in t[j].tags {
      var a, b := SortKeepsOrder(WatchlistFirst, s, i, j);
    }
  }

  /** After the pass over a watchlist that is not empty the watched stocks stand first. */
  lemma {:induction false} WatchedStandFirst(list: seq<Stock>, watchlist: seq<string>, i: nat, j: nat)
    requires watchlist != [] && i < j < |WatchlistPass(list, watchlist)|
    ensures var t := WatchlistPass(list, watchlist); WATCHLIST in t[j].tags ==> WATCHLIST in t[i].tags
  {
    hide StableSort, Inject;
    WatchedByTags(Inject(list, Codes(list), WatchExtras(watchlist), |watchlist|), i, j);
  }

  // ----- what passes -----

  /** Only items with a positive verdict, an analysis that went through and a code come into the dictionary. */
  lemma {:induction false} MergedCodes(b1: seq<B1Item>, b2: seq<B2Item>, code: string)
    ensures code in Merged(b1, b2).at
            <==> || (exists i :: 0 <= i < |b1| && b1[i].code == code != "" && b1[i].result && b1[i].success)
                 || (exists i :: 0 <= i < |b2| && b2[i].code == code != "" && b2[i].success
                                 && (b2[i].strict || b2[i].loose))
  {
    hide Merged;
    MergedIs(b1, b2, code);
  }
}
