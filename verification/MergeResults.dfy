/** Merging the B1 and B2 results into one ranked list of stocks. */
module MergeResults {

  const B1 := "B1"
  const B2_STRICT := "B2严格"
  const B2_LOOSE := "B2宽松"
  const WATCHLIST := "自选"
  const SCORE := "新增条件总分"

  type Details = map<string, int>

  datatype Stock = Stock(code: string, name: string, tags: seq<string>, details: Details) {
    function AddTag(tag: string): Stock { if tag in tags then this else this.(tags := tags + [tag]) }
  }

  datatype B1Item = B1Item(code: string, name: string, result: bool, success: bool, details: Details) {
    predicate Passes() { result && success && code != "" }
  }

  datatype B2Item = B2Item(code: string, name: string, strict: bool, loose: bool, success: bool, details: Details) {
    predicate Passes() { (strict || loose) && success && code != "" }

    function Tags(): seq<string> { (if strict then [B2_STRICT] else []) + (if loose then [B2_LOOSE] else []) }
  }

  /** A dictionary that remembers in which order its keys came in. */
  datatype Dict = Dict(keys: seq<string>, at: map<string, Stock>) {
    ghost predicate Valid() {
      && (forall i, j :: 0 <= i < j < |keys| ==> keys[i] != keys[j])
      && (forall c :: c in keys <==> c in at)
      && (forall c :: c in at ==> at[c].code == c)
    }

    function Put(s: Stock): Dict { Dict(if s.code in at then keys else keys + [s.code], at[s.code := s]) }

    function Values(): (vs: seq<Stock>)
      requires Valid()
      ensures |vs| == |keys| && forall i :: 0 <= i < |keys| ==> keys[i] in at && vs[i] == at[keys[i]]
    {
      seq(|keys|, i requires 0 <= i < |keys| => assert keys[i] in keys; at[keys[i]])
    }
  }

  // ----- merging by code -----

  function AddB1(d: Dict, item: B1Item): Dict {
    if item.Passes() then d.Put(Stock(item.code, item.name, [B1], item.details)) else d
  }

  function AddB2(d: Dict, item: B2Item): Dict {
    if !item.Passes() then d
    else if item.code in d.at then
      var s := d.at[item.code];
      d.Put(Stock(item.code, s.name, s.tags + item.Tags(), s.details + item.details))
    else d.Put(Stock(item.code, item.name, item.Tags(), item.details))
  }

  function FromB1(b1: seq<B1Item>, i: nat): Dict
    requires i <= |b1|
  {
    if i == 0 then Dict([], map[]) else AddB1(FromB1(b1, i - 1), b1[i - 1])
  }

  function WithB2(d: Dict, b2: seq<B2Item>, i: nat): Dict
    requires i <= |b2|
  {
    if i == 0 then d else AddB2(WithB2(d, b2, i - 1), b2[i - 1])
  }

  lemma {:induction false} AddB1KeepsValid(d: Dict, item: B1Item)
    requires d.Valid()
    ensures AddB1(d, item).Valid()
  {
  }

  lemma {:induction false} AddB2KeepsValid(d: Dict, item: B2Item)
    requires d.Valid()
    ensures AddB2(d, item).Valid()
  {
  }

  lemma {:induction false} FromB1Valid(b1: seq<B1Item>, i: nat)
    requires i <= |b1|
    ensures FromB1(b1, i).Valid()
  {
    if i > 0 {
      FromB1Valid(b1, i - 1);
      AddB1KeepsValid(FromB1(b1, i - 1), b1[i - 1]);
    }
  }

  lemma {:induction false} WithB2Valid(d: Dict, b2: seq<B2Item>, i: nat)
    requires i <= |b2| && d.Valid()
    ensures WithB2(d, b2, i).Valid()
  {
    if i > 0 {
      WithB2Valid(d, b2, i - 1);
      AddB2KeepsValid(WithB2(d, b2, i - 1), b2[i - 1]);
    }
  }

  function Merged(b1: seq<B1Item>, b2: seq<B2Item>): (d: Dict)
    ensures d.Valid()
  {
    FromB1Valid(b1, |b1|);
    WithB2Valid(FromB1(b1, |b1|), b2, |b2|);
    WithB2(FromB1(b1, |b1|), b2, |b2|)
  }

  predicate InB1(b1: seq<B1Item>, i: nat, code: string)
    requires i <= |b1|
  {
    exists j :: 0 <= j < i && b1[j].Passes() && b1[j].code == code
  }

  predicate InB2(b2: seq<B2Item>, i: nat, code: string)
    requires i <= |b2|
  {
    exists j :: 0 <= j < i && b2[j].Passes() && b2[j].code == code
  }

  /** The tags that the passing B2 items of a stock bring, in order. */
  function B2Tags(b2: seq<B2Item>, i: nat, code: string): seq<string>
    requires i <= |b2|
  {
    if i == 0 then []
    else B2Tags(b2, i - 1, code) + if b2[i - 1].Passes() && b2[i - 1].code == code then b2[i - 1].Tags() else []
  }

  /** The last passing B1 item of the stock among the first `i`. */
  ghost predicate LastB1(b1: seq<B1Item>, i: nat, j: nat, code: string)
    requires i <= |b1|
  {
    && j < i && b1[j].Passes() && b1[j].code == code
    && forall k :: j < k < i ==> !(b1[k].Passes() && b1[k].code == code)
  }

  function TagsAt(d: Dict, code: string): seq<string> { if code in d.at then d.at[code].tags else [] }

  function DetailsAt(d: Dict, code: string): Details { if code in d.at then d.at[code].details else map[] }

  lemma {:induction false} AddB1Is(d: Dict, item: B1Item, code: string)
    ensures var e, hit := AddB1(d, item), item.Passes() && item.code == code;
            && (code in e.at <==> code in d.at || hit)
            && TagsAt(e, code) == (if hit then [B1] else TagsAt(d, code))
            && DetailsAt(e, code) == (if hit then item.details else DetailsAt(d, code))
  {
  }

  lemma {:induction false} FromB1Is(b1: seq<B1Item>, i: nat, code: string)
    requires i <= |b1|
    ensures code in FromB1(b1, i).at <==> InB1(b1, i, code)
    ensures TagsAt(FromB1(b1, i), code) == if InB1(b1, i, code) then [B1] else []
  {
    if i > 0 {
      FromB1Is(b1, i - 1, code);
      AddB1Is(FromB1(b1, i - 1), b1[i - 1], code);
      assert InB1(b1, i, code) <==> InB1(b1, i - 1, code) || (b1[i - 1].Passes() && b1[i - 1].code == code);
    }
  }

  lemma {:induction false} FromB1Details(b1: seq<B1Item>, i: nat, j: nat, code: string)
    requires i <= |b1| && LastB1(b1, i, j, code)
    ensures DetailsAt(FromB1(b1, i), code) == b1[j].details
  {
    AddB1Is(FromB1(b1, i - 1), b1[i - 1], code);
    if j < i - 1 {
      FromB1Details(b1, i - 1, j, code);
    }
  }

  /** The details a stock has after the B2 items' details have been laid over the ones it had. */
  function Overlaid(details: Details, b2: seq<B2Item>, i: nat, code: string): Details
    requires i <= |b2|
  {
    if i == 0 then details
    else
      Overlaid(details, b2, i - 1, code)
      + if b2[i - 1].Passes() && b2[i - 1].code == code then b2[i - 1].details else map[]
  }

  lemma {:induction false} AddB2Is(d: Dict, item: B2Item, code: string)
    ensures var e, hit := AddB2(d, item), item.Passes() && item.code == code;
            && (code in e.at <==> code in d.at || hit)
            && TagsAt(e, code) == TagsAt(d, code) + (if hit then item.Tags() else [])
            && DetailsAt(e, code) == DetailsAt(d, code) + (if hit then item.details else map[])
  {
  }

  lemma {:induction false} WithB2Is(d: Dict, b2: seq<B2Item>, i: nat, code: string)
    requires i <= |b2|
    ensures code in WithB2(d, b2, i).at <==> code in d.at || InB2(b2, i, code)
    ensures TagsAt(WithB2(d, b2, i), code) == TagsAt(d, code) + B2Tags(b2, i, code)
    ensures DetailsAt(WithB2(d, b2, i), code) == Overlaid(DetailsAt(d, code), b2, i, code)
  {
    if i > 0 {
      WithB2Is(d, b2, i - 1, code);
      var e, item := WithB2(d, b2, i - 1), b2[i - 1];
      AddB2Is(e, item, code);
      assert WithB2(d, b2, i) == AddB2(e, item);
      assert InB2(b2, i, code) <==> InB2(b2, i - 1, code) || (item.Passes() && item.code == code);
    }
  }

  /** A merged stock is one that passed a filter; its tags are B1 when it passed B1, then those of every B2
      pass; its details those of its last B1 pass with those of every B2 pass laid over them. */
  lemma {:induction false} MergedIs(b1: seq<B1Item>, b2: seq<B2Item>, code: string)
    ensures code in Merged(b1, b2).at <==> InB1(b1, |b1|, code) || InB2(b2, |b2|, code)
    ensures TagsAt(Merged(b1, b2), code) == (if InB1(b1, |b1|, code) then [B1] else []) + B2Tags(b2, |b2|, code)
    ensures forall j: nat :: LastB1(b1, |b1|, j, code)
              ==> DetailsAt(Merged(b1, b2), code) == Overlaid(b1[j].details, b2, |b2|, code)
    ensures !InB1(b1, |b1|, code) ==> DetailsAt(Merged(b1, b2), code) == Overlaid(map[], b2, |b2|, code)
  {
    FromB1Is(b1, |b1|, code);
    WithB2Is(FromB1(b1, |b1|), b2, |b2|, code);
    forall j: nat | LastB1(b1, |b1|, j, code) ensures DetailsAt(FromB1(b1, |b1|), code) == b1[j].details {
      FromB1Details(b1, |b1|, j, code);
    }
  }

  // ----- stable sorting -----

  datatype Order = ByPriority | WatchlistFirst

  function Priority(s: Stock): int {
    if B2_STRICT in s.tags then (if B2_LOOSE in s.tags then 200 else 300)
    else if B2_LOOSE in s.tags then 100
    else 0
  }

  function Score(s: Stock): int { if B1 in s.tags && SCORE in s.details then s.details[SCORE] else 0 }

  /** The sort key, smallest first. */
  function Key(ord: Order, s: Stock): (int, int) {
    match ord
    case ByPriority => (-Priority(s), -Score(s))
    case WatchlistFirst => (if WATCHLIST in s.tags then 0 else 1, 0)
  }

  predicate Less(a: (int, int), b: (int, int)) { a.0 < b.0 || (a.0 == b.0 && a.1 < b.1) }

  function Insert(ord: Order, s: seq<Stock>, x: Stock): seq<Stock> {
    if s == [] || !Less(Key(ord, x), Key(ord, s[|s| - 1])) then s + [x]
    else Insert(ord, s[..|s| - 1], x) + [s[|s| - 1]]
  }

  /** The library's stable sort. */
  function StableSort(ord: Order, s: seq<Stock>): seq<Stock> {
    if s == [] then [] else Insert(ord, StableSort(ord, s[..|s| - 1]), s[|s| - 1])
  }

  ghost predicate Ordered(ord: Order, s: seq<Stock>) {
    forall i, j :: 0 <= i < j < |s| ==> !Less(Key(ord, s[j]), Key(ord, s[i]))
  }

  /** The stocks with key `k`, in order. */
  function OfKey(ord: Order, s: seq<Stock>, k: (int, int)): seq<Stock> {
    if s == [] then []
    else OfKey(ord, s[..|s| - 1], k) + if Key(ord, s[|s| - 1]) == k then [s[|s| - 1]] else []
  }

  lemma {:induction false} OfKeySnoc(ord: Order, s: seq<Stock>, x: Stock, k: (int, int))
    ensures OfKey(ord, s + [x], k) == OfKey(ord, s, k) + if Key(ord, x) == k then [x] else []
  {
  }

  lemma {:induction false} OrderedSnoc(ord: Order, s: seq<Stock>, x: Stock)
    requires Ordered(ord, s) && (s != [] ==> !Less(Key(ord, x), Key(ord, s[|s| - 1])))
    ensures Ordered(ord, s + [x])
  {
  }

  lemma {:induction false} InsertSorts(ord: Order, s: seq<Stock>, x: Stock)
    requires Ordered(ord, s)
    ensures Ordered(ord, Insert(ord, s, x))
    ensures Insert(ord, s, x) != []
            && (var last := Insert(ord, s, x)[|Insert(ord, s, x)| - 1]; last == x || (s != [] && last == s[|s| - 1]))
  {
    if s == [] || !Less(Key(ord, x), Key(ord, s[|s| - 1])) {
      OrderedSnoc(ord, s, x);
    } else {
      var front, last := s[..|s| - 1], s[|s| - 1];
      InsertSorts(ord, front, x);
      assert s == front + [last];
      OrderedSnoc(ord, Insert(ord, front, x), last);
    }
  }

  lemma {:induction false} InsertKeeps(ord: Order, s: seq<Stock>, x: Stock)
    ensures multiset(Insert(ord, s, x)) == multiset(s) + multiset{x}
  {
    if s != [] && Less(Key(ord, x), Key(ord, s[|s| - 1])) {
      InsertKeeps(ord, s[..|s| - 1], x);
      assert s == s[..|s| - 1] + [s[|s| - 1]];
    }
  }

  lemma {:induction false} OneIsEmpty(s: seq<Stock>, x: seq<Stock>, y: seq<Stock>)
    requires x == [] || y == []
    ensures s + x + y == s + y + x
  {
  }

  lemma {:induction false} InsertStable(ord: Order, s: seq<Stock>, x: Stock, k: (int, int))
    ensures OfKey(ord, Insert(ord, s, x), k) == OfKey(ord, s, k) + if Key(ord, x) == k then [x] else []
  {
    if s == [] || !Less(Key(ord, x), Key(ord, s[|s| - 1])) {
      OfKeySnoc(ord, s, x, k);
    } else {
      var front, last := s[..|s| - 1], s[|s| - 1];
      InsertStable(ord, front, x, k);
      OfKeySnoc(ord, Insert(ord, front, x), last, k);
      OneIsEmpty(OfKey(ord, front, k), if Key(ord, x) == k then [x] else [],
                 if Key(ord, last) == k then [last] else []);
    }
  }

  /** The sort orders by key, keeps every stock, and keeps the order of stocks with the same key. */
  lemma {:induction false} SortIs(ord: Order, s: seq<Stock>)
    ensures Ordered(ord, StableSort(ord, s)) && multiset(StableSort(ord, s)) == multiset(s)
    ensures forall k :: OfKey(ord, StableSort(ord, s), k) == OfKey(ord, s, k)
  {
    if s != [] {
      var front, last := s[..|s| - 1], s[|s| - 1];
      assert s == front + [last];
      SortIs(ord, front);
      InsertSorts(ord, StableSort(ord, front), last);
      InsertKeeps(ord, StableSort(ord, front), last);
      forall k ensures OfKey(ord, StableSort(ord, s), k) == OfKey(ord, s, k) {
        InsertStable(ord, StableSort(ord, front), last, k);
      }
    }
  }

  // ----- distinct codes -----

  ghost predicate Holds(s: seq<Stock>, code: string) {
    exists i :: 0 <= i < |s| && s[i].code == code
  }

  ghost predicate Distinct(s: seq<Stock>) {
    forall i, j :: 0 <= i < j < |s| ==> s[i].code != s[j].code
  }

  lemma {:induction false} HoldsAppend(s: seq<Stock>, t: seq<Stock>, code: string)
    ensures Holds(s + t, code) <==> Holds(s, code) || Holds(t, code)
  {
    if i :| 0 <= i < |s| && s[i].code == code { assert (s + t)[i].code == code; }
    if i :| 0 <= i < |t| && t[i].code == code { assert (s + t)[|s| + i].code == code; }
  }

  lemma {:induction false} DistinctSnoc(s: seq<Stock>, x: Stock)
    ensures Distinct(s + [x]) <==> Distinct(s) && !Holds(s, x.code)
  {
    var t := s + [x];
    assert t[|s|] == x && forall i :: 0 <= i < |s| ==> t[i] == s[i];
  }

  lemma {:induction false} DistinctAppend(s: seq<Stock>, t: seq<Stock>)
    ensures Distinct(s + t) <==> Distinct(s) && Distinct(t) && forall i :: 0 <= i < |t| ==> !Holds(s, t[i].code)
    decreases |t|
  {
    if t == [] {
      assert s + t == s;
    } else {
      var front, last := t[..|t| - 1], t[|t| - 1];
      assert t == front + [last] && s + t == (s + front) + [last];
      DistinctAppend(s, front);
      DistinctSnoc(s + front, last);
      DistinctSnoc(front, last);
      HoldsAppend(s, front, last.code);
      assert forall i :: 0 <= i < |front| ==> t[i] == front[i];
    }
  }

  lemma {:induction false} SingleHolds(x: Stock, code: string)
    ensures Holds([x], code) <==> x.code == code
  {
    assert [x][0] == x;
  }

  lemma {:induction false} InsertCodes(ord: Order, s: seq<Stock>, x: Stock, code: string)
    ensures Holds(Insert(ord, s, x), code) <==> Holds(s, code) || x.code == code
  {
    if s == [] || !Less(Key(ord, x), Key(ord, s[|s| - 1])) {
      HoldsAppend(s, [x], code);
      SingleHolds(x, code);
    } else {
      var front, last := s[..|s| - 1], s[|s| - 1];
      assert s == front + [last];
      InsertCodes(ord, front, x, code);
      HoldsAppend(Insert(ord, front, x), [last], code);
      HoldsAppend(front, [last], code);
    }
  }

  lemma {:induction false} InsertDistinct(ord: Order, s: seq<Stock>, x: Stock)
    ensures Distinct(Insert(ord, s, x)) <==> Distinct(s) && !Holds(s, x.code)
  {
    if s == [] || !Less(Key(ord, x), Key(ord, s[|s| - 1])) {
      DistinctSnoc(s, x);
    } else {
      var front, last := s[..|s| - 1], s[|s| - 1];
      assert s == front + [last];
      InsertDistinct(ord, front, x);
      InsertCodes(ord, front, x, last.code);
      DistinctSnoc(Insert(ord, front, x), last);
      DistinctSnoc(front, last);
      HoldsAppend(front, [last], x.code);
      SingleHolds(last, x.code);
    }
  }

  /** Sorting changes neither which codes there are nor whether one comes twice. */
  lemma {:induction false} SortCodes(ord: Order, s: seq<Stock>)
    ensures forall code :: Holds(StableSort(ord, s), code) <==> Holds(s, code)
    ensures Distinct(StableSort(ord, s)) <==> Distinct(s)
  {
    if s != [] {
      var front, last := s[..|s| - 1], s[|s| - 1];
      assert s == front + [last];
      SortCodes(ord, front);
      InsertDistinct(ord, StableSort(ord, front), last);
      DistinctSnoc(front, last);
      forall code ensures Holds(StableSort(ord, s), code) <==> Holds(s, code) {
        InsertCodes(ord, StableSort(ord, front), last, code);
        HoldsAppend(front, [last], code);
        SingleHolds(last, code);
      }
    }
  }

  // ----- the ranked list -----

  /** The merged stocks in the order of the report. */
  function Ranked(b1: seq<B1Item>, b2: seq<B2Item>): seq<Stock> {
    StableSort(ByPriority, Merged(b1, b2).Values())
  }

  lemma {:induction false} ValuesAre(d: Dict)
    requires d.Valid()
    ensures Distinct(d.Values()) && (forall c :: Holds(d.Values(), c) <==> c in d.at)
    ensures forall s :: s in d.Values() ==> s.code in d.at && d.at[s.code] == s
  {
  }

  /** The ranked stocks have distinct codes, exactly those that passed a filter, and the better rank comes
      first. */
  lemma {:induction false} RankedIs(b1: seq<B1Item>, b2: seq<B2Item>)
    ensures Distinct(Ranked(b1, b2)) && Ordered(ByPriority, Ranked(b1, b2))
    ensures forall c :: Holds(Ranked(b1, b2), c) <==> InB1(b1, |b1|, c) || InB2(b2, |b2|, c)
  {
    var d := Merged(b1, b2);
    ValuesAre(d);
    SortIs(ByPriority, d.Values());
    SortCodes(ByPriority, d.Values());
    forall c ensures c in d.at <==> InB1(b1, |b1|, c) || InB2(b2, |b2|, c) { MergedIs(b1, b2, c); }
  }

  lemma {:induction false} SortMembers(ord: Order, s: seq<Stock>, x: Stock)
    ensures x in StableSort(ord, s) <==> x in s
  {
    SortIs(ord, s);
    assert x in multiset(StableSort(ord, s)) <==> x in multiset(s);
  }

  /** A ranked stock has the tags of its passes. */
  lemma {:induction false} RankedTags(b1: seq<B1Item>, b2: seq<B2Item>, s: Stock)
    requires s in Ranked(b1, b2)
    ensures s.tags == (if InB1(b1, |b1|, s.code) then [B1] else []) + B2Tags(b2, |b2|, s.code)
  {
    var d := Merged(b1, b2);
    SortMembers(ByPriority, d.Values(), s);
    ValuesAre(d);
    MergedIs(b1, b2, s.code);
    assert s.tags == TagsAt(d, s.code);
  }

  /** The two loops and the sort. */
  method MergeResults(b1: seq<B1Item>, b2: seq<B2Item>) returns (list: seq<Stock>)
    ensures list == Ranked(b1, b2)
  {
    var d := Dict([], map[]);
    var i := 0;
    while i < |b1|
      invariant 0 <= i <= |b1| && d == FromB1(b1, i)
    {
      var item := b1[i];
      if item.result && item.success && item.code != "" {
        d := d.Put(Stock(item.code, item.name, [B1], item.details));
      }
      i := i + 1;
    }
    i := 0;
    while i < |b2|
      invariant 0 <= i <= |b2| && d == WithB2(FromB1(b1, |b1|), b2, i)
    {
      var item := b2[i];
      if (item.strict || item.loose) && item.success && item.code != "" {
        var tags := [];
        if item.strict { tags := tags + [B2_STRICT]; }
        if item.loose { tags := tags + [B2_LOOSE]; }
        assert tags == item.Tags();
        if item.code in d.at {
          var s := d.at[item.code];
          d := d.Put(Stock(item.code, s.name, s.tags + tags, s.details + item.details));
        } else {
          d := d.Put(Stock(item.code, item.name, tags, item.details));
        }
      }
      i := i + 1;
    }
    assert d == Merged(b1, b2);
    list := StableSort(ByPriority, d.Values());
  }
}
