/** The message that leaves for each batch, and how its sizes depend on the card that the split measured: the title
    names the batch, a timestamp and a signature come in before it is sent, and the request body escapes every
    character outside printable ASCII. */
module SentCards {
  import opened JsonText
  import opened BatchSplit

  const KILOBYTE := 1024

  // ----- the JSON text of a message -----

  const DIGITS := "0123456789"

  function Decimal(n: nat): string { if n < 10 then [DIGITS[n]] else Decimal(n / 10) + [DIGITS[n % 10]] }

  function Kind(): (text: string)
    ensures Printable(text) && |text| == 28
  {
    "{\"msg_type\": \"interactive\", "
  }

  function CardTag(): (text: string)
    ensures Printable(text) && |text| == 9
  {
    "\"card\": {"
  }

  function Settings(): (text: string)
    ensures Printable(text) && |text| == 34
  {
    "\"config\": {\"update_multi\": true}, "
  }

  function Elements(): (text: string)
    ensures Printable(text) && |text| == 28
  {
    "\"i18n_elements\": {\"zh_cn\": ["
  }

  function TitleTag(): (text: string)
    ensures Printable(text) && |text| == 20
  {
    "{\"tag\": \"markdown\", "
  }

  function TitleStart(): (text: string)
    ensures Printable(text) && |text| == 14
  {
    "\"content\": \"**"
  }

  function CardStart(): string { Kind() + CardTag() + Settings() + Elements() + TitleTag() + TitleStart() }

  function TitleEnd(): (text: string)
    ensures Printable(text) && |text| == 26
  {
    "**\", \"text_align\": \"left\"}"
  }

  function CardEnd(): (text: string)
    ensures Printable(text) && |text| == 22
  {
    "]}, \"i18n_header\": {}}"
  }

  /** What the title says about the batch when there are several. */
  function Suffix(number: nat, batches: nat): string {
    if batches > 1 then "（第" + Decimal(number) + "/" + Decimal(batches) + "批）" else ""
  }

  function Texts(batch: seq<Stock>): string {
    if batch == [] then "" else Texts(batch[..|batch| - 1]) + batch[|batch| - 1].text
  }

  /** The card of a batch up to its last brace. */
  function OpenCard(title: string, suffix: string, batch: seq<Stock>): string {
    CardStart() + title + suffix + TitleEnd() + Texts(batch) + CardEnd()
  }

  /** The card that the split measures: it never has a suffix. */
  function MeasuredCard(title: string, batch: seq<Stock>): string { OpenCard(title, "", batch) + "}" }

  /** The title, and what `_post` adds to every message. */
  datatype Post = Post(title: string, stamp: string, sign: string) {
    /** Seconds of the epoch in ten digits and a signature of 32 bytes in Base64. */
    ghost predicate Signed() { |stamp| == 10 && |sign| == 44 && Printable(stamp) && Printable(sign) }

    function Envelope(): string { ", \"timestamp\": \"" + stamp + "\", \"sign\": \"" + sign + "\"" }

    function Message(suffix: string, batch: seq<Stock>): string { OpenCard(title, suffix, batch) + Envelope() + "}" }

    /** The size of a card without stocks. */
    function Base(): nat { Utf8(MeasuredCard(title, [])) }

    function Batches(stocks: seq<Stock>): seq<seq<Stock>> { Greedy(Base(), stocks, 0) }

    /** The message of batch `k`. */
    function Sent(stocks: seq<Stock>, k: nat): string
      requires k < |Batches(stocks)|
    {
      Message(Suffix(k + 1, |Batches(stocks)|), Batches(stocks)[k])
    }
  }

  // ----- its sizes -----

  lemma {:induction false} DecimalIsPrintable(n: nat)
    ensures Printable(Decimal(n)) && Decimal(n) != ""
  {
    assert forall d :: 0 <= d < 10 ==> 0x20 <= DIGITS[d] as int < 0x7F;
    if n >= 10 { DecimalIsPrintable(n / 10); }
  }

  function Pow10(d: nat): nat { if d == 0 then 1 else 10 * Pow10(d - 1) }

  lemma {:induction false} DecimalBelow(n: nat, d: nat)
    requires d >= 1 && n < Pow10(d)
    ensures |Decimal(n)| <= d
  {
    if n >= 10 { DecimalBelow(n / 10, d - 1); }
  }

  lemma {:induction false} TextsSize(batch: seq<Stock>)
    ensures Utf8(Texts(batch)) == Bytes(batch)
  {
    if batch != [] {
      var front := batch[..|batch| - 1];
      TextsSize(front);
      SizesOfAppend(Texts(front), batch[|batch| - 1].text);
    }
  }

  lemma {:induction false} BracePrintable()
    ensures Printable("}")
  {
  }

  lemma {:induction false} FramePrintable()
    ensures Printable(CardStart()) && Printable(TitleEnd()) && Printable(CardEnd()) && Printable("}")
  {
    hide Printable, Kind, CardTag, Settings, Elements, TitleTag, TitleStart, TitleEnd, CardEnd;
    BracePrintable();
    PrintableAppend(Kind(), CardTag());
    PrintableAppend(Kind() + CardTag(), Settings());
    PrintableAppend(Kind() + CardTag() + Settings(), Elements());
    PrintableAppend(Kind() + CardTag() + Settings() + Elements(), TitleTag());
    PrintableAppend(Kind() + CardTag() + Settings() + Elements() + TitleTag(), TitleStart());
  }

  lemma {:induction false} OpenCardSizes(title: string, suffix: string, batch: seq<Stock>)
    ensures var card := OpenCard(title, suffix, batch);
            && Utf8(card) == |CardStart()| + |TitleEnd()| + |CardEnd()| + Utf8(title) + Utf8(suffix) + Bytes(batch)
            && Growth(card) == Growth(title) + Growth(suffix) + Growth(Texts(batch))
  {
    hide Utf8, Growth, Texts, Bytes, Printable;
    FramePrintable();
    PrintableSizes(CardStart());
    PrintableSizes(TitleEnd());
    PrintableSizes(CardEnd());
    TextsSize(batch);
    SizesOfAppend(CardStart(), title);
    SizesOfAppend(CardStart() + title, suffix);
    SizesOfAppend(CardStart() + title + suffix, TitleEnd());
    SizesOfAppend(CardStart() + title + suffix + TitleEnd(), Texts(batch));
    SizesOfAppend(CardStart() + title + suffix + TitleEnd() + Texts(batch), CardEnd());
  }

  /** What the split measures is the JSON text of the card. */
  lemma {:induction false} MeasuredIs(post: Post, batch: seq<Stock>)
    ensures Utf8(MeasuredCard(post.title, batch)) == CardSize(post.Base(), batch)
  {
    hide Utf8, Growth, Bytes, OpenCard;
    SizesOfAppend(OpenCard(post.title, "", batch), "}");
    SizesOfAppend(OpenCard(post.title, "", []), "}");
    OpenCardSizes(post.title, "", batch);
    OpenCardSizes(post.title, "", []);
    NoBytes();
  }

  lemma {:induction false} NoBytes()
    ensures Bytes([]) == 0 && Utf8("") == 0 && Growth("") == 0
  {
  }

  const ENVELOPE_BYTES := 83

  lemma {:induction false} EnvelopeSizes(post: Post)
    requires post.Signed()
    ensures Printable(post.Envelope()) && |post.Envelope()| == ENVELOPE_BYTES
  {
    var head, between := ", \"timestamp\": \"", "\", \"sign\": \"";
    assert Printable(head) && Printable(between) && Printable("\"");
    PrintableAppend(head, post.stamp);
    PrintableAppend(head + post.stamp, between);
    PrintableAppend(head + post.stamp + between, post.sign);
    PrintableAppend(head + post.stamp + between + post.sign, "\"");
  }

  lemma {:induction false} PrintableAppend(s: string, t: string)
    requires Printable(s) && Printable(t)
    ensures Printable(s + t)
  {
  }

  /** The message is the measured card with the suffix and the envelope in it; escaping makes it grow by what the
      title, the suffix and the stocks grow. */
  lemma {:induction false} MessageSizes(post: Post, suffix: string, batch: seq<Stock>)
    requires post.Signed()
    ensures var message := post.Message(suffix, batch);
            && Utf8(message) == CardSize(post.Base(), batch) + Utf8(suffix) + ENVELOPE_BYTES
            && Growth(message) == Growth(post.title) + Growth(suffix) + Growth(Texts(batch))
  {
    hide Utf8, Growth, Bytes, OpenCard, Printable, Post.Envelope;
    var card := OpenCard(post.title, suffix, batch);
    FramePrintable();
    EnvelopeSizes(post);
    PrintableSizes(post.Envelope());
    PrintableSizes("}");
    SizesOfAppend(card, post.Envelope());
    SizesOfAppend(card + post.Envelope(), "}");
    SizesOfAppend(OpenCard(post.title, "", []), "}");
    OpenCardSizes(post.title, suffix, batch);
    OpenCardSizes(post.title, "", []);
    NoBytes();
  }

  const SUFFIX_BYTES := 13
  const SUFFIX_GROWTH := 12

  lemma {:induction false} SuffixSizes(number: nat, batches: nat)
    ensures Utf8(Suffix(number, batches))
            == if batches > 1 then SUFFIX_BYTES + |Decimal(number)| + |Decimal(batches)| else 0
    ensures Growth(Suffix(number, batches)) == if batches > 1 then SUFFIX_GROWTH else 0
  {
    hide Utf8, Growth, Decimal, Printable;
    NoBytes();
    if batches > 1 {
      var head, tail, n, m := "（第", "批）", Decimal(number), Decimal(batches);
      DecimalIsPrintable(number);
      DecimalIsPrintable(batches);
      PrintableSizes(n);
      PrintableSizes(m);
      SuffixSigns();
      SizesOfAppend(head, n);
      SizesOfAppend(head + n, "/");
      SizesOfAppend(head + n + "/", m);
      SizesOfAppend(head + n + "/" + m, tail);
    }
  }

  lemma {:induction false} SuffixSigns()
    ensures Utf8("（第") == 6 == Growth("（第") && Utf8("批）") == 6 == Growth("批）")
    ensures Utf8("/") == 1 && Growth("/") == 0
  {
    WideSizes("（第");
    WideSizes("批）");
    PrintableSizes("/");
  }

  // ----- the size that is logged -----

  /** What the message has and the measured card has not: the suffix and the envelope. */
  function Added(number: nat, batches: nat): nat { Utf8(Suffix(number, batches)) + ENVELOPE_BYTES }

  /** A message of several stocks is over 19 KB exactly when its suffix and its envelope do not fit beside the card that
      was measured, and then by no more than their length. Even the message of the only batch can be. */
  lemma {:induction false} SentCards(post: Post, stocks: seq<Stock>, k: nat)
    requires post.Signed() && k < |post.Batches(stocks)| && |post.Batches(stocks)[k]| > 1
    ensures var t := |post.Batches(stocks)|;
            var measured := Utf8(MeasuredCard(post.title, post.Batches(stocks)[k]));
            var sent, added := Utf8(post.Sent(stocks, k)), Added(k + 1, t);
            && sent == measured + added && measured <= MAX_BYTES
            && (sent > MAX_BYTES <==> measured > MAX_BYTES - added)
            && added == ENVELOPE_BYTES + if t > 1 then SUFFIX_BYTES + |Decimal(k + 1)| + |Decimal(t)| else 0
  {
    hide Utf8, Growth, Bytes, Greedy, Post.Signed, Post.Message, MeasuredCard, Suffix;
    var batches := post.Batches(stocks);
    GreedyIsSplit(post.Base(), stocks, 0);
    assert Allowed(post.Base(), batches[k]);
    MeasuredIs(post, batches[k]);
    MessageSizes(post, Suffix(k + 1, |batches|), batches[k]);
    SuffixSizes(k + 1, |batches|);
  }

  /** With at most ten to the power 463 batches every message of several stocks is logged with at most 20 KB. */
  lemma {:induction false} LoggedWithin20KB(post: Post, stocks: seq<Stock>, k: nat)
    requires post.Signed() && k < |post.Batches(stocks)| < Pow10(464) && |post.Batches(stocks)[k]| > 1
    ensures Utf8(post.Sent(stocks, k)) <= 20 * KILOBYTE
  {
    hide Utf8, Pow10, Decimal, Post.Batches, Post.Sent, Post.Signed, MeasuredCard;
    SentCards(post, stocks, k);
    DecimalBelow(|post.Batches(stocks)|, 464);
    DecimalBelow(k + 1, 464);
  }

  // ----- the request body -----

  /** The body is the message with escapes. It stays within 20 KB exactly when what escaping adds to the title, the
      suffix and the stocks fits beside the message. */
  lemma {:induction false} BodyWithin20KB(post: Post, stocks: seq<Stock>, k: nat)
    requires post.Signed() && k < |post.Batches(stocks)|
    ensures var t, batch := |post.Batches(stocks)|, post.Batches(stocks)[k];
            var grown := Growth(post.title) + (if t > 1 then SUFFIX_GROWTH else 0) + Growth(Texts(batch));
            var plain := CardSize(post.Base(), batch) + Added(k + 1, t);
            && Escaped(post.Sent(stocks, k)) == plain + grown
            && (Escaped(post.Sent(stocks, k)) <= 20 * KILOBYTE <==> grown <= 20 * KILOBYTE - plain)
  {
    hide Utf8, Growth, Escaped, Bytes, Greedy, Post.Signed, Post.Message, Suffix;
    var batches := post.Batches(stocks);
    MessageSizes(post, Suffix(k + 1, |batches|), batches[k]);
    SuffixSizes(k + 1, |batches|);
    EscapedIs(post.Sent(stocks, k));
  }

  // The wide characters that the text of every stock has, line by line.

  function Scores(): (text: string)
    ensures Wide(text) && |text| == 8
  {
    "得分缠论：赢面："
  }

  function Emoji(): string { "🧠🎯" }

  function Heads(): (text: string)
    ensures Wide(text) && |text| == 23
  {
    "行情市值量均线原始条件评分条件回测斜率形态统计"
  }

  function Prices(): (text: string)
    ensures Wide(text) && |text| == 18
  {
    "收盘：开盘：最高：最低：涨幅：振幅："
  }

  function Market(): (text: string)
    ensures Wide(text) && |text| == 11
  {
    "总市值：流通：成交量："
  }

  function Lines(): (text: string)
    ensures Wide(text) && |text| == 24
  {
    "：：：：白线：黄线：前日收：黄距：前周收：周白："
  }

  function Conditions(): (text: string)
    ensures Wide(text) && |text| == 23
  {
    "：：：：振：涨：涨：倍量：市值：黄白间：周白："
  }

  function ScoreConditions(): (text: string)
    ensures Wide(text) && |text| == 23
  {
    "日倍量：（次）无大卖：（违次）涨幅控：换手控："
  }

  function Backtest(): (text: string)
    ensures Wide(text) && |text| == 22
  {
    "天回测：（前价：）天斜率：：：：日斜：周斜："
  }

  function Shapes(): (text: string)
    ensures Wide(text) && |text| == 32
  {
    "天涨幅：（限）达标：无连涨停：无长上影：无风车：无异量：无跳空："
  }

  const ICONS := 23

  /** A tick, a cross or a dash. */
  predicate IsIcon(c: char) { c == '✅' || c == '❌' || c == '—' }

  function Labels(): string {
    Scores() + Emoji() + Heads() + Prices() + Market()
    + Lines() + Conditions() + ScoreConditions() + Backtest() + Shapes()
  }

  /** The text has the labels and one icon for each of the conditions. */
  ghost predicate FromTemplate(text: string, icons: string) {
    && |icons| == ICONS && (forall i :: 0 <= i < ICONS ==> IsIcon(icons[i]))
    && multiset(Labels() + icons) <= multiset(text)
  }

  ghost predicate Templated(text: string) { exists icons :: FromTemplate(text, icons) }

  const STOCK_GROWTH := 637

  lemma {:induction false} LabelsGrow()
    ensures Growth(Labels()) == 568
  {
    hide Growth, Utf8, Wide, Emoji, Scores, Heads, Prices, Market, Lines;
    hide Conditions, ScoreConditions, Backtest, Shapes;
    WideSizes(Scores());
    EmojiGrow();
    WideSizes(Heads());
    WideSizes(Prices());
    WideSizes(Market());
    WideSizes(Lines());
    WideSizes(Conditions());
    WideSizes(ScoreConditions());
    WideSizes(Backtest());
    WideSizes(Shapes());
    var one := Scores() + Emoji() + Heads() + Prices() + Market();
    var two := one + Lines() + Conditions() + ScoreConditions();
    SizesOfAppend(Scores(), Emoji());
    SizesOfAppend(Scores() + Emoji(), Heads());
    SizesOfAppend(Scores() + Emoji() + Heads(), Prices());
    SizesOfAppend(Scores() + Emoji() + Heads() + Prices(), Market());
    SizesOfAppend(one, Lines());
    SizesOfAppend(one + Lines(), Conditions());
    SizesOfAppend(one + Lines() + Conditions(), ScoreConditions());
    SizesOfAppend(two, Backtest());
    SizesOfAppend(two + Backtest(), Shapes());
  }

  lemma {:induction false} EmojiGrow()
    ensures Growth(Emoji()) == 16
  {
    assert Emoji() == ['🧠'] + ['🎯'];
    SizesOfAppend(['🧠'], ['🎯']);
    SizesOfChar('🧠');
    SizesOfChar('🎯');
  }

  lemma {:induction false} IconsGrow(icons: string)
    requires |icons| == ICONS && forall i :: 0 <= i < ICONS ==> IsIcon(icons[i])
    ensures Growth(icons) == 3 * ICONS
  {
    WideSizes(icons);
  }

  /** Escaping adds at least 637 bytes to a stock. */
  lemma {:induction false} StockGrows(text: string)
    requires Templated(text)
    ensures Growth(text) >= STOCK_GROWTH
  {
    hide Growth, Utf8, Labels, IsIcon;
    var icons :| FromTemplate(text, icons);
    LabelsGrow();
    IconsGrow(icons);
    SizesOfAppend(Labels(), icons);
    GrowthOfPart(Labels() + icons, text);
  }

  ghost predicate OnTemplate(batch: seq<Stock>) { forall i :: 0 <= i < |batch| ==> Templated(batch[i].text) }

  lemma {:induction false} TextsStep(batch: seq<Stock>, last: Stock)
    ensures Growth(Texts(batch + [last])) == Growth(Texts(batch)) + Growth(last.text)
  {
    assert (batch + [last])[..|batch|] == batch;
    SizesOfAppend(Texts(batch), last.text);
  }

  lemma {:induction false} TextsGrow(batch: seq<Stock>)
    requires OnTemplate(batch)
    ensures Growth(Texts(batch)) >= STOCK_GROWTH * |batch|
  {
    hide Growth, Texts, Templated;
    if batch != [] {
      var front, last := batch[..|batch| - 1], batch[|batch| - 1];
      assert batch == front + [last];
      TextsGrow(front);
      StockGrows(last.text);
      TextsStep(front, last);
    }
  }

  /** The labels alone take the body of a well filled card over 20 KB: with two stocks from 19124 measured bytes on,
      within the 19 KB that the split allows. */
  lemma {:induction false} FullCardTooLong(post: Post, stocks: seq<Stock>, k: nat)
    requires post.Signed() && k < |post.Batches(stocks)| && OnTemplate(post.Batches(stocks)[k])
    requires CardSize(post.Base(), post.Batches(stocks)[k]) + STOCK_GROWTH * |post.Batches(stocks)[k]|
             > 20 * KILOBYTE - ENVELOPE_BYTES
    ensures Escaped(post.Sent(stocks, k)) > 20 * KILOBYTE
  {
    hide Escaped, Growth, Utf8, OnTemplate, Post.Signed, Post.Batches, Post.Sent, Post.Base, Bytes, Texts;
    BodyWithin20KB(post, stocks, k);
    TextsGrow(post.Batches(stocks)[k]);
  }

  // ----- cards over the limits -----

  function Fill(c: char, n: nat): (text: string)
    ensures |text| == n && forall i :: 0 <= i < n ==> text[i] == c
  {
    seq(n, _ => c)
  }

  lemma {:induction false} TwoBytes(a: Stock, b: Stock)
    ensures Bytes([a, b]) == Utf8(a.text) + Utf8(b.text) && Texts([a, b]) == a.text + b.text
  {
    assert [a, b][..1] == [a] && [a][..0] == [];
    assert Bytes([a]) == Utf8(a.text) && Texts([a]) == "" + a.text == a.text;
  }

  /** Two stocks that fit are one batch. */
  lemma {:induction false} OneBatch(post: Post, a: Stock, b: Stock)
    requires post.Base() + Utf8(a.text) + Utf8(b.text) <= MAX_BYTES
    ensures post.Batches([a, b]) == [[a, b]]
  {
    hide Utf8, Post.Base;
    TwoBytes(a, b);
    assert [a, b][0..2] == [a, b];
    assert IsFurthest(post.Base(), [a, b], 0, 2);
    FurthestIs(post.Base(), [a, b], 0, 2);
    assert Greedy(post.Base(), [a, b], 2) == [];
  }

  /** Two stocks can fill their card to the last byte; its message, the only one, is then over 19 KB by the envelope. */
  lemma {:induction false} OnlyCardOver(post: Post)
    requires post.Signed() && post.Base() <= MAX_BYTES
    ensures var a, b := Stock("a", Fill('x', MAX_BYTES - post.Base())), Stock("b", "");
            post.Batches([a, b]) == [[a, b]] && Utf8(post.Sent([a, b], 0)) == MAX_BYTES + ENVELOPE_BYTES
  {
    hide Utf8, Growth, Post.Signed, Post.Message, Post.Base, Greedy, Bytes, MeasuredCard;
    var a, b := Stock("a", Fill('x', MAX_BYTES - post.Base())), Stock("b", "");
    PrintableSizes(a.text);
    NoBytes();
    TwoBytes(a, b);
    OneBatch(post, a, b);
    MessageSizes(post, Suffix(1, 1), [a, b]);
    SuffixSizes(1, 1);
  }

  /** Two stocks with Chinese text that share a card within 19 KB, whose body is over 20 KB. */
  lemma {:induction false} BodyOver(post: Post)
    requires post.Signed() && post.Base() <= 18000
    ensures var text := Fill('中', (MAX_BYTES - post.Base()) / 6);
            var a, b := Stock("a", text), Stock("b", text);
            && post.Batches([a, b]) == [[a, b]] && Utf8(MeasuredCard(post.title, [a, b])) <= MAX_BYTES
            && Escaped(post.Sent([a, b], 0)) > 20 * KILOBYTE
  {
    hide Utf8, Growth, Escaped, Post.Signed, Post.Message, Post.Base, Greedy, Bytes, MeasuredCard, Texts;
    var text := Fill('中', (MAX_BYTES - post.Base()) / 6);
    var a, b := Stock("a", text), Stock("b", text);
    WideSizes(text);
    TwoBytes(a, b);
    OneBatch(post, a, b);
    MeasuredIs(post, [a, b]);
    SizesOfAppend(text, text);
    BodyWithin20KB(post, [a, b], 0);
  }
}
