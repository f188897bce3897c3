/** The two sizes of a JSON text: in UTF-8 with its characters as they are, and with every character outside printable
    ASCII written as an escape. In the texts measured here quotes, backslashes and control characters already stand as
    escapes, which are the same in both. */
module JsonText {

  /** The bytes of a character in UTF-8. */
  function Width(c: char): nat {
    var n := c as int;
    if n < 0x80 then 1 else if n < 0x800 then 2 else if n < 0x1_0000 then 3 else 4
  }

  /** The bytes of a character when it is escaped: one \u group, or two for a character outside the basic plane. */
  function EscapedWidth(c: char): nat {
    var n := c as int;
    if n < 0x7F then 1 else if n < 0x1_0000 then 6 else 12
  }

  function Utf8(text: string): nat {
    if text == "" then 0 else Utf8(text[..|text| - 1]) + Width(text[|text| - 1])
  }

  function Escaped(text: string): nat {
    if text == "" then 0 else Escaped(text[..|text| - 1]) + EscapedWidth(text[|text| - 1])
  }

  /** What escaping adds to a character. */
  function GrowthOf(c: char): (g: nat)
    ensures Width(c) + g == EscapedWidth(c)
  {
    var n := c as int;
    if n < 0x7F then 0 else if n < 0x80 then 5 else if n < 0x800 then 4 else if n < 0x1_0000 then 3 else 8
  }

  function Growth(text: string): nat {
    if text == "" then 0 else Growth(text[..|text| - 1]) + GrowthOf(text[|text| - 1])
  }

  lemma {:induction false} EscapedIs(text: string)
    ensures Escaped(text) == Utf8(text) + Growth(text)
  {
    if text != "" { EscapedIs(text[..|text| - 1]); }
  }

  lemma {:induction false} SizesOfAppend(s: string, t: string)
    ensures Utf8(s + t) == Utf8(s) + Utf8(t)
    ensures Growth(s + t) == Growth(s) + Growth(t)
  {
    if t == "" {
      assert s + t == s;
    } else {
      var front := t[..|t| - 1];
      assert (s + t)[..|s + t| - 1] == s + front;
      SizesOfAppend(s, front);
    }
  }

  /** Printable ASCII: one byte, escaped or not. */
  ghost predicate Printable(text: string) { forall i :: 0 <= i < |text| ==> 0x20 <= text[i] as int < 0x7F }

  /** Characters of three bytes, such as Chinese ones. */
  ghost predicate Wide(text: string) { forall i :: 0 <= i < |text| ==> 0x800 <= text[i] as int < 0x1_0000 }

  /** Two bytes, such as Latin letters with accents. */
  ghost predicate Accented(text: string) { forall i :: 0 <= i < |text| ==> 0x80 <= text[i] as int < 0x800 }

  /** Four bytes, outside the basic plane, such as most emoji. */
  ghost predicate Astral(text: string) { forall i :: 0 <= i < |text| ==> 0x1_0000 <= text[i] as int }

  lemma {:induction false} AccentedSizes(text: string)
    requires Accented(text)
    ensures Utf8(text) == 2 * |text| && Growth(text) == 4 * |text|
  {
    if text != "" { AccentedSizes(text[..|text| - 1]); }
  }

  lemma {:induction false} AstralSizes(text: string)
    requires Astral(text)
    ensures Utf8(text) == 4 * |text| && Growth(text) == 8 * |text|
  {
    if text != "" { AstralSizes(text[..|text| - 1]); }
  }

  lemma {:induction false} PrintableSizes(text: string)
    requires Printable(text)
    ensures Utf8(text) == |text| && Growth(text) == 0
  {
    if text != "" { PrintableSizes(text[..|text| - 1]); }
  }

  lemma {:induction false} WideSizes(text: string)
    requires Wide(text)
    ensures Utf8(text) == 3 * |text| && Growth(text) == 3 * |text|
  {
    if text != "" { WideSizes(text[..|text| - 1]); }
  }

  /** Escaping changes nothing exactly when every character is below 0x7F. */
  lemma {:induction false} GrowthIsNone(text: string)
    ensures Growth(text) == 0 <==> forall i :: 0 <= i < |text| ==> text[i] as int < 0x7F
  {
    if text != "" {
      var front := text[..|text| - 1];
      GrowthIsNone(front);
      assert text == front + [text[|text| - 1]];
      assert forall i :: 0 <= i < |front| ==> front[i] == text[i];
    }
  }

  lemma {:induction false} SizesOfChar(c: char)
    ensures Utf8([c]) == Width(c) && Growth([c]) == GrowthOf(c)
  {
    assert [c][..0] == "";
  }

  lemma {:induction false} WithoutOne(front: string, c: char, before: string, after: string)
    requires multiset(front + [c]) <= multiset(before + [c] + after)
    ensures multiset(front) <= multiset(before + after)
  {
    assert multiset(front + [c]) == multiset(front) + multiset{c};
    assert multiset(before + [c] + after) == multiset(before) + multiset{c} + multiset(after);
    assert multiset(before + after) == multiset(before) + multiset(after);
    forall x ensures multiset(front)[x] <= multiset(before + after)[x] {
      assert multiset(front + [c])[x] <= multiset(before + [c] + after)[x];
    }
  }

  lemma {:induction false} GrowthAround(before: string, c: char, after: string)
    ensures Growth(before + [c] + after) == Growth(before + after) + GrowthOf(c)
  {
    hide Growth, Utf8;
    SizesOfAppend(before + [c], after);
    SizesOfAppend(before, [c]);
    SizesOfAppend(before, after);
    SizesOfChar(c);
  }

  /** A text that has all the characters of another grows at least as much. */
  lemma {:induction false} GrowthOfPart(part: string, text: string)
    requires multiset(part) <= multiset(text)
    ensures Growth(part) <= Growth(text)
    decreases |part|
  {
    if part != "" {
      var front, c := part[..|part| - 1], part[|part| - 1];
      assert part == front + [c];
      assert c in multiset(part);
      var i :| 0 <= i < |text| && text[i] == c;
      var before, after := text[..i], text[i + 1..];
      assert text == before + [c] + after;
      WithoutOne(front, c, before, after);
      GrowthOfPart(front, before + after);
      GrowthAround(before, c, after);
    }
  }
}
