/** The pass that puts blank lines around Markdown tables before the text is rendered. */
module TableSpacing {

  /** The characters that str.strip removes. */
  predicate IsSpace(c: char) {
    var n := c as int;
    || 0x09 <= n <= 0x0D || 0x1C <= n <= 0x20 || n == 0x85 || n == 0xA0 || n == 0x1680
    || 0x2000 <= n <= 0x200A || n == 0x2028 || n == 0x2029 || n == 0x202F || n == 0x205F || n == 0x3000
  }

  function StripLeft(s: string): string {
    if s != "" && IsSpace(s[0]) then StripLeft(s[1..]) else s
  }

  function StripRight(s: string): string {
    if s != "" && IsSpace(s[|s| - 1]) then StripRight(s[..|s| - 1]) else s
  }

  function Strip(s: string): string { StripRight(StripLeft(s)) }

  predicate Blank(line: string) { Strip(line) == "" }

  predicate IsTable(line: string) {
    var stripped := Strip(line);
    stripped != "" && stripped[0] == '|' && stripped[|stripped| - 1] == '|'
  }

  /** A blank line is missing between two neighbours. */
  predicate Missing(line: string, next: string) {
    (IsTable(next) && !IsTable(line) && !Blank(line)) || (!IsTable(next) && IsTable(line) && !Blank(next))
  }

  /** The first `n` lines with blank lines put in. */
  function Spaced(lines: seq<string>, n: nat): (out: seq<string>)
    requires n <= |lines|
    ensures n > 0 ==> out != [] && out[|out| - 1] == lines[n - 1]
  {
    if n == 0 then []
    else
      Spaced(lines, n - 1)
      + (if n > 1 && Missing(lines[n - 2], lines[n - 1]) then [""] else [])
      + [lines[n - 1]]
  }

  method SpaceTables(lines: seq<string>) returns (processed: seq<string>)
    ensures processed == Spaced(lines, |lines|)
  {
    processed := [];
    var inTable := false;
    var i := 0;
    while i < |lines|
      invariant 0 <= i <= |lines| && processed == Spaced(lines, i)
      invariant inTable <==> i > 0 && IsTable(lines[i - 1])
    {
      var line := lines[i];
      var stripped := Strip(line);
      var isTableLine := |stripped| > 0 && stripped[0] == '|' && stripped[|stripped| - 1] == '|';
      if isTableLine && !inTable {
        if processed != [] && Strip(processed[|processed| - 1]) != "" {
          processed := processed + [""];
        }
        inTable := true;
      } else if !isTableLine && inTable {
        if stripped != "" {
          processed := processed + [""];
        }
        inTable := false;
      }
      processed := processed + [line];
      i := i + 1;
    }
  }

  // ----- what the pass guarantees -----

  ghost predicate WellSpaced(lines: seq<string>) {
    forall i :: 0 <= i < |lines| - 1 ==> !Missing(lines[i], lines[i + 1])
  }

  /** The lines from `a` up to `b` are a table that cannot be extended either way. */
  ghost predicate IsRun(lines: seq<string>, a: nat, b: nat) {
    && a < b <= |lines|
    && (forall i :: a <= i < b ==> IsTable(lines[i]))
    && (a > 0 ==> !IsTable(lines[a - 1]))
    && (b < |lines| ==> !IsTable(lines[b]))
  }

  ghost predicate Bounded(lines: seq<string>, a: nat, b: nat)
    requires a <= b <= |lines|
  {
    (a == 0 || Blank(lines[a - 1])) && (b == |lines| || Blank(lines[b]))
  }

  lemma {:induction false} RunBackTo(lines: seq<string>, i: nat) returns (a: nat)
    requires i < |lines| && IsTable(lines[i])
    ensures a <= i && (forall k :: a <= k <= i ==> IsTable(lines[k])) && (a > 0 ==> !IsTable(lines[a - 1]))
  {
    if i > 0 && IsTable(lines[i - 1]) { a := RunBackTo(lines, i - 1); } else { a := i; }
  }

  lemma {:induction false} RunUpTo(lines: seq<string>, i: nat) returns (b: nat)
    requires i < |lines| && IsTable(lines[i])
    ensures i < b <= |lines| && (forall k :: i <= k < b ==> IsTable(lines[k])) && (b < |lines| ==> !IsTable(lines[b]))
    decreases |lines| - i
  {
    if i + 1 < |lines| && IsTable(lines[i + 1]) { b := RunUpTo(lines, i + 1); } else { b := i + 1; }
  }

  /** Nothing is missing exactly when every maximal run of table lines is bounded by a blank line or the edge of
      the document on both sides. */
  lemma {:induction false} WellSpacedMeansBounded(lines: seq<string>)
    ensures WellSpaced(lines) <==> forall a: nat, b: nat :: IsRun(lines, a, b) ==> Bounded(lines, a, b)
  {
    if WellSpaced(lines) {
      forall a: nat, b: nat | IsRun(lines, a, b) ensures Bounded(lines, a, b) {
        if a > 0 { assert !Missing(lines[a - 1], lines[a - 1 + 1]); }
        if b < |lines| { assert !Missing(lines[b - 1], lines[b - 1 + 1]); }
      }
    }
    if forall a: nat, b: nat :: IsRun(lines, a, b) ==> Bounded(lines, a, b) {
      forall i | 0 <= i < |lines| - 1 ensures !Missing(lines[i], lines[i + 1]) {
        if IsTable(lines[i]) && !IsTable(lines[i + 1]) {
          var a := RunBackTo(lines, i);
          assert IsRun(lines, a, i + 1);
        } else if !IsTable(lines[i]) && IsTable(lines[i + 1]) {
          var b := RunUpTo(lines, i + 1);
          assert IsRun(lines, i + 1, b);
        }
      }
    }
  }

  lemma {:induction false} WellSpacedSnoc(s: seq<string>, x: string)
    ensures WellSpaced(s + [x]) <==> WellSpaced(s) && (s != [] ==> !Missing(s[|s| - 1], x))
  {
    var t := s + [x];
    assert forall i :: 0 <= i < |s| ==> t[i] == s[i];
    if WellSpaced(t) {
      forall i | 0 <= i < |s| - 1 ensures !Missing(s[i], s[i + 1]) { assert !Missing(t[i], t[i + 1]); }
      if s != [] { assert !Missing(t[|s| - 1], t[|s| - 1 + 1]); }
    }
  }

  lemma {:induction false} EmptyIsBlank(line: string)
    ensures !Missing(line, "") && !Missing("", line)
  {
  }

  lemma {:induction false} SpacedIsWellSpaced(lines: seq<string>, n: nat)
    requires n <= |lines|
    ensures WellSpaced(Spaced(lines, n))
  {
    if n > 0 {
      SpacedIsWellSpaced(lines, n - 1);
      var out, line := Spaced(lines, n - 1), lines[n - 1];
      if n > 1 && Missing(lines[n - 2], line) {
        EmptyIsBlank(out[|out| - 1]);
        EmptyIsBlank(line);
        WellSpacedSnoc(out, "");
        WellSpacedSnoc(out + [""], line);
      } else {
        assert out + [] == out;
        WellSpacedSnoc(out, line);
      }
    }
  }

  /** `wide` is `lines` with empty lines put in. */
  ghost predicate Widens(lines: seq<string>, wide: seq<string>) {
    if wide == [] then lines == []
    else
      var front, last := wide[..|wide| - 1], wide[|wide| - 1];
      || (lines != [] && lines[|lines| - 1] == last && Widens(lines[..|lines| - 1], front))
      || (last == "" && Widens(lines, front))
  }

  lemma {:induction false} WidensBoth(lines: seq<string>, wide: seq<string>, x: string)
    requires Widens(lines, wide)
    ensures Widens(lines + [x], wide + [x])
    ensures x == "" ==> Widens(lines, wide + [x])
  {
  }

  lemma {:induction false} SpacedWidens(lines: seq<string>, n: nat)
    requires n <= |lines|
    ensures Widens(lines[..n], Spaced(lines, n))
  {
    if n > 0 {
      SpacedWidens(lines, n - 1);
      var out, line := Spaced(lines, n - 1), lines[n - 1];
      assert lines[..n] == lines[..n - 1] + [line];
      if n > 1 && Missing(lines[n - 2], line) {
        WidensBoth(lines[..n - 1], out, "");
        WidensBoth(lines[..n - 1], out + [""], line);
      } else {
        assert out + [] == out;
        WidensBoth(lines[..n - 1], out, line);
      }
    }
  }

  lemma {:induction false} SpacedPrefix(lines: seq<string>, m: nat, n: nat)
    requires n <= m <= |lines|
    ensures Spaced(lines[..m], n) == Spaced(lines, n)
  {
    if n > 0 { SpacedPrefix(lines, m, n - 1); }
  }

  /** Lines in which nothing is missing stay as they are. */
  lemma {:induction false} SpacedKeeps(lines: seq<string>, n: nat)
    requires n <= |lines| && WellSpaced(lines)
    ensures Spaced(lines, n) == lines[..n]
  {
    if n > 0 {
      SpacedKeeps(lines, n - 1);
      assert n > 1 ==> !Missing(lines[n - 2], lines[n - 2 + 1]);
    }
  }

  /** No other way of putting in empty lines that leaves nothing missing needs fewer. */
  lemma {:induction false} SpacedIsShortest(lines: seq<string>, wide: seq<string>)
    requires Widens(lines, wide) && WellSpaced(wide)
    ensures |Spaced(lines, |lines|)| <= |wide|
    decreases |wide|
  {
    if wide != [] {
      hide Missing, WellSpaced;
      var n, front, last := |lines|, wide[..|wide| - 1], wide[|wide| - 1];
      assert wide == front + [last];
      WellSpacedSnoc(front, last);
      if n > 0 && lines[n - 1] == last && Widens(lines[..n - 1], front) {
        SpacedPrefix(lines, n - 1, n - 1);
        SpacedIsShortest(lines[..n - 1], front);
        if n > 1 && Missing(lines[n - 2], last) {
          GapInside(lines[..n - 1], front, last);
          SpacedIsShortest(lines[..n - 1], front[..|front| - 1]);
        }
      } else {
        SpacedIsShortest(lines, front);
      }
    }
  }

  /** Where a blank line is missing, the wider text has put one in. */
  lemma {:induction false} GapInside(lines: seq<string>, wide: seq<string>, next: string)
    requires lines != [] && Widens(lines, wide) && WellSpaced(wide)
    requires Missing(lines[|lines| - 1], next) && (wide != [] ==> !Missing(wide[|wide| - 1], next))
    ensures wide != [] && Widens(lines, wide[..|wide| - 1]) && WellSpaced(wide[..|wide| - 1])
  {
  }

  /** The pass only puts in empty lines, bounds every table, puts in as few lines as can be, and changes nothing
      exactly when every table was bounded before. */
  lemma {:induction false} SpacingIs(lines: seq<string>)
    ensures var out := Spaced(lines, |lines|);
            && Widens(lines, out) && WellSpaced(out)
            && (forall wide :: Widens(lines, wide) && WellSpaced(wide) ==> |out| <= |wide|)
            && (out == lines <==> WellSpaced(lines))
            && Spaced(out, |out|) == out
  {
    var out := Spaced(lines, |lines|);
    assert lines[..|lines|] == lines && out[..|out|] == out;
    SpacedWidens(lines, |lines|);
    SpacedIsWellSpaced(lines, |lines|);
    SpacedKeeps(out, |out|);
    if WellSpaced(lines) { SpacedKeeps(lines, |lines|); }
    forall wide | Widens(lines, wide) && WellSpaced(wide) ensures |out| <= |wide| {
      SpacedIsShortest(lines, wide);
    }
  }

  // ----- on the whole text -----

  const NL := '\n'

  function Split(text: string): (lines: seq<string>)
    ensures lines != []
  {
    if text == "" then [""]
    else
      var lines, c := Split(text[..|text| - 1]), text[|text| - 1];
      if c == NL then lines + [""] else lines[|lines| - 1 := lines[|lines| - 1] + [c]]
  }

  function Join(lines: seq<string>): string
    requires lines != []
  {
    if |lines| == 1 then lines[0] else Join(lines[..|lines| - 1]) + [NL] + lines[|lines| - 1]
  }

  ghost predicate OneLine(line: string) { NL !in line }

  ghost predicate AllOneLine(lines: seq<string>) { forall i :: 0 <= i < |lines| ==> OneLine(lines[i]) }

  lemma {:induction false} SplitLines(text: string)
    ensures AllOneLine(Split(text))
  {
    if text != "" { SplitLines(text[..|text| - 1]); }
  }

  /** Joining the lines of a text gives the text back. */
  lemma {:induction false} JoinSplit(text: string)
    ensures Join(Split(text)) == text
  {
    if text != "" {
      var front, c := text[..|text| - 1], text[|text| - 1];
      JoinSplit(front);
      var lines := Split(front);
      assert text == front + [c];
      if c == NL {
        assert (lines + [""])[..|lines|] == lines;
      } else {
        JoinLonger(lines, c);
      }
    }
  }

  lemma {:induction false} JoinLonger(lines: seq<string>, c: char)
    requires lines != []
    ensures Join(lines[|lines| - 1 := lines[|lines| - 1] + [c]]) == Join(lines) + [c]
  {
  }

  lemma {:induction false} SplitLonger(text: string, line: string)
    requires OneLine(line)
    ensures var lines := Split(text); Split(text + line) == lines[|lines| - 1 := lines[|lines| - 1] + line]
    decreases |line|
  {
    var lines := Split(text);
    if line == "" {
      assert text + line == text && lines[|lines| - 1] + line == lines[|lines| - 1];
    } else {
      var front, c := line[..|line| - 1], line[|line| - 1];
      SplitLonger(text, front);
      assert (text + line)[..|text + line| - 1] == text + front;
      assert lines[|lines| - 1] + front + [c] == lines[|lines| - 1] + line;
      assert c in line;
    }
  }

  lemma {:induction false} SplitNextLine(text: string, line: string)
    requires OneLine(line)
    ensures Split(text + [NL] + line) == Split(text) + [line]
  {
    var lines := Split(text);
    assert (text + [NL])[..|text|] == text;
    assert Split(text + [NL]) == lines + [""];
    SplitLonger(text + [NL], line);
    assert "" + line == line;
  }

  /** Splitting joined lines gives the lines back. */
  lemma {:induction false} SplitJoin(lines: seq<string>)
    requires lines != [] && AllOneLine(lines)
    ensures Split(Join(lines)) == lines
  {
    var n := |lines|;
    if n == 1 {
      SplitLonger("", lines[0]);
      assert "" + lines[0] == lines[0];
    } else {
      var front := lines[..n - 1];
      SplitJoin(front);
      SplitNextLine(Join(front), lines[n - 1]);
      assert front + [lines[n - 1]] == lines;
    }
  }

  function Normalize(text: string): string { Join(SpacedText(text)) }

  function SpacedText(text: string): (out: seq<string>)
    ensures out != []
  {
    Spaced(Split(text), |Split(text)|)
  }

  lemma {:induction false} SpacedOneLine(lines: seq<string>, n: nat)
    requires n <= |lines| && AllOneLine(lines)
    ensures AllOneLine(Spaced(lines, n))
  {
    if n > 0 { SpacedOneLine(lines, n - 1); }
  }

  /** On the text: the lines of the result are the spaced lines, normalising again changes nothing, and a text
      whose tables are bounded comes out as it went in. */
  lemma {:induction false} NormalizeIs(text: string)
    ensures Split(Normalize(text)) == SpacedText(text)
    ensures Normalize(Normalize(text)) == Normalize(text)
    ensures Normalize(text) == text <==> WellSpaced(Split(text))
  {
    SplitLines(text);
    SpacedOneLine(Split(text), |Split(text)|);
    SplitJoin(SpacedText(text));
    SpacingIs(Split(text));
    JoinSplit(text);
  }

  // ----- what stripping leaves -----

  /** The line without the white space around it is what stands from `a` up to `b`. */
  ghost predicate CoreIs(line: string, a: nat, b: nat) {
    && a <= b <= |line|
    && (forall i :: 0 <= i < a ==> IsSpace(line[i]))
    && (forall i :: b <= i < |line| ==> IsSpace(line[i]))
    && (a < b ==> !IsSpace(line[a]) && !IsSpace(line[b - 1]))
  }

  lemma {:induction false} StripLeftIs(s: string) returns (a: nat)
    ensures a <= |s| && StripLeft(s) == s[a..] && (forall i :: 0 <= i < a ==> IsSpace(s[i]))
    ensures a < |s| ==> !IsSpace(s[a])
  {
    if s != "" && IsSpace(s[0]) {
      var rest := StripLeftIs(s[1..]);
      a := rest + 1;
      assert s[1..][rest..] == s[a..];
    } else {
      a := 0;
    }
  }

  lemma {:induction false} StripRightIs(s: string) returns (b: nat)
    ensures b <= |s| && StripRight(s) == s[..b] && (forall i :: b <= i < |s| ==> IsSpace(s[i]))
    ensures 0 < b ==> !IsSpace(s[b - 1])
  {
    if s != "" && IsSpace(s[|s| - 1]) {
      b := StripRightIs(s[..|s| - 1]);
      assert s[..|s| - 1][..b] == s[..b];
    } else {
      b := |s|;
    }
  }

  /** Stripping takes away all white space on both sides and nothing else. */
  lemma {:induction false} StripIs(line: string) returns (a: nat, b: nat)
    ensures CoreIs(line, a, b) && Strip(line) == line[a..b]
  {
    a := StripLeftIs(line);
    var n := StripRightIs(line[a..]);
    b := a + n;
    assert line[a..][..n] == line[a..b];
    forall i | b <= i < |line| ensures IsSpace(line[i]) { assert line[i] == line[a..][i - a]; }
    if n > 0 { assert line[b - 1] == line[a..][n - 1]; }
  }

  /** There is only one such part, unless the line is nothing but white space. */
  lemma {:induction false} OneCore(line: string, a: nat, b: nat, c: nat, d: nat)
    requires CoreIs(line, a, b) && CoreIs(line, c, d)
    ensures line[a..b] == line[c..d]
  {
    if a < b {
      assert !IsSpace(line[a]) && !IsSpace(line[b - 1]);
      if c < d { assert !IsSpace(line[c]) && !IsSpace(line[d - 1]); }
    }
  }

  /** A line is blank when it is nothing but white space, and a table line when the first and the last character
      that are not white space are bars. */
  lemma {:induction false} LinesTell(line: string)
    ensures Blank(line) <==> forall i :: 0 <= i < |line| ==> IsSpace(line[i])
    ensures IsTable(line) <==> exists a, b :: 0 <= a < b && CoreIs(line, a, b) && line[a] == '|' && line[b - 1] == '|'
  {
    var a, b := StripIs(line);
    if c, d :| 0 <= c < d && CoreIs(line, c, d) && line[c] == '|' && line[d - 1] == '|' {
      OneCore(line, a, b, c, d);
      assert Strip(line)[0] == line[c..d][0] && Strip(line)[|Strip(line)| - 1] == line[c..d][d - c - 1];
    }
    if IsTable(line) { assert line[a] == Strip(line)[0] && line[b - 1] == Strip(line)[|Strip(line)| - 1]; }
  }
}
