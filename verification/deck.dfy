/**
 * Decks: the YDK text a deck file is written in, the ydke:// url a deck
 * message may carry instead, how a deck is built from a message, and the
 * counts of a deck's profile.
 */
module Decks {
  import opened Wrappers
  import opened Js
  import opened Errors
  import opened Interface
  import opened Counting

  /** A card code as a Uint32Array element holds it. */
  type Code = c: nat | c < 0x1_0000_0000

  const Two32: nat := 0x1_0000_0000

  /** The conversion Uint32Array.from applies to a parsed number: NaN becomes 0, anything else wraps modulo 2^32. */
  function ToUint32(x: JsInt): Code {
    if x.NaN? then 0 else x.value % Two32
  }

  /** A deck's codes by section (ydke's TypedDeck). */
  datatype TypedDeck = TypedDeck(main: seq<Code>, extra: seq<Code>, side: seq<Code>)

  // ---------------------------------------------------------------------------
  // YDK text to record
  // ---------------------------------------------------------------------------

  /** The lines of a YDK text are separated by "\r", "\n" or "\r\n"; the regular expression tries "\r" first, so each of the two breaks on its own. */
  const LineBreaks: set<char> := {'\r', '\n'}

  /** The section being read and the codes read so far. */
  datatype Reader = Reader(section: string, main: seq<Code>, extra: seq<Code>, side: seq<Code>)

  const Unsectioned := Reader("", [], [], [])

  /** A line starting with "#" or "!" names a section. */
  predicate IsHeader(line: string) {
    line != [] && (line[0] == '#' || line[0] == '!')
  }

  predicate IsSection(name: string) {
    name == "main" || name == "extra" || name == "side"
  }

  /** The codes added to the current section; under any other section they are dropped. */
  function WithCodes(r: Reader, cs: seq<Code>): Reader {
    if r.section == "side" then r.(side := r.side + cs)
    else if r.section == "extra" then r.(extra := r.extra + cs)
    else if r.section == "main" then r.(main := r.main + cs)
    else r
  }

  /** One line: a header switches to the section it names; any other non-blank line is a code for the current section. */
  function ReadLine(r: Reader, line: string): Reader {
    if IsHeader(line) then r.(section := line[1..])
    else if |Trim(line)| > 0 then WithCodes(r, [ToUint32(ParseInt(line))])
    else r
  }

  /** The lines read in order, from r. */
  function ReadLines(r: Reader, lines: seq<string>): Reader
    decreases |lines|
  {
    if lines == [] then r else ReadLine(ReadLines(r, lines[..|lines| - 1]), lines[|lines| - 1])
  }

  /** The record ydkToRecord reads from a YDK text. */
  function RecordOf(ydk: string): TypedDeck {
    var r := ReadLines(Unsectioned, Split(ydk, LineBreaks));
    TypedDeck(r.main, r.extra, r.side)
  }

  /** Deck.ydkToRecord: each line in turn updates the current section or pushes a code onto its list. */
  method YdkToRecord(ydk: string) returns (record: TypedDeck)
    ensures record == RecordOf(ydk)
  {
    var main: seq<Code>, extra: seq<Code>, side: seq<Code> := [], [], [];
    var currentSection := "";
    var lines := Split(ydk, LineBreaks);
    for i := 0 to |lines|
      invariant ReadLines(Unsectioned, lines[..i]) == Reader(currentSection, main, extra, side)
    {
      var line := lines[i];
      ReadLinesStep(Unsectioned, lines, i);
      if IsHeader(line) {
        currentSection := line[1..];
        continue;
      }
      if |Trim(line)| > 0 {
        var code := ToUint32(ParseInt(line));
        if currentSection == "side" {
          side := side + [code];
        } else if currentSection == "extra" {
          extra := extra + [code];
        } else if currentSection == "main" {
          main := main + [code];
        }
      }
    }
    assert lines[..|lines|] == lines;
    record := TypedDeck(main, extra, side);
  }

  /** Reading two runs of lines one after the other is reading their concatenation. */
  lemma {:induction false} ReadLinesAppend(r: Reader, a: seq<string>, b: seq<string>)
    ensures ReadLines(r, a + b) == ReadLines(ReadLines(r, a), b)
    decreases |b|
  {
    if b == [] {
      assert a + b == a;
    } else {
      var init := b[..|b| - 1];
      assert (a + b)[..|a + b| - 1] == a + init;
      assert (a + b)[|a + b| - 1] == b[|b| - 1];
      ReadLinesAppend(r, a, init);
    }
  }

  /**
   * Lines under no section, or under a section other than main, extra and
   * side, add nothing until a header names one of the three.
   */
  lemma {:induction false} DroppedOutsideSections(r: Reader, lines: seq<string>)
    requires !IsSection(r.section)
    requires forall k :: 0 <= k < |lines| ==> !IsHeader(lines[k])
    ensures ReadLines(r, lines) == r
    decreases |lines|
  {
    if lines != [] {
      DroppedOutsideSections(r, lines[..|lines| - 1]);
    }
  }

  /** The codes added to a section come after the ones it held; the other sections keep theirs. */
  lemma WithCodesGrows(r: Reader, cs: seq<Code>)
    ensures var q := WithCodes(r, cs);
            && r.main <= q.main && r.extra <= q.extra && r.side <= q.side
            && |q.main| + |q.extra| + |q.side| <= |r.main| + |r.extra| + |r.side| + |cs|
  {
  }

  /** One line takes no code back and adds at most one. */
  lemma ReadLineGrows(r: Reader, line: string)
    ensures var q := ReadLine(r, line);
            && r.main <= q.main && r.extra <= q.extra && r.side <= q.side
            && |q.main| + |q.extra| + |q.side| <= |r.main| + |r.extra| + |r.side| + 1
  {
    if !IsHeader(line) && |Trim(line)| > 0 {
      WithCodesGrows(r, [ToUint32(ParseInt(line))]);
    }
  }

  /** Reading never takes a code back, and each line adds at most one code. */
  lemma {:induction false} ReadLinesGrows(r: Reader, lines: seq<string>)
    ensures var q := ReadLines(r, lines);
            && r.main <= q.main && r.extra <= q.extra && r.side <= q.side
            && |q.main| + |q.extra| + |q.side| <= |r.main| + |r.extra| + |r.side| + |lines|
    decreases |lines|
  {
    if lines != [] {
      var init := lines[..|lines| - 1];
      var p := ReadLines(r, init);
      ReadLinesGrows(r, init);
      ReadLineGrows(p, lines[|lines| - 1]);
      var q := ReadLine(p, lines[|lines| - 1]);
      PrefixTrans(r.main, p.main, q.main);
      PrefixTrans(r.extra, p.extra, q.extra);
      PrefixTrans(r.side, p.side, q.side);
    }
  }

  lemma PrefixTrans<T>(a: seq<T>, b: seq<T>, c: seq<T>)
    requires a <= b && b <= c
    ensures a <= c
  {
    assert c[..|b|][..|a|] == c[..|a|];
  }

  // ---------------------------------------------------------------------------
  // Record to YDK text
  // ---------------------------------------------------------------------------

  const CreatedBy := "#created by Akira bot"
  const MainHeader := "#main"
  const ExtraHeader := "#extra"
  const SideHeader := "!side"

  /** Each code in decimal, followed by a line break. */
  function CodeLines(cs: seq<nat>): string
    decreases |cs|
  {
    if cs == [] then "" else NatToString(cs[0]) + "\n" + CodeLines(cs[1..])
  }

  /** Text laid out as recordToYdk lays it out: two opening headers, the main codes, a header, the extra codes, a header, the side codes. */
  function Layout(h1: string, h2: string, h3: string, h4: string, main: seq<nat>, extra: seq<nat>, side: seq<nat>): string {
    h1 + "\n" + (h2 + "\n") + CodeLines(main) + (h3 + "\n") + CodeLines(extra) + (h4 + "\n") + CodeLines(side)
  }

  /** The text recordToYdk writes. */
  function YdkText(record: TypedDeck): string {
    Layout(CreatedBy, MainHeader, ExtraHeader, SideHeader, record.main, record.extra, record.side)
  }

  lemma {:induction false} CodeLinesAppend(a: seq<nat>, b: seq<nat>)
    ensures CodeLines(a + b) == CodeLines(a) + CodeLines(b)
    decreases |a|
  {
    if a == [] {
      assert a + b == b;
    } else {
      assert (a + b)[1..] == a[1..] + b;
      CodeLinesAppend(a[1..], b);
    }
  }

  /** Writing the codes of `cs` after those already written. */
  method AppendCodes(ydk: string, cs: seq<Code>) returns (out: string)
    ensures out == ydk + CodeLines(cs)
  {
    out := ydk;
    for i := 0 to |cs|
      invariant out == ydk + CodeLines(cs[..i])
    {
      CodeLinesAppend(cs[..i], [cs[i]]);
      assert cs[..i + 1] == cs[..i] + [cs[i]];
      out := out + (NatToString(cs[i]) + "\n");
    }
    assert cs[..|cs|] == cs;
  }

  /** Deck.recordToYdk. */
  method RecordToYdk(record: TypedDeck) returns (ydk: string)
    ensures ydk == YdkText(record)
  {
    ydk := CreatedBy + "\n" + (MainHeader + "\n");
    ydk := AppendCodes(ydk, record.main);
    ydk := ydk + (ExtraHeader + "\n");
    ydk := AppendCodes(ydk, record.extra);
    ydk := ydk + (SideHeader + "\n");
    ydk := AppendCodes(ydk, record.side);
  }

  // ---------------------------------------------------------------------------
  // Round trip
  // ---------------------------------------------------------------------------

  /** The decimal text of each code, one per line. */
  function CodeStrings(cs: seq<nat>): seq<string>
    decreases |cs|
  {
    if cs == [] then [] else [NatToString(cs[0])] + CodeStrings(cs[1..])
  }

  lemma {:induction false} CodeStringsAt(cs: seq<nat>)
    ensures |CodeStrings(cs)| == |cs|
    ensures forall k :: 0 <= k < |cs| ==> CodeStrings(cs)[k] == NatToString(cs[k])
    decreases |cs|
  {
    if cs != [] {
      CodeStringsAt(cs[1..]);
    }
  }

  lemma DigitsHaveNoBreaks(s: string)
    requires AllDigits(s)
    ensures NoneOf(s, LineBreaks)
  {
    assert forall i :: 0 <= i < |s| ==> IsDigit(s[i]);
  }

  /** A code's decimal text is its own trim and is not blank. */
  lemma DigitsTrim(s: string)
    requires AllDigits(s) && s != []
    ensures |Trim(s)| > 0
  {
    assert forall i :: 0 <= i < |s| ==> IsDigit(s[i]);
    TrimNoWhitespace(s);
  }

  /** A code's line, then the rest: the split starts with the code's text. */
  lemma SplitCodeLine(c: nat, tail: string)
    ensures Split(NatToString(c) + "\n" + tail, LineBreaks) == [NatToString(c)] + Split(tail, LineBreaks)
  {
    DigitsHaveNoBreaks(NatToString(c));
    SplitCons(NatToString(c), '\n', tail, LineBreaks);
  }

  lemma CodeLinesCons(cs: seq<nat>, rest: string)
    requires cs != []
    ensures CodeLines(cs) + rest == NatToString(cs[0]) + "\n" + (CodeLines(cs[1..]) + rest)
  {
  }

  /** The code lines split back into the codes' texts. */
  lemma {:induction false} SplitCodeLines(cs: seq<nat>, rest: string)
    ensures Split(CodeLines(cs) + rest, LineBreaks) == CodeStrings(cs) + Split(rest, LineBreaks)
    decreases |cs|
  {
    if cs == [] {
      assert CodeLines(cs) + rest == rest;
    } else {
      CodeLinesCons(cs, rest);
      SplitCodeLine(cs[0], CodeLines(cs[1..]) + rest);
      SplitCodeLines(cs[1..], rest);
    }
  }

  /** A code's decimal text parses back to the code. */
  lemma CodeParses(c: Code)
    ensures ToUint32(ParseInt(NatToString(c))) == c
  {
    var line := NatToString(c);
    assert ParseInt(line) == Num(c) by {
      ParseIntOfNatToString(c, "");
      assert line + "" == line;
    }
    ToUint32OfCode(c);
  }

  /** A number that fits in 32 bits is kept as it is. */
  lemma ToUint32OfCode(c: Code)
    ensures ToUint32(Num(c)) == c
  {
  }

  /** A code's decimal text is neither a header nor blank. */
  lemma CodeLineIsCode(c: nat)
    ensures !IsHeader(NatToString(c)) && |Trim(NatToString(c))| > 0
  {
    var line := NatToString(c);
    assert IsDigit(line[0]);
    DigitsTrim(line);
  }

  /** A line that reads as the code c: neither a header nor blank, and parsing to c. */
  predicate IsCodeLine(line: string, c: Code) {
    !IsHeader(line) && |Trim(line)| > 0 && ToUint32(ParseInt(line)) == c
  }

  /** One more line is one more step of reading. */
  lemma ReadLinesSnoc(r: Reader, lines: seq<string>, line: string)
    ensures ReadLines(r, lines + [line]) == ReadLine(ReadLines(r, lines), line)
  {
    assert (lines + [line])[..|lines|] == lines;
  }

  /** Reading one line further into a list. */
  lemma ReadLinesStep(r: Reader, lines: seq<string>, i: nat)
    requires i < |lines|
    ensures ReadLines(r, lines[..i + 1]) == ReadLine(ReadLines(r, lines[..i]), lines[i])
  {
    assert lines[..i + 1][..i] == lines[..i];
  }

  lemma Snoc<T>(s: seq<T>)
    requires s != []
    ensures s[..|s| - 1] + [s[|s| - 1]] == s
  {
  }

  /** Adding codes one at a time. */
  lemma WithCodesSnoc(r: Reader, cs: seq<Code>, c: Code)
    ensures WithCodes(WithCodes(r, cs), [c]) == WithCodes(r, cs + [c])
  {
    assert r.main + cs + [c] == r.main + (cs + [c]);
    assert r.extra + cs + [c] == r.extra + (cs + [c]);
    assert r.side + cs + [c] == r.side + (cs + [c]);
  }

  /** Lines each of which reads as its code, under one of the three sections, add those codes in order. */
  lemma {:induction false} ReadEachCode(r: Reader, lines: seq<string>, cs: seq<Code>)
    requires IsSection(r.section) && |lines| == |cs|
    requires forall k :: 0 <= k < |cs| ==> IsCodeLine(lines[k], cs[k])
    ensures ReadLines(r, lines) == WithCodes(r, cs)
    decreases |cs|
  {
    if cs == [] {
      assert r.main + cs == r.main && r.extra + cs == r.extra && r.side + cs == r.side;
    } else {
      var n := |cs| - 1;
      Snoc(lines);
      Snoc(cs);
      ReadLinesSnoc(r, lines[..n], lines[n]);
      ReadEachCode(r, lines[..n], cs[..n]);
      assert IsCodeLine(lines[n], cs[n]);
      WithCodesSnoc(r, cs[..n], cs[n]);
    }
  }

  /** Reading the codes' texts under one of the three sections adds exactly those codes to it. */
  lemma ReadCodeStrings(r: Reader, cs: seq<Code>)
    requires IsSection(r.section)
    ensures ReadLines(r, CodeStrings(cs)) == WithCodes(r, cs)
  {
    var lines := CodeStrings(cs);
    CodeStringsAt(cs);
    forall k | 0 <= k < |cs|
      ensures IsCodeLine(lines[k], cs[k])
    {
      CodeLineIsCode(cs[k]);
      CodeParses(cs[k]);
    }
    ReadEachCode(r, lines, cs);
  }

  /** A header line, then the rest: the split starts with the header. */
  lemma SplitHeader(h: string, rest: string)
    requires NoneOf(h, LineBreaks)
    ensures Split(h + "\n" + rest, LineBreaks) == [h] + Split(rest, LineBreaks)
  {
    SplitCons(h, '\n', rest, LineBreaks);
  }

  /** A header line, then codes, then the rest. */
  lemma SplitSection(h: string, cs: seq<nat>, rest: string)
    requires NoneOf(h, LineBreaks)
    ensures Split(h + "\n" + (CodeLines(cs) + rest), LineBreaks) == [h] + CodeStrings(cs) + Split(rest, LineBreaks)
  {
    SplitHeader(h, CodeLines(cs) + rest);
    SplitCodeLines(cs, rest);
  }

  /** The layout's pieces, concatenated left to right, are the same pieces nested to the right. */
  lemma NestLayout<T>(h1: seq<T>, h2: seq<T>, m: seq<T>, h3: seq<T>, e: seq<T>, h4: seq<T>, sd: seq<T>)
    ensures h1 + h2 + m + h3 + e + h4 + sd == h1 + (h2 + (m + (h3 + (e + (h4 + (sd + []))))))
  {
    assert sd + [] == sd;
  }

  /** Five runs concatenated left to right are the same runs nested to the right. */
  lemma NestRuns<T>(a: seq<T>, b: seq<T>, c: seq<T>, d: seq<T>, e: seq<T>)
    ensures a + b + c + d + e == a + (b + (c + (d + e)))
  {
  }

  /** An empty text is one empty line. */
  lemma SplitNothing()
    ensures Split("", LineBreaks) == [""]
  {
  }

  /** The lines of a text laid out as recordToYdk lays it out, whatever the header texts. */
  lemma SplitLayout(h1: string, h2: string, h3: string, h4: string, main: seq<nat>, extra: seq<nat>, side: seq<nat>)
    requires NoneOf(h1, LineBreaks) && NoneOf(h2, LineBreaks) && NoneOf(h3, LineBreaks) && NoneOf(h4, LineBreaks)
    ensures Split(Layout(h1, h2, h3, h4, main, extra, side), LineBreaks)
         == [h1] + ([h2] + CodeStrings(main)) + ([h3] + CodeStrings(extra)) + ([h4] + CodeStrings(side)) + [""]
  {
    var s3 := h4 + "\n" + (CodeLines(side) + "");
    var s2 := h3 + "\n" + (CodeLines(extra) + s3);
    var s1 := h2 + "\n" + (CodeLines(main) + s2);
    var l3 := [h4] + CodeStrings(side) + [""];
    var l2 := [h3] + CodeStrings(extra) + l3;
    var l1 := [h2] + CodeStrings(main) + l2;
    assert Split(s3, LineBreaks) == l3 by {
      SplitSection(h4, side, "");
      SplitNothing();
    }
    assert Split(s2, LineBreaks) == l2 by {
      SplitSection(h3, extra, s3);
    }
    assert Split(s1, LineBreaks) == l1 by {
      SplitSection(h2, main, s2);
    }
    assert Split(h1 + "\n" + s1, LineBreaks) == [h1] + l1 by {
      SplitHeader(h1, s1);
    }
    assert Layout(h1, h2, h3, h4, main, extra, side) == h1 + "\n" + s1 by {
      NestLayout(h1 + "\n", h2 + "\n", CodeLines(main), h3 + "\n", CodeLines(extra), h4 + "\n", CodeLines(side));
    }
    NestRuns([h1], [h2] + CodeStrings(main), [h3] + CodeStrings(extra), [h4] + CodeStrings(side), [""]);
  }

  /** The four headers recordToYdk writes are single lines. */
  lemma HeadersAreLines()
    ensures NoneOf(CreatedBy, LineBreaks) && NoneOf(MainHeader, LineBreaks)
    ensures NoneOf(ExtraHeader, LineBreaks) && NoneOf(SideHeader, LineBreaks)
  {
  }

  /** The lines of the text recordToYdk writes. */
  lemma YdkLines(record: TypedDeck)
    ensures Split(YdkText(record), LineBreaks)
         == [CreatedBy] + ([MainHeader] + CodeStrings(record.main)) + ([ExtraHeader] + CodeStrings(record.extra))
            + ([SideHeader] + CodeStrings(record.side)) + [""]
  {
    HeadersAreLines();
    SplitLayout(CreatedBy, MainHeader, ExtraHeader, SideHeader, record.main, record.extra, record.side);
  }

  /** A header, then the texts of codes: the header's section, with those codes added to it. */
  lemma ReadSection(r: Reader, h: string, cs: seq<Code>)
    requires IsHeader(h) && IsSection(h[1..])
    ensures ReadLines(r, [h] + CodeStrings(cs)) == WithCodes(r.(section := h[1..]), cs)
  {
    assert [h] == [] + [h];
    ReadLinesSnoc(r, [], h);
    ReadLinesAppend(r, [h], CodeStrings(cs));
    ReadCodeStrings(r.(section := h[1..]), cs);
  }

  /** A blank line changes nothing. */
  lemma ReadBlank(r: Reader)
    ensures ReadLine(r, "") == r
  {
    assert |Trim("")| == 0;
  }

  /** Reading lines laid out as recordToYdk lays them out: the headers switch to the three sections, the codes land in them. */
  lemma ReadLayout(h1: string, h2: string, h3: string, h4: string, main: seq<Code>, extra: seq<Code>, side: seq<Code>)
    requires IsHeader(h1) && IsHeader(h2) && IsHeader(h3) && IsHeader(h4)
    requires h2[1..] == "main" && h3[1..] == "extra" && h4[1..] == "side"
    ensures ReadLines(Unsectioned, [h1] + ([h2] + CodeStrings(main)) + ([h3] + CodeStrings(extra)) + ([h4] + CodeStrings(side)) + [""])
         == Reader("side", main, extra, side)
  {
    var a := [h1];
    var b := [h2] + CodeStrings(main);
    var c := [h3] + CodeStrings(extra);
    var d := [h4] + CodeStrings(side);
    var r1 := Reader(h1[1..], [], [], []);
    var r2 := Reader("main", main, [], []);
    var r3 := Reader("extra", main, extra, []);
    var r4 := Reader("side", main, extra, side);
    assert ReadLines(Unsectioned, a) == r1 by {
      assert a == [] + [h1];
      ReadLinesSnoc(Unsectioned, [], h1);
    }
    ReadLinesAppend(Unsectioned, a, b);
    ReadSection(r1, h2, main);
    assert ReadLines(Unsectioned, a + b) == r2;
    ReadLinesAppend(Unsectioned, a + b, c);
    ReadSection(r2, h3, extra);
    assert ReadLines(Unsectioned, a + b + c) == r3;
    ReadLinesAppend(Unsectioned, a + b + c, d);
    ReadSection(r3, h4, side);
    assert ReadLines(Unsectioned, a + b + c + d) == r4;
    ReadLinesSnoc(Unsectioned, a + b + c + d, "");
    ReadBlank(r4);
  }

  /** Reading back the text recordToYdk writes gives the record: the stored YDK text of a deck agrees with its codes. */
  lemma RecordOfYdkText(record: TypedDeck)
    ensures RecordOf(YdkText(record)) == record
  {
    YdkLines(record);
    assert MainHeader[1..] == "main" && ExtraHeader[1..] == "extra" && SideHeader[1..] == "side";
    ReadLayout(CreatedBy, MainHeader, ExtraHeader, SideHeader, record.main, record.extra, record.side);
  }

  // ---------------------------------------------------------------------------
  // ydke:// urls
  // ---------------------------------------------------------------------------

  /** The characters the ydke pattern allows between its "!" marks: letters, digits, "+", "/" and "=". */
  predicate IsUrlChar(c: char) {
    ('A' <= c <= 'Z') || ('a' <= c <= 'z') || ('0' <= c <= '9') || c == '+' || c == '/' || c == '='
  }

  /** The length of the run of url characters at the start of s. */
  function UrlRun(s: string): (n: nat)
    ensures n <= |s|
    decreases |s|
  {
    if s == [] || !IsUrlChar(s[0]) then 0 else 1 + UrlRun(s[1..])
  }

  /**
   * One group of the pattern at the start of s: a run of url characters
   * closed by "!"; how far it reaches, or None. "!" is not a url character, so
   * the lazy `*?` can only stop at the end of the run.
   */
  function GroupEnd(s: string): (r: Option<nat>)
    ensures r.Some? ==> 0 < r.value <= |s| && s[r.value - 1] == '!'
  {
    var n := UrlRun(s);
    if n < |s| && s[n] == '!' then Some(n + 1) else None
  }

  const YdkePrefix := "ydke://"

  /** A ydke url at the very start of q: "ydke://" and three groups. */
  function YdkeAt(q: string): (r: Option<string>)
    ensures r.Some? ==> StartsWith(q, r.value) && StartsWith(r.value, YdkePrefix) && r.value[|r.value| - 1] == '!'
  {
    if !StartsWith(q, YdkePrefix) then None
    else
      var s1 := q[|YdkePrefix|..];
      var g1 := GroupEnd(s1);
      if g1.None? then None
      else
        var s2 := s1[g1.value..];
        var g2 := GroupEnd(s2);
        if g2.None? then None
        else
          var s3 := s2[g2.value..];
          var g3 := GroupEnd(s3);
          if g3.None? then None
          else
            var k := |YdkePrefix| + g1.value + g2.value + g3.value;
            var u := q[..k];
            assert u[..|YdkePrefix|] == q[..|YdkePrefix|];
            assert u[|u| - 1] == s3[g3.value - 1];
            assert q[..|u|] == u;
            Some(u)
  }

  /** The leftmost position where `at` finds a match, or |q| when it finds none before the end. */
  function FirstMatch(q: string, at: string -> Option<string>): (i: nat)
    ensures i <= |q|
    ensures forall j :: 0 <= j < i ==> at(q[j..]).None?
    ensures i < |q| ==> at(q[i..]).Some?
    decreases |q|
  {
    if q == [] || at(q).Some? then 0
    else
      var i := FirstMatch(q[1..], at);
      assert forall j :: 1 <= j <= |q| ==> q[1..][j - 1..] == q[j..];
      1 + i
  }

  /** The first match of the ydke pattern in the message text, as exec finds it: the one that starts leftmost. */
  function FindYdke(q: string): (r: Option<string>)
    ensures r.None? ==> forall i :: 0 <= i <= |q| ==> YdkeAt(q[i..]).None?
    ensures r.Some? ==> exists i :: 0 <= i < |q| && r == YdkeAt(q[i..]) && forall j :: 0 <= j < i ==> YdkeAt(q[j..]).None?
  {
    var i := FirstMatch(q, YdkeAt);
    if i < |q| then YdkeAt(q[i..])
    else
      assert YdkeAt(q[|q|..]).None?;
      None
  }

  predicate AllUrlChars(s: string) {
    forall k :: 0 <= k < |s| ==> IsUrlChar(s[k])
  }

  /** A run of url characters closed by "!" is one group. */
  lemma {:induction false} UrlRunOfGroup(a: string, t: string)
    requires AllUrlChars(a)
    ensures UrlRun(a + "!" + t) == |a|
    decreases |a|
  {
    if a == [] {
      assert (a + "!" + t)[0] == '!';
    } else {
      assert (a + "!" + t)[1..] == a[1..] + "!" + t;
      UrlRunOfGroup(a[1..], t);
    }
  }

  /** A run of characters closed by "!", then the text t. */
  function Group(a: string, t: string): string {
    a + "!" + t
  }

  lemma GroupAppend(a: string, t: string, rest: string)
    ensures Group(a, t) + rest == Group(a, t + rest)
  {
  }

  /** A run of url characters closed by "!" is one group, and what follows it is t. */
  lemma GroupEndOf(a: string, t: string)
    requires AllUrlChars(a)
    ensures GroupEnd(Group(a, t)) == Some(|a| + 1)
    ensures Group(a, t)[|a| + 1..] == t
  {
    UrlRunOfGroup(a, t);
    assert (a + "!" + t)[|a|] == '!';
  }

  /** The url of three groups of url characters, each closed by "!". */
  function YdkeUrl(a: string, b: string, c: string): string {
    YdkePrefix + Group(a, Group(b, Group(c, "")))
  }

  /** A well-formed url at the start of a text is matched there, whatever follows it. */
  lemma YdkeAtUrl(a: string, b: string, c: string, rest: string)
    requires AllUrlChars(a) && AllUrlChars(b) && AllUrlChars(c)
    ensures YdkeAt(YdkeUrl(a, b, c) + rest) == Some(YdkeUrl(a, b, c))
  {
    var u := YdkeUrl(a, b, c);
    var q := u + rest;
    var t2 := Group(c, rest);
    var t1 := Group(b, t2);
    var body := Group(a, t1);
    assert Group(a, Group(b, Group(c, ""))) + rest == body by {
      GroupAppend(a, Group(b, Group(c, "")), rest);
      GroupAppend(b, Group(c, ""), rest);
      GroupAppend(c, "", rest);
      assert "" + rest == rest;
    }
    assert q == YdkePrefix + body;
    assert q[..|YdkePrefix|] == YdkePrefix;
    assert q[|YdkePrefix|..] == body;
    GroupEndOf(a, t1);
    GroupEndOf(b, t2);
    GroupEndOf(c, rest);
    assert |u| == |YdkePrefix| + (|a| + 1) + (|b| + 1) + (|c| + 1);
    assert q[..|u|] == u;
  }

  /** A message whose text begins with a well-formed url yields exactly that url, whatever follows it. */
  lemma FindYdkeOfUrl(a: string, b: string, c: string, rest: string)
    requires AllUrlChars(a) && AllUrlChars(b) && AllUrlChars(c)
    ensures FindYdke(YdkeUrl(a, b, c) + rest) == Some(YdkeUrl(a, b, c))
  {
    var q := YdkeUrl(a, b, c) + rest;
    YdkeAtUrl(a, b, c, rest);
    assert q[0..] == q;
  }

  // ---------------------------------------------------------------------------
  // Building a deck from a message
  // ---------------------------------------------------------------------------

  /** A deck as the bot keeps it: the codes, and both texts they were read from or written to. */
  datatype Deck = Deck(record: TypedDeck, url: string, ydk: string)

  /** The first attachment is a .ydk file. */
  predicate HasYdkFile(msg: IncomingMessage) {
    |msg.attachments| > 0 && EndsWith(msg.attachments[0].filename, ".ydk")
  }

  /**
   * Deck.construct: a .ydk first attachment is fetched and read; otherwise the
   * first ydke url in the text is parsed and written out as YDK text; with
   * neither, a plain Error. `fetch` stands for downloading an attachment's
   * text, `toUrl` and `parseUrl` for the ydke library.
   */
  method Construct(msg: IncomingMessage, fetch: string -> string, toUrl: TypedDeck -> string, parseUrl: string -> TypedDeck)
    returns (r: Result<Deck, Error>)
    ensures r.Ok? ==> r.value.record == RecordOf(r.value.ydk)
    ensures HasYdkFile(msg) ==> r.Ok? && r.value.ydk == fetch(msg.attachments[0].url) && r.value.url == toUrl(r.value.record)
    ensures !HasYdkFile(msg) ==> (r.Err? <==> FindYdke(msg.content).None?)
    ensures !HasYdkFile(msg) && r.Ok? ==> r.value.url == FindYdke(msg.content).value && r.value.record == parseUrl(r.value.url)
    ensures r.Err? ==> r.error == InternalError(DeckNotFoundMessage) && !r.error.IsUserError()
  {
    if HasYdkFile(msg) {
      var ydk := fetch(msg.attachments[0].url);
      var record := YdkToRecord(ydk);
      return Ok(Deck(record, toUrl(record), ydk));
    }
    var found := FindYdke(msg.content);
    if found.None? {
      return Err(InternalError(DeckNotFoundMessage));
    }
    var record := parseUrl(found.value);
    var ydk := RecordToYdk(record);
    RecordOfYdkText(record);
    return Ok(Deck(record, found.value, ydk));
  }

  // ---------------------------------------------------------------------------
  // Deck profile
  // ---------------------------------------------------------------------------

  datatype CardType = Monster | Spell | Trap | Fusion | Synchro | Xyz | Link

  /** A card's English text: its name and the names of the sets (archetypes) it belongs to. */
  datatype EnglishText = EnglishText(name: string, sets: seq<string>)

  /** What the card database knows of a card. */
  datatype Card = Card(en: Option<EnglishText>, types: set<CardType>)

  /** The card database's answer for each code; None for a code it does not know. */
  type CardData = Code -> Option<Card>

  /** The type tests of one section, in the order they are tried, each with the key it counts under. */
  const MainOrder: seq<(CardType, string)> := [(Monster, "monster"), (Spell, "spell"), (Trap, "trap")]
  const ExtraOrder: seq<(CardType, string)> := [(Fusion, "fusion"), (Synchro, "synchro"), (Xyz, "xyz"), (Link, "link")]

  /** The type counts a section starts from: every key of its tests at zero. */
  const MainTypesStart: map<string, nat> := map["monster" := 0, "spell" := 0, "trap" := 0]
  const ExtraTypesStart: map<string, nat> := map["fusion" := 0, "synchro" := 0, "xyz" := 0, "link" := 0]

  /** The key of the first test the card passes, if any. */
  function FirstType(types: set<CardType>, order: seq<(CardType, string)>): (r: Option<string>)
    ensures r.Some? <==> exists k :: 0 <= k < |order| && order[k].0 in types
    ensures r.Some? ==> exists k :: (0 <= k < |order| && order[k].0 in types && r.value == order[k].1
                                      && forall j :: 0 <= j < k ==> order[j].0 !in types)
    decreases |order|
  {
    if order == [] then None
    else if order[0].0 in types then Some(order[0].1)
    else
      var r := FirstType(types, order[1..]);
      assert forall k :: 1 <= k < |order| ==> order[1..][k - 1] == order[k];
      r
  }

  /** The key a code's name counts under: the English name, else the code in decimal. */
  function NameKey(code: Code, card: Option<Card>): string {
    if card.Some? && card.value.en.Some? then card.value.en.value.name else NatToString(code)
  }

  /** The type key a code counts under; an unknown card counts under none. */
  function TypeKeyOf(card: Option<Card>, order: seq<(CardType, string)>): seq<string> {
    if card.None? then []
    else
      var t := FirstType(card.value.types, order);
      if t.Some? then [t.value] else []
  }

  /** The archetype keys a code counts under: the sets of a card with English text. */
  function SetKeysOf(card: Option<Card>): seq<string> {
    if card.Some? && card.value.en.Some? then card.value.en.value.sets else []
  }

  /** The name keys of a section's codes, in order. */
  function NameKeys(codes: seq<Code>, cards: CardData): (keys: seq<string>)
    ensures |keys| == |codes|
    decreases |codes|
  {
    if codes == [] then []
    else NameKeys(codes[..|codes| - 1], cards) + [NameKey(codes[|codes| - 1], cards(codes[|codes| - 1]))]
  }

  /** The type keys of a section's codes, in order. */
  function TypeKeys(codes: seq<Code>, cards: CardData, order: seq<(CardType, string)>): (keys: seq<string>)
    ensures |keys| <= |codes|
    decreases |codes|
  {
    if codes == [] then []
    else TypeKeys(codes[..|codes| - 1], cards, order) + TypeKeyOf(cards(codes[|codes| - 1]), order)
  }

  /** The archetype keys of a section's codes, in order. */
  function SetKeys(codes: seq<Code>, cards: CardData): seq<string>
    decreases |codes|
  {
    if codes == [] then []
    else SetKeys(codes[..|codes| - 1], cards) + SetKeysOf(cards(codes[|codes| - 1]))
  }

  /** A code the database does not know adds its decimal text to the names, and nothing to the types or the archetypes. */
  lemma UnknownCodeCounts(codes: seq<Code>, code: Code, cards: CardData, order: seq<(CardType, string)>)
    requires cards(code).None?
    ensures NameKeys(codes + [code], cards) == NameKeys(codes, cards) + [NatToString(code)]
    ensures TypeKeys(codes + [code], cards, order) == TypeKeys(codes, cards, order)
    ensures SetKeys(codes + [code], cards) == SetKeys(codes, cards)
  {
    assert (codes + [code])[..|codes|] == codes;
    assert TypeKeys(codes, cards, order) + [] == TypeKeys(codes, cards, order);
    assert SetKeys(codes, cards) + [] == SetKeys(codes, cards);
  }

  lemma KeysStep(codes: seq<Code>, i: nat, cards: CardData, order: seq<(CardType, string)>)
    requires i < |codes|
    ensures NameKeys(codes[..i + 1], cards) == NameKeys(codes[..i], cards) + [NameKey(codes[i], cards(codes[i]))]
    ensures TypeKeys(codes[..i + 1], cards, order) == TypeKeys(codes[..i], cards, order) + TypeKeyOf(cards(codes[i]), order)
    ensures SetKeys(codes[..i + 1], cards) == SetKeys(codes[..i], cards) + SetKeysOf(cards(codes[i]))
  {
    assert codes[..i + 1][..i] == codes[..i];
  }

  /**
   * The body of getProfile's loop over a section, for one code: it counts
   * under its name key and its type key, and, when `withSets`, under each of
   * its archetype keys; a code the database does not know counts under its
   * decimal text only.
   */
  method CountCode(code: Code, card: Option<Card>, order: seq<(CardType, string)>,
                   names: ProfileCounts, types: ProfileCounts, sets: ProfileCounts, withSets: bool)
    requires names != types && names != sets && types != sets
    modifies names, types, sets
    ensures names.counts == Bumped(old(names.counts), NameKey(code, card))
    ensures types.counts == TallyFrom(old(types.counts), TypeKeyOf(card, order))
    ensures sets.counts == if withSets then TallyFrom(old(sets.counts), SetKeysOf(card)) else old(sets.counts)
  {
    if card.None? {
      names.Increment(NatToString(code));
      return;
    }
    if card.value.en.Some? {
      names.Increment(card.value.en.value.name);
      if withSets {
        var archetypes := card.value.en.value.sets;
        ghost var before := sets.counts;
        for j := 0 to |archetypes|
          modifies sets
          invariant sets.counts == TallyFrom(before, archetypes[..j])
        {
          TallyFromStep(before, archetypes, j);
          sets.Increment(archetypes[j]);
        }
        assert archetypes[..|archetypes|] == archetypes;
      }
    } else {
      names.Increment(NatToString(code));
    }
    var t := FirstType(card.value.types, order);
    if t.Some? {
      types.Increment(t.value);
      assert [t.value][..0] == [];
    }
  }

  /**
   * getProfile's loop over one section: the name counts start empty, the type
   * counts from `typesStart`; each code's keys are counted in order.
   */
  method CountSection(codes: seq<Code>, cards: CardData, order: seq<(CardType, string)>, typesStart: map<string, nat>,
                      sets: ProfileCounts, withSets: bool)
    returns (nameCounts: map<string, nat>, typeCounts: map<string, nat>)
    modifies sets
    ensures nameCounts == TallyFrom(map[], NameKeys(codes, cards))
    ensures typeCounts == TallyFrom(typesStart, TypeKeys(codes, cards, order))
    ensures sets.counts == if withSets then TallyFrom(old(sets.counts), SetKeys(codes, cards)) else old(sets.counts)
  {
    var names := new ProfileCounts(map[]);
    var types := new ProfileCounts(typesStart);
    ghost var s0 := sets.counts;
    for i := 0 to |codes|
      invariant names.counts == TallyFrom(map[], NameKeys(codes[..i], cards))
      invariant types.counts == TallyFrom(typesStart, TypeKeys(codes[..i], cards, order))
      invariant sets.counts == if withSets then TallyFrom(s0, SetKeys(codes[..i], cards)) else s0
    {
      var code := codes[i];
      KeysStep(codes, i, cards, order);
      TallyFromSnoc(map[], NameKeys(codes[..i], cards), NameKey(code, cards(code)));
      TallyFromAppend(typesStart, TypeKeys(codes[..i], cards, order), TypeKeyOf(cards(code), order));
      TallyFromAppend(s0, SetKeys(codes[..i], cards), SetKeysOf(cards(code)));
      CountCode(code, cards(code), order, names, types, sets, withSets);
    }
    assert codes[..|codes|] == codes;
    nameCounts, typeCounts := names.counts, types.counts;
  }

  /** The set codes counted more than nine times, each once, in no particular order. */
  method SelectArchetypes(counts: map<string, nat>) returns (archetypes: seq<string>)
    ensures forall s :: s in archetypes <==> s in counts && counts[s] > 9
    ensures forall i, j :: 0 <= i < j < |archetypes| ==> archetypes[i] != archetypes[j]
  {
    archetypes := [];
    var rest := counts.Keys;
    while rest != {}
      invariant rest <= counts.Keys
      invariant forall s :: s in archetypes <==> s in counts && s !in rest && counts[s] > 9
      invariant forall i, j :: 0 <= i < j < |archetypes| ==> archetypes[i] != archetypes[j]
      decreases rest
    {
      var s :| s in rest;
      if counts[s] > 9 {
        archetypes := archetypes + [s];
      }
      rest := rest - {s};
    }
  }

  /** Counts per section. */
  datatype SectionCounts = SectionCounts(main: map<string, nat>, extra: map<string, nat>, side: map<string, nat>)

  /** What getProfile reports about a deck. */
  datatype DeckProfile = DeckProfile(nameCounts: SectionCounts, typeCounts: SectionCounts, archetypes: seq<string>, ydk: string, url: string)

  /** The archetype keys getProfile counts: those of the main deck, then those of the extra deck. */
  function ArchetypeKeys(record: TypedDeck, cards: CardData): seq<string> {
    SetKeys(record.main, cards) + SetKeys(record.extra, cards)
  }

  /**
   * An archetype is reported exactly when its set code occurs more than nine
   * times among the main and extra deck's cards with English text.
   */
  lemma ArchetypeThreshold(record: TypedDeck, cards: CardData)
    ensures var counts := TallyFrom(TallyFrom(map[], SetKeys(record.main, cards)), SetKeys(record.extra, cards));
            forall s :: (s in counts && counts[s] > 9) <==> multiset(ArchetypeKeys(record, cards))[s] > 9
  {
    var keys := ArchetypeKeys(record, cards);
    TallyFromAppend(map[], SetKeys(record.main, cards), SetKeys(record.extra, cards));
    forall s
      ensures s in TallyFrom(map[], keys) ==> TallyFrom(map[], keys)[s] == multiset(keys)[s]
      ensures s !in TallyFrom(map[], keys) ==> multiset(keys)[s] == 0
    {
      TallyFromCounts(map[], keys, s);
    }
  }

  /**
   * Deck.getProfile: the name and type counts of each section, and the
   * archetypes of the main and extra decks that occur more than nine times.
   */
  method GetProfile(deck: Deck, cards: CardData) returns (p: DeckProfile)
    ensures p.nameCounts == SectionCounts(TallyFrom(map[], NameKeys(deck.record.main, cards)),
                                          TallyFrom(map[], NameKeys(deck.record.extra, cards)),
                                          TallyFrom(map[], NameKeys(deck.record.side, cards)))
    ensures p.typeCounts == SectionCounts(TallyFrom(MainTypesStart, TypeKeys(deck.record.main, cards, MainOrder)),
                                          TallyFrom(ExtraTypesStart, TypeKeys(deck.record.extra, cards, ExtraOrder)),
                                          TallyFrom(MainTypesStart, TypeKeys(deck.record.side, cards, MainOrder)))
    ensures forall s :: s in p.archetypes <==> multiset(ArchetypeKeys(deck.record, cards))[s] > 9
    ensures forall i, j :: 0 <= i < j < |p.archetypes| ==> p.archetypes[i] != p.archetypes[j]
    ensures p.ydk == deck.ydk && p.url == deck.url
  {
    var archetypeCounts := new ProfileCounts(map[]);
    var mainNameCounts, mainTypeCounts := CountSection(deck.record.main, cards, MainOrder, MainTypesStart, archetypeCounts, true);
    var extraNameCounts, extraTypeCounts := CountSection(deck.record.extra, cards, ExtraOrder, ExtraTypesStart, archetypeCounts, true);
    var sideNameCounts, sideTypeCounts := CountSection(deck.record.side, cards, MainOrder, MainTypesStart, archetypeCounts, false);
    var archetypes := SelectArchetypes(archetypeCounts.counts);
    ArchetypeThreshold(deck.record, cards);
    p := DeckProfile(SectionCounts(mainNameCounts, extraNameCounts, sideNameCounts),
                     SectionCounts(mainTypeCounts, extraTypeCounts, sideTypeCounts),
                     archetypes, deck.ydk, deck.url);
  }
}
