/**
 * The JavaScript built-ins the bot's logic leans on, with ECMAScript's meaning
 * rather than Dafny's: integers that may be NaN (what parseInt returns when it
 * finds no digits), Number.prototype.toString, and the String methods split,
 * join, trim, toLowerCase, startsWith, endsWith and padStart.
 */
module Js {

  /** A JavaScript number as parseInt produces it: an integer, or NaN. */
  datatype JsInt = Num(value: int) | NaN {

    /** `===`: NaN equals nothing, not even NaN. */
    predicate StrictEq(other: JsInt) {
      Num? && other.Num? && value == other.value
    }

    /** `>`: every comparison involving NaN is false. */
    predicate Gt(other: JsInt) {
      Num? && other.Num? && value > other.value
    }
  }

  // ---------------------------------------------------------------------------
  // Decimal digits and Number.prototype.toString
  // ---------------------------------------------------------------------------

  predicate IsDigit(c: char) {
    '0' <= c <= '9'
  }

  predicate AllDigits(s: string) {
    forall i :: 0 <= i < |s| ==> IsDigit(s[i])
  }

  function DigitChar(d: nat): (c: char)
    requires d < 10
    ensures IsDigit(c)
  {
    ('0' as int + d) as char
  }

  function DigitValue(c: char): (d: nat)
    requires IsDigit(c)
    ensures d < 10 && DigitChar(d) == c
  {
    c as int - '0' as int
  }

  /** The decimal rendering of a non-negative integer, most significant digit first. */
  function NatToString(n: nat): (s: string)
    ensures 1 <= |s| && AllDigits(s)
    ensures n < 10 <==> |s| == 1
  {
    if n < 10 then [DigitChar(n)] else NatToString(n / 10) + [DigitChar(n % 10)]
  }

  /** `n.toString()` for an integer n. */
  function IntToString(n: int): (s: string)
    ensures 1 <= |s|
    ensures n < 0 <==> s[0] == '-'
  {
    if n < 0 then "-" + NatToString(-n) else NatToString(n)
  }

  /** `${x}` for a number that may be NaN. */
  function JsIntToString(x: JsInt): string {
    match x
    case NaN => "NaN"
    case Num(v) => IntToString(v)
  }

  /** The value of a string of decimal digits. */
  function DigitsValue(s: string): nat
    requires AllDigits(s)
  {
    if s == [] then 0 else DigitsValue(s[..|s| - 1]) * 10 + DigitValue(s[|s| - 1])
  }

  /** Reading back what NatToString wrote gives the number again. */
  lemma {:induction false} DigitsValueOfNatToString(n: nat)
    ensures DigitsValue(NatToString(n)) == n
  {
    if n >= 10 {
      var s := NatToString(n);
      assert s[..|s| - 1] == NatToString(n / 10);
      DigitsValueOfNatToString(n / 10);
    }
  }

  /** NatToString is injective: distinct numbers have distinct renderings. */
  lemma NatToStringInjective(m: nat, n: nat)
    requires NatToString(m) == NatToString(n)
    ensures m == n
  {
    DigitsValueOfNatToString(m);
    DigitsValueOfNatToString(n);
  }

  /** A leading "0" does not change the value of a digit string. */
  lemma {:induction false} LeadingZero(s: string)
    requires AllDigits(s)
    ensures AllDigits("0" + s) && DigitsValue("0" + s) == DigitsValue(s)
  {
    if s != [] {
      var t := "0" + s;
      assert t[..|t| - 1] == "0" + s[..|s| - 1];
      LeadingZero(s[..|s| - 1]);
    }
  }

  /**
   * `a % b` for a positive divisor: JavaScript truncates toward zero, so the
   * remainder takes the sign of the dividend (Dafny's `%` never is negative).
   */
  function JsRem(a: int, b: int): (r: int)
    requires b > 0
    ensures a >= 0 ==> 0 <= r < b
    ensures a < 0 ==> -b < r <= 0
  {
    if a >= 0 then a % b else -((-a) % b)
  }

  // ---------------------------------------------------------------------------
  // Whitespace, trim and parseInt
  // ---------------------------------------------------------------------------

  /** ECMAScript WhiteSpace and LineTerminator code points: what trim() removes. */
  predicate IsWhitespace(c: char) {
    || c == '\t' || c == '\U{B}' || c == '\U{C}' || c == ' ' || c == '\U{A0}' || c == '\U{FEFF}'
    || c == '\n' || c == '\r' || c == '\U{2028}' || c == '\U{2029}'
    || c == '\U{1680}' || ('\U{2000}' <= c <= '\U{200A}') || c == '\U{202F}' || c == '\U{205F}'
    || c == '\U{3000}'
  }

  /** trimStart(): the longest suffix that does not begin with whitespace. */
  function TrimStart(s: string): (t: string)
    ensures |t| <= |s| && t == s[|s| - |t|..]
    ensures t != [] ==> !IsWhitespace(t[0])
    ensures forall i :: 0 <= i < |s| - |t| ==> IsWhitespace(s[i])
  {
    if s != [] && IsWhitespace(s[0]) then TrimStart(s[1..]) else s
  }

  /** trimEnd(): the longest prefix that does not end with whitespace. */
  function TrimEnd(s: string): (t: string)
    ensures |t| <= |s| && t == s[..|t|]
    ensures t != [] ==> !IsWhitespace(t[|t| - 1])
    ensures forall i :: |t| <= i < |s| ==> IsWhitespace(s[i])
  {
    if s != [] && IsWhitespace(s[|s| - 1]) then TrimEnd(s[..|s| - 1]) else s
  }

  /** trim(): whitespace removed from both ends. */
  function Trim(s: string): (t: string)
    ensures t != [] ==> !IsWhitespace(t[0]) && !IsWhitespace(t[|t| - 1])
    ensures exists i, j :: 0 <= i <= j <= |s| && t == s[i..j]
  {
    var u := TrimStart(s);
    var t := TrimEnd(u);
    assert t == s[|s| - |u|..|s| - |u| + |t|];
    t
  }

  /** A string without whitespace is its own trim. */
  lemma TrimNoWhitespace(s: string)
    requires forall i :: 0 <= i < |s| ==> !IsWhitespace(s[i])
    ensures TrimStart(s) == s && Trim(s) == s
  {
  }

  /** Trimming removes spaces around a word that neither begins nor ends with white space. */
  lemma TrimPadded(pad1: string, word: string, pad2: string)
    requires forall i :: 0 <= i < |pad1| ==> pad1[i] == ' '
    requires forall i :: 0 <= i < |pad2| ==> pad2[i] == ' '
    requires word != [] && !IsWhitespace(word[0]) && !IsWhitespace(word[|word| - 1])
    ensures Trim(pad1 + word + pad2) == word
  {
    assert pad1 + word + pad2 == pad1 + (word + pad2);
    TrimStartSkips(pad1, word + pad2);
    TrimEndSkips(word, pad2);
  }

  lemma {:induction false} TrimStartSkips(pad: string, s: string)
    requires forall i :: 0 <= i < |pad| ==> pad[i] == ' '
    requires s != [] && !IsWhitespace(s[0])
    ensures TrimStart(pad + s) == s
  {
    if pad != [] {
      assert (pad + s)[1..] == pad[1..] + s;
      TrimStartSkips(pad[1..], s);
    }
  }

  lemma {:induction false} TrimEndSkips(s: string, pad: string)
    requires forall i :: 0 <= i < |pad| ==> pad[i] == ' '
    requires s != [] && !IsWhitespace(s[|s| - 1])
    ensures TrimEnd(s + pad) == s
  {
    if pad != [] {
      var k := |pad| - 1;
      assert (s + pad)[..|s + pad| - 1] == s + pad[..k];
      TrimEndSkips(s, pad[..k]);
    } else {
      assert s + pad == s;
    }
  }

  /** The longest prefix made of decimal digits. */
  function LeadingDigits(s: string): (d: string)
    ensures AllDigits(d) && |d| <= |s| && d == s[..|d|]
    ensures |d| < |s| ==> !IsDigit(s[|d|])
  {
    if s != [] && IsDigit(s[0]) then [s[0]] + LeadingDigits(s[1..]) else []
  }

  /** The text after an optional leading sign. */
  function Unsigned(t: string): string {
    if t != [] && (t[0] == '-' || t[0] == '+') then t[1..] else t
  }

  /**
   * parseInt(s, 10): leading whitespace skipped, an optional sign, then the
   * longest run of decimal digits; NaN when that run is empty. (Digits beyond
   * the precision of a double are not rounded here.)
   */
  function ParseInt(s: string): JsInt {
    var t := TrimStart(s);
    var ds := LeadingDigits(Unsigned(t));
    if ds == [] then NaN
    else if t[0] == '-' then Num(0 - DigitsValue(ds) as int)
    else Num(DigitsValue(ds))
  }

  /** parseInt reads back a non-empty digit string, with or without text after it. */
  lemma ParseIntOfDigits(s: string, rest: string)
    requires s != [] && AllDigits(s)
    requires rest == [] || !IsDigit(rest[0])
    ensures ParseInt(s + rest) == Num(DigitsValue(s))
  {
    var t := s + rest;
    assert TrimStart(t) == t by {
      assert !IsWhitespace(t[0]);
    }
    assert Unsigned(t) == t;
    LeadingDigitsOfDigits(s, rest);
  }

  /** parseInt reads back what NatToString wrote, with or without text after it. */
  lemma ParseIntOfNatToString(n: nat, rest: string)
    requires rest == [] || !IsDigit(rest[0])
    ensures ParseInt(NatToString(n) + rest) == Num(n)
  {
    ParseIntOfDigits(NatToString(n), rest);
    DigitsValueOfNatToString(n);
  }

  lemma {:induction false} LeadingDigitsOfDigits(s: string, rest: string)
    requires AllDigits(s)
    requires rest == [] || !IsDigit(rest[0])
    ensures LeadingDigits(s + rest) == s
  {
    if s != [] {
      assert (s + rest)[1..] == s[1..] + rest;
      LeadingDigitsOfDigits(s[1..], rest);
    }
  }

  // ---------------------------------------------------------------------------
  // split, join, startsWith, endsWith, padStart, toLowerCase
  // ---------------------------------------------------------------------------

  predicate NoneOf(s: string, seps: set<char>) {
    forall i :: 0 <= i < |s| ==> s[i] !in seps
  }

  /** The index of the first character of s that is in seps, or |s|. */
  function IndexOfAny(s: string, seps: set<char>): (i: nat)
    ensures i <= |s|
    ensures i < |s| ==> s[i] in seps
    ensures NoneOf(s[..i], seps)
  {
    if s == [] || s[0] in seps then 0 else 1 + IndexOfAny(s[1..], seps)
  }

  /**
   * s.split(sep) for a one-character separator; with several characters in
   * seps, the split by a regular expression that alternates single characters.
   */
  function Split(s: string, seps: set<char>): (parts: seq<string>)
    ensures 1 <= |parts|
    ensures forall k :: 0 <= k < |parts| ==> NoneOf(parts[k], seps)
    decreases |s|
  {
    var i := IndexOfAny(s, seps);
    if i == |s| then [s] else [s[..i]] + Split(s[i + 1..], seps)
  }

  /** parts.join(sep). */
  function Join(parts: seq<string>, sep: string): string {
    if parts == [] then ""
    else if |parts| == 1 then parts[0]
    else parts[0] + sep + Join(parts[1..], sep)
  }

  /** Joining the pieces of a split with the separator gives the string back. */
  lemma {:induction false} JoinSplit(s: string, c: char)
    ensures Join(Split(s, {c}), [c]) == s
    decreases |s|
  {
    var i := IndexOfAny(s, {c});
    if i < |s| {
      var rest := s[i + 1..];
      var parts := Split(s, {c});
      assert parts == [s[..i]] + Split(rest, {c});
      assert parts[1..] == Split(rest, {c});
      assert Join(parts, [c]) == s[..i] + [c] + Join(Split(rest, {c}), [c]);
      JoinSplit(rest, c);
      assert s == s[..i] + [c] + rest;
    }
  }

  /** A string without separators splits into itself alone. */
  lemma SplitNoSeparator(s: string, seps: set<char>)
    requires NoneOf(s, seps)
    ensures Split(s, seps) == [s]
  {
    assert IndexOfAny(s, seps) == |s|;
  }

  /** The first piece of a split is the text before the first separator. */
  lemma SplitFirst(s: string, c: char)
    ensures Split(s, {c})[0] == s[..IndexOfAny(s, {c})]
  {
    var k := IndexOfAny(s, {c});
    if k < |s| {
      assert s == s[..k] + [c] + s[k + 1..];
      SplitCons(s[..k], c, s[k + 1..], {c});
    } else {
      assert s[..k] == s;
      SplitNoSeparator(s, {c});
    }
  }

  /** Splitting after a separator-free head and one separator. */
  lemma SplitCons(head: string, c: char, tail: string, seps: set<char>)
    requires NoneOf(head, seps) && c in seps
    ensures Split(head + [c] + tail, seps) == [head] + Split(tail, seps)
  {
    var s := head + [c] + tail;
    IndexOfAnyAt(head, c, tail, seps);
    assert s[..|head|] == head;
    assert s[|head| + 1..] == tail;
  }

  lemma {:induction false} IndexOfAnyAt(head: string, c: char, tail: string, seps: set<char>)
    requires NoneOf(head, seps) && c in seps
    ensures IndexOfAny(head + [c] + tail, seps) == |head|
  {
    if head != [] {
      assert (head + [c] + tail)[1..] == head[1..] + [c] + tail;
      IndexOfAnyAt(head[1..], c, tail, seps);
    }
  }

  /** s.startsWith(p). */
  predicate StartsWith(s: string, p: string) {
    |p| <= |s| && s[..|p|] == p
  }

  /** s.endsWith(p). */
  predicate EndsWith(s: string, p: string) {
    |p| <= |s| && s[|s| - |p|..] == p
  }

  /** n copies of c. */
  function Repeat(c: char, n: nat): (s: string)
    ensures |s| == n && forall i :: 0 <= i < n ==> s[i] == c
  {
    if n == 0 then [] else [c] + Repeat(c, n - 1)
  }

  /** s.padStart(width, [fill]). */
  function PadStart(s: string, width: nat, fill: char): string {
    if |s| < width then Repeat(fill, width - |s|) + s else s
  }

  /** padStart reaches the width, keeps the text at the end and fills only in front of it. */
  lemma PadStartShape(s: string, width: nat, fill: char)
    ensures var t := PadStart(s, width, fill);
            && |t| == (if |s| < width then width else |s|)
            && EndsWith(t, s)
            && forall i :: 0 <= i < |t| - |s| ==> t[i] == fill
  {
    var t := PadStart(s, width, fill);
    assert t[|t| - |s|..] == s;
  }

  /** toLowerCase() restricted to ASCII letters. */
  function LowerChar(c: char): char {
    if 'A' <= c <= 'Z' then (c as int + 32) as char else c
  }

  function ToLower(s: string): (t: string)
    ensures |t| == |s| && forall i :: 0 <= i < |s| ==> t[i] == LowerChar(s[i])
  {
    seq(|s|, i requires 0 <= i < |s| => LowerChar(s[i]))
  }
}
