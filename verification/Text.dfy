/** The string operations of the standard library that the parser uses, and decimal numbers. */
module Text {
  import opened Prelude

  /** `char::is_whitespace`. */
  predicate IsSpace(c: char) {
    var n := c as int;
    9 <= n <= 13 || n in {0x20, 0x85, 0xA0, 0x1680, 0x2028, 0x2029, 0x202F, 0x205F, 0x3000} || 0x2000 <= n <= 0x200A
  }

  predicate IsUpper(c: char) { 'A' <= c <= 'Z' }
  predicate IsLower(c: char) { 'a' <= c <= 'z' }
  predicate IsDigit(c: char) { '0' <= c <= '9' }
  predicate IsAlphanumeric(c: char) { IsUpper(c) || IsLower(c) || IsDigit(c) }

  ghost predicate Spaceless(s: string) {
    forall i :: 0 <= i < |s| ==> !IsSpace(s[i])
  }

  /** `find`: the first position of `c`, or the length when there is none. */
  function IndexOf(s: string, c: char): (i: nat)
    ensures i <= |s|
    ensures i < |s| ==> s[i] == c
    ensures forall j :: 0 <= j < i ==> s[j] != c
  {
    if s == "" || s[0] == c then 0 else 1 + IndexOf(s[1..], c)
  }

  /** Length of the leading run of non-space characters. */
  function WordLength(s: string): (n: nat)
    ensures n <= |s|
    ensures forall j :: 0 <= j < n ==> !IsSpace(s[j])
    ensures n < |s| ==> IsSpace(s[n])
  {
    if s == "" || IsSpace(s[0]) then 0 else 1 + WordLength(s[1..])
  }

  function TrimStart(s: string): (t: string)
    ensures |t| <= |s| && t == s[|s| - |t|..]
    ensures t != "" ==> !IsSpace(t[0])
  {
    if s != "" && IsSpace(s[0]) then TrimStart(s[1..]) else s
  }

  function TrimEnd(s: string): (t: string)
    ensures t <= s
    ensures t != "" ==> !IsSpace(t[|t| - 1])
  {
    if s != "" && IsSpace(s[|s| - 1]) then TrimEnd(s[..|s| - 1]) else s
  }

  function Trim(s: string): string {
    TrimEnd(TrimStart(s))
  }

  function FirstWord(t: string): (w: string)
    requires t != "" && !IsSpace(t[0])
    ensures w != "" && Spaceless(w) && w <= t && |w| == WordLength(t)
  {
    t[..WordLength(t)]
  }

  /** `split_whitespace`. */
  function Words(s: string): (ws: seq<string>)
    decreases |s|
  {
    var t := TrimStart(s);
    if t == "" then []
    else
      var w := FirstWord(t);
      assert |t[|w|..]| < |s|;
      [w] + Words(t[|w|..])
  }

  /** `lines`, up to the carriage return that trimming removes anyway. */
  function Lines(text: string): seq<string>
    decreases |text|
  {
    var i := IndexOf(text, '\n');
    if text == "" then [] else if i == |text| then [text] else [text[..i]] + Lines(text[i + 1..])
  }

  // ------------------------------------------------------------------ first occurrences

  lemma IndexOfIs(s: string, c: char, i: nat)
    requires i <= |s| && (i < |s| ==> s[i] == c) && forall j :: 0 <= j < i ==> s[j] != c
    ensures IndexOf(s, c) == i
  {
  }

  lemma WordLengthIs(s: string, n: nat)
    requires n <= |s| && (n < |s| ==> IsSpace(s[n])) && forall j :: 0 <= j < n ==> !IsSpace(s[j])
    ensures WordLength(s) == n
  {
  }

  /** Every character of `part` occurs in `whole`. */
  ghost predicate PartOf(part: string, whole: string) {
    forall c :: c in part ==> c in whole
  }

  lemma TrimStartIsPart(s: string)
    ensures PartOf(TrimStart(s), s)
  {
  }

  lemma TrimIsPart(s: string)
    ensures PartOf(Trim(s), s)
  {
    TrimStartIsPart(s);
  }

  /** A word is not empty, holds no space, and is made of what occurs in the string it was split from. */
  ghost predicate WordOf(w: string, s: string) {
    w != "" && Spaceless(w) && PartOf(w, s)
  }

  lemma FirstWordIsWord(t: string, s: string)
    requires t != "" && !IsSpace(t[0]) && PartOf(t, s)
    ensures WordOf(FirstWord(t), s) && PartOf(t[|FirstWord(t)|..], s)
  {
  }

  lemma PartOfPart(w: string, part: string, s: string)
    requires WordOf(w, part) && PartOf(part, s)
    ensures WordOf(w, s)
  {
  }

  lemma {:induction false} WordsAreWords(s: string)
    ensures forall w :: w in Words(s) ==> WordOf(w, s)
    decreases |s|
  {
    hide WordOf, PartOf, FirstWord, TrimStart, IsSpace;
    var t := TrimStart(s);
    TrimStartIsPart(s);
    if t != "" {
      var first := FirstWord(t);
      var rest := t[|first|..];
      FirstWordIsWord(t, s);
      WordsAreWords(rest);
      forall w | w in Words(rest)
        ensures WordOf(w, s)
      {
        PartOfPart(w, rest, s);
      }
    }
  }

  /** A word at the front, followed by a space or by nothing, is the first word. */
  lemma WordComesOff(w: string, rest: string)
    requires w != "" && Spaceless(w) && (rest == "" || IsSpace(rest[0]))
    ensures Words(w + rest) == [w] + Words(rest)
  {
    var s := w + rest;
    assert TrimStart(s) == s;
    WordLengthIs(s, |w|);
    assert s[..|w|] == w && s[|w|..] == rest;
  }

  lemma SpaceComesOff(rest: string)
    ensures Words(" " + rest) == Words(rest)
  {
    assert (" " + rest)[1..] == rest;
    assert TrimStart(" " + rest) == TrimStart(rest);
  }

  lemma TrimIsIdentity(s: string)
    requires s != "" && !IsSpace(s[0]) && !IsSpace(s[|s| - 1])
    ensures Trim(s) == s
  {
  }

  lemma OneWord(w: string)
    requires w != "" && Spaceless(w)
    ensures Words(w) == [w]
  {
    WordComesOff(w, []);
    assert w + [] == w;
  }

  /** Two words with one space between them split into those two words. */
  lemma TwoWords(a: string, b: string)
    requires a != "" && b != "" && Spaceless(a) && Spaceless(b)
    ensures Words(a + (" " + b)) == [a, b]
  {
    hide Words, TrimStart;
    SpaceComesOff(b);
    OneWord(b);
    WordComesOff(a, " " + b);
  }

  /** A line ended by a newline comes off the front of a text. */
  lemma FirstLine(line: string, rest: string)
    requires '\n' !in line
    ensures Lines(line + "\n" + rest) == [line] + Lines(rest)
  {
    var text := line + "\n" + rest;
    assert text[..|line|] == line;
    IndexOfIs(text, '\n', |line|);
    assert text[|line| + 1..] == rest;
  }

  // ------------------------------------------------------------------ decimal numbers

  function Digit(d: nat): char
    requires d < 10
  {
    ('0' as int + d) as char
  }

  /** `n` printed in decimal. */
  function Decimal(n: nat): (s: string)
    ensures s != "" && forall i :: 0 <= i < |s| ==> IsDigit(s[i])
  {
    if n < 10 then [Digit(n)] else Decimal(n / 10) + [Digit(n % 10)]
  }

  function DigitValue(c: char): nat
    requires IsDigit(c)
  {
    c as int - '0' as int
  }

  function Value(s: string): nat
    requires forall i :: 0 <= i < |s| ==> IsDigit(s[i])
  {
    if s == "" then 0 else 10 * Value(s[..|s| - 1]) + DigitValue(s[|s| - 1])
  }

  /** `parse` for an unsigned type with maximum `max`: an optional plus sign and at least one digit, no overflow. */
  function ParseUnsigned(s: string, max: nat): Option<nat> {
    var digits := if s != "" && s[0] == '+' then s[1..] else s;
    if digits == "" || exists i :: 0 <= i < |digits| && !IsDigit(digits[i]) then None
    else if Value(digits) <= max then Some(Value(digits))
    else None
  }

  lemma {:induction false} ValueOfDecimal(n: nat)
    ensures Value(Decimal(n)) == n
  {
    if n >= 10 {
      ValueOfDecimal(n / 10);
      var s := Decimal(n);
      assert s[..|s| - 1] == Decimal(n / 10);
    } else {
      assert Decimal(n)[..0] == "";
    }
  }

  lemma DecimalRoundTrips(n: nat, max: nat)
    requires n <= max
    ensures ParseUnsigned(Decimal(n), max) == Some(n)
  {
    ValueOfDecimal(n);
    assert IsDigit(Decimal(n)[0]);
  }
}
