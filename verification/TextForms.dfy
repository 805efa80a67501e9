/** The pieces of text handling the two small files use: decimals, lines, trimming. */
module TextForms {
  import opened Basics

  // ── decimals ───────────────────────────────────────────────────────────────────────────────

  predicate IsDigit(c: char) {
    '0' <= c <= '9'
  }

  function Printed(n: nat): (s: string)
    ensures s != [] && forall c :: c in s ==> IsDigit(c)
  {
    (if n < 10 then [] else Printed(n / 10)) + ['0' + (n % 10) as char]
  }

  function Valued(s: string): nat {
    if s == [] then 0
    else
      var c := s[|s| - 1];
      10 * Valued(s[..|s| - 1]) + if IsDigit(c) then (c - '0') as nat else 0
  }

  /** An unsigned integer type's `parse`: an optional plus sign, digits, and no overflow. */
  function ParseUint(s: string, max: nat): Option<nat> {
    var digits := if |s| > 1 && s[0] == '+' then s[1..] else s;
    if digits != [] && (forall c :: c in digits ==> IsDigit(c)) && Valued(digits) <= max then Some(Valued(digits))
    else None
  }

  lemma {:induction false} PrintedValue(n: nat)
    ensures Valued(Printed(n)) == n
  {
    var s := Printed(n);
    if n >= 10 {
      PrintedValue(n / 10);
      assert s[..|s| - 1] == Printed(n / 10);
    }
  }

  /** Printing and parsing a number is the identity within the type's range, and fails beyond it. */
  lemma ParsePrinted(n: nat, max: nat)
    ensures ParseUint(Printed(n), max) == if n <= max then Some(n) else None
  {
    PrintedValue(n);
    assert Printed(n)[0] in Printed(n);
  }

  function PowerOfTen(k: nat): nat {
    if k == 0 then 1 else 10 * PowerOfTen(k - 1)
  }

  lemma {:induction false} PrintedIsShort(n: nat, k: nat)
    requires k > 0 && n < PowerOfTen(k)
    ensures |Printed(n)| <= k
  {
    if n >= 10 {
      PrintedIsShort(n / 10, k - 1);
    }
  }

  /** A plus sign before the digits is taken, and nothing else but digits is. */
  lemma PlusIsTaken(n: nat, max: nat)
    ensures ParseUint(['+'] + Printed(n), max) == ParseUint(Printed(n), max)
  {
    var digits := Printed(n);
    assert digits[0] in digits && (['+'] + digits)[1..] == digits;
  }

  lemma OnlyDigitsParse(s: string, max: nat)
    requires ParseUint(s, max).Some?
    ensures forall k :: 0 <= k < |s| ==> IsDigit(s[k]) || (k == 0 && s[k] == '+' && |s| > 1)
  {
    if |s| > 1 && s[0] == '+' {
      assert forall k :: 1 <= k < |s| ==> s[k] == s[1..][k - 1];
    }
  }

  // ── trimming ───────────────────────────────────────────────────────────────────────────────

  predicate IsWhitespace(c: char) {
    || '\U{0009}' <= c <= '\U{000D}' || c == ' ' || c == '\U{0085}' || c == '\U{00A0}' || c == '\U{1680}'
    || '\U{2000}' <= c <= '\U{200A}' || c == '\U{2028}' || c == '\U{2029}' || c == '\U{202F}'
    || c == '\U{205F}' || c == '\U{3000}'
  }

  predicate IsQuote(c: char) {
    c == '"'
  }

  function TrimStart(s: string, drop: char -> bool): string {
    if s != [] && drop(s[0]) then TrimStart(s[1..], drop) else s
  }

  function TrimEnd(s: string, drop: char -> bool): string {
    if s != [] && drop(s[|s| - 1]) then TrimEnd(s[..|s| - 1], drop) else s
  }

  function Trim(s: string, drop: char -> bool): string {
    TrimEnd(TrimStart(s, drop), drop)
  }

  /** Text nothing of which is to be dropped comes out of its wrapping unchanged. */
  lemma TrimWrapped(s: string, drop: char -> bool, c: char)
    requires forall x :: x in s ==> !drop(x)
    ensures Trim(s, drop) == s
    ensures drop(c) ==> Trim([c] + s, drop) == s && Trim([c] + s + [c], drop) == s
  {
    assert s != [] ==> s[0] in s && s[|s| - 1] in s;
    if drop(c) {
      assert ([c] + s)[1..] == s && (s + [c])[..|s|] == s;
      assert [c] + s + [c] == [c] + (s + [c]) && ([c] + (s + [c]))[1..] == s + [c];
      if s == [] {
        assert TrimStart([c], drop) == TrimStart([], drop);
      }
    }
  }

  /** Text that begins and ends with what stays, behind one character to drop. */
  lemma TrimBefore(s: string, drop: char -> bool, c: char)
    requires s != [] && !drop(s[0]) && !drop(s[|s| - 1]) && drop(c)
    ensures Trim([c] + s, drop) == s && Trim(s, drop) == s
  {
    assert ([c] + s)[1..] == s;
    assert TrimStart([c] + s, drop) == TrimStart(s, drop) == s;
    assert TrimEnd(s, drop) == s;
  }

  // ── lines ──────────────────────────────────────────────────────────────────────────────────

  function IndexOf(s: string, c: char): (i: nat)
    ensures i <= |s| && c !in s[..i] && (i < |s| ==> s[i] == c)
  {
    if s == [] || s[0] == c then 0 else 1 + IndexOf(s[1..], c)
  }

  lemma IndexIs(s: string, c: char, i: nat)
    requires i <= |s| && c !in s[..i] && (i < |s| ==> s[i] == c)
    ensures IndexOf(s, c) == i
  {
    var k := IndexOf(s, c);
  }

  function StripCarriage(line: string): string {
    if line != [] && line[|line| - 1] == '\r' then line[..|line| - 1] else line
  }

  /** `str::lines`: a line feed ends a line, with the carriage return before it. */
  function Lines(s: string): seq<string>
    decreases |s|
  {
    if s == [] then []
    else
      var i := IndexOf(s, '\n');
      if i == |s| then [s] else [StripCarriage(s[..i])] + Lines(s[i + 1..])
  }

  lemma LinesOf(line: string, rest: string)
    requires '\n' !in line && '\r' !in line
    ensures Lines(line + ['\n'] + rest) == [line] + Lines(rest)
  {
    var s := line + ['\n'] + rest;
    assert s[..|line|] == line && s[|line| + 1..] == rest;
    IndexIs(s, '\n', |line|);
  }

  /** A carriage return before the line feed goes with it. */
  lemma LinesOfCarriage(line: string, rest: string)
    requires '\n' !in line
    ensures Lines(line + ['\r', '\n'] + rest) == [line] + Lines(rest)
  {
    var s := line + ['\r', '\n'] + rest;
    assert s[..|line| + 1] == line + ['\r'] && s[|line| + 2..] == rest;
    IndexIs(s, '\n', |line| + 1);
  }

  /** The last line may lack its line feed. */
  lemma LastLine(line: string)
    requires '\n' !in line && line != []
    ensures Lines(line) == [line]
  {
    IndexIs(line, '\n', |line|);
  }

  predicate StartsWith(s: string, prefix: string) {
    |prefix| <= |s| && s[..|prefix|] == prefix
  }

  /** The size of the text in UTF-8. */
  function Size(s: string): nat {
    if s == [] then 0
    else Size(s[..|s| - 1]) + (var c := s[|s| - 1];
           if c <= '\U{007F}' then 1 else if c <= '\U{07FF}' then 2 else if c <= '\U{FFFF}' then 3 else 4)
  }

  lemma {:induction false} AsciiSize(s: string)
    requires forall i :: 0 <= i < |s| ==> s[i] <= '\U{007F}'
    ensures Size(s) == |s|
  {
    if s != [] {
      AsciiSize(s[..|s| - 1]);
    }
  }

  /** What the writers take: visible ASCII without a quote. */
  predicate IsToken(s: string) {
    forall c :: c in s ==> Plain(c) && !IsQuote(c)
  }

  predicate Plain(c: char) {
    '\U{0021}' <= c <= '\U{007E}'
  }

  lemma TokenIsItself(s: string)
    requires IsToken(s)
    ensures Trim(s, IsWhitespace) == s && Trim(s, IsQuote) == s
  {
    TrimWrapped(s, IsWhitespace, ' ');
    TrimWrapped(s, IsQuote, '"');
  }
}
