/** Python text operations that the parsers share: decimal numbers, lines, joins (`str`, `int`, `splitlines`, `join`). */
module Texts {
  import opened Basics

  // ----- decimal numbers (ASCII digits) -----

  predicate IsDigit(c: char) {
    '0' <= c <= '9'
  }

  predicate AllDigits(s: string) {
    forall c | c in s :: IsDigit(c)
  }

  function ToDecimal(n: nat): (s: string)
    ensures s != "" && AllDigits(s)
  {
    if n < 10 then [('0' as int + n) as char] else ToDecimal(n / 10) + [('0' as int + n % 10) as char]
  }

  function FromDecimal(s: string): nat
    requires AllDigits(s)
  {
    if s == "" then 0
    else FromDecimal(s[..|s| - 1]) * 10 + (assert s[|s| - 1] in s; (s[|s| - 1] as int - '0' as int))
  }

  lemma {:induction false} DecimalRoundTrip(n: nat)
    ensures FromDecimal(ToDecimal(n)) == n
  {
    if n < 10 {
      assert ToDecimal(n)[..0] == "";
    } else {
      DecimalRoundTrip(n / 10);
      assert ToDecimal(n)[..|ToDecimal(n)| - 1] == ToDecimal(n / 10);
    }
  }

  /** The length of the run of digits at the start of the text. */
  function DigitRun(s: string): (n: nat)
    ensures n <= |s| && AllDigits(s[..n]) && (n < |s| ==> !IsDigit(s[n]))
  {
    if s == "" || !IsDigit(s[0]) then 0
    else
      assert s[..DigitRun(s[1..]) + 1] == [s[0]] + s[1..][..DigitRun(s[1..])];
      DigitRun(s[1..]) + 1
  }

  lemma {:induction false} DigitRunStops(digits: string, rest: string)
    requires AllDigits(digits) && (rest == "" || !IsDigit(rest[0]))
    ensures DigitRun(digits + rest) == |digits|
  {
    if digits == "" {
      assert digits + rest == rest;
    } else {
      assert (digits + rest)[1..] == digits[1..] + rest;
      assert digits[0] in digits;
      DigitRunStops(digits[1..], rest);
    }
  }

  // ----- lines -----

  /** The characters at which `str.splitlines` breaks. */
  predicate IsBreak(c: char) {
    c in {'\n', '\r', '\U{0B}', '\U{0C}', '\U{1C}', '\U{1D}', '\U{1E}', '\U{85}', '\U{2028}', '\U{2029}'}
  }

  predicate NoBreak(s: string) {
    forall c | c in s :: !IsBreak(c)
  }

  function FirstBreak(t: string): (n: nat)
    ensures n <= |t| && NoBreak(t[..n]) && (n < |t| ==> IsBreak(t[n]))
  {
    if t == "" || IsBreak(t[0]) then 0
    else
      assert t[..FirstBreak(t[1..]) + 1] == [t[0]] + t[1..][..FirstBreak(t[1..])];
      FirstBreak(t[1..]) + 1
  }

  function SplitLines(t: string): seq<string>
    decreases |t|
  {
    if t == "" then []
    else
      var n := FirstBreak(t);
      if n == |t| then [t] else [t[..n]] + SplitLines(t[n + BreakLength(t, n)..])
  }

  /** A carriage return and a newline are one line break. */
  function BreakLength(t: string, n: nat): (k: nat)
    requires n < |t|
    ensures 1 <= k && n + k <= |t|
  {
    if t[n] == '\r' && n + 1 < |t| && t[n + 1] == '\n' then 2 else 1
  }

  /** Every line ended by a newline. */
  function Text(lines: seq<string>): string {
    if lines == [] then "" else lines[0] + "\n" + Text(lines[1..])
  }

  lemma {:induction false} SplitLinesHaveNoBreak(t: string, k: nat)
    requires k < |SplitLines(t)|
    ensures NoBreak(SplitLines(t)[k])
    decreases |t|
  {
    var n := FirstBreak(t);
    if n == |t| {
      assert t[..n] == t;
    } else if k > 0 {
      var rest := t[n + BreakLength(t, n)..];
      SplitLinesHaveNoBreak(rest, k - 1);
      assert SplitLines(t) == [t[..n]] + SplitLines(rest);
    }
  }

  lemma {:induction false} FirstBreakAt(line: string, rest: string)
    requires NoBreak(line)
    ensures FirstBreak(line + "\n" + rest) == |line|
  {
    if line != "" {
      assert line[0] in line;
      assert (line + "\n" + rest)[1..] == line[1..] + "\n" + rest;
      FirstBreakAt(line[1..], rest);
    }
  }

  lemma {:induction false} FirstBreakIs(line: string, rest: string)
    requires NoBreak(line) && rest != "" && IsBreak(rest[0])
    ensures FirstBreak(line + rest) == |line|
  {
    if line == "" {
      assert line + rest == rest;
    } else {
      assert line[0] in line && (line + rest)[0] == line[0] && (line + rest)[1..] == line[1..] + rest;
      assert forall c | c in line[1..] :: c in line;
      FirstBreakIs(line[1..], rest);
    }
  }

  /** Any line break ends a line; a carriage return takes the newline after it along. */
  lemma LineEnds(line: string, brk: string, rest: string)
    requires NoBreak(line) && (brk == "\r\n" || (|brk| == 1 && IsBreak(brk[0])))
    requires brk == "\r" ==> rest == "" || rest[0] != '\n'
    ensures SplitLines(line + (brk + rest)) == [line] + SplitLines(rest)
  {
    var t := line + (brk + rest);
    assert (brk + rest)[0] == brk[0];
    FirstBreakIs(line, brk + rest);
    var n := |line|;
    assert t[n..] == brk + rest && t[..n] == line;
    assert BreakLength(t, n) == |brk| by {
      assert n + 1 < |t| ==> t[n + 1] == (brk + rest)[1];
    }
    assert t[n + |brk|..] == rest;
  }

  lemma {:induction false} SplitText(lines: seq<string>)
    requires forall k | 0 <= k < |lines| :: NoBreak(lines[k])
    ensures SplitLines(Text(lines)) == lines
  {
    if lines != [] {
      var t := Text(lines);
      var n := |lines[0]|;
      FirstBreakAt(lines[0], Text(lines[1..]));
      assert t == lines[0] + "\n" + Text(lines[1..]);
      assert t[n] == '\n' && t[..n] == lines[0] && t[n + 1..] == Text(lines[1..]);
      SplitText(lines[1..]);
      assert lines == [lines[0]] + lines[1..];
    }
  }

  /** Lines come back from their text exactly when none of them contains a line break. */
  lemma LinesComeBackIff(lines: seq<string>)
    ensures SplitLines(Text(lines)) == lines <==> forall k | 0 <= k < |lines| :: NoBreak(lines[k])
  {
    if forall k | 0 <= k < |lines| :: NoBreak(lines[k]) {
      SplitText(lines);
    } else {
      var k :| 0 <= k < |lines| && !NoBreak(lines[k]);
      if SplitLines(Text(lines)) == lines {
        SplitLinesHaveNoBreak(Text(lines), k);
      }
    }
  }

  // ----- joining with newlines -----

  function JoinLines(lines: seq<string>): string {
    if lines == [] then "" else if |lines| == 1 then lines[0] else lines[0] + "\n" + JoinLines(lines[1..])
  }

  /** The pieces between newlines; at least one. */
  function SplitNewline(t: string): (r: seq<string>)
    ensures r != []
  {
    if t == "" then [""]
    else
      var rest := SplitNewline(t[1..]);
      if t[0] == '\n' then [""] + rest else [[t[0]] + rest[0]] + rest[1..]
  }

  lemma {:induction false} SplitNewlineOne(line: string)
    requires '\n' !in line
    ensures SplitNewline(line) == [line]
  {
    if line != "" {
      SplitNewlineOne(line[1..]);
      assert [line[0]] + line[1..] == line;
    }
  }

  lemma {:induction false} SplitNewlineFirst(line: string, rest: string)
    requires '\n' !in line
    ensures SplitNewline(line + "\n" + rest) == [line] + SplitNewline(rest)
  {
    var t := line + "\n" + rest;
    if line == "" {
      assert t == "\n" + rest && t[1..] == rest;
    } else {
      SplitNewlineFirst(line[1..], rest);
      assert t[1..] == line[1..] + "\n" + rest;
      assert [line[0]] + line[1..] == line;
    }
  }

  lemma {:induction false} SplitJoined(lines: seq<string>)
    requires lines != [] && forall k | 0 <= k < |lines| :: '\n' !in lines[k]
    ensures SplitNewline(JoinLines(lines)) == lines
  {
    if |lines| == 1 {
      SplitNewlineOne(lines[0]);
    } else {
      SplitNewlineFirst(lines[0], JoinLines(lines[1..]));
      SplitJoined(lines[1..]);
      assert lines == [lines[0]] + lines[1..];
    }
  }

  lemma Halves(a: string, b: string)
    ensures (a + b)[..|a|] == a && (a + b)[|a|..] == b
  {
  }

  lemma Reassociate<T>(a: seq<T>, b: seq<T>, c: seq<T>)
    ensures (a + b) + c == a + (b + c)
  {
  }

  // ----- white space -----

  /** The characters that Python's `strip` and `split` take for white space. */
  const PYTHON_WHITESPACE: set<char> := {
    '\t', '\n', '\U{0B}', '\U{0C}', '\r', '\U{1C}', '\U{1D}', '\U{1E}', '\U{1F}', ' ', '\U{85}', '\U{A0}', '\U{1680}',
    '\U{2000}', '\U{2001}', '\U{2002}', '\U{2003}', '\U{2004}', '\U{2005}', '\U{2006}', '\U{2007}', '\U{2008}',
    '\U{2009}', '\U{200A}', '\U{2028}', '\U{2029}', '\U{202F}', '\U{205F}', '\U{3000}'}

  /** `strip` leaves nothing. */
  predicate Blank(text: string) {
    forall c | c in text :: c in PYTHON_WHITESPACE
  }

  // ----- repository names -----

  predicate NameChar(c: char) {
    'A' <= c <= 'Z' || 'a' <= c <= 'z' || '0' <= c <= '9' || c in "._-"
  }

  ghost predicate NameLetter(c: char) {
    c in "ABCDEFGHIJKLMNOPQRSTUVWXYZ" || c in "abcdefghijklmnopqrstuvwxyz" || c in "0123456789" || c in "._-"
  }

  lemma NameCharIff(c: char)
    ensures NameChar(c) <==> NameLetter(c)
  {
  }

  ghost predicate NamePart(s: string) {
    s != "" && forall c | c in s :: NameLetter(c)
  }

  lemma NamePartChars(s: string)
    ensures NamePart(s) <==> s != "" && forall c | c in s :: NameChar(c)
  {
    forall c | c in s ensures NameChar(c) <==> NameLetter(c) {
      NameCharIff(c);
    }
  }

  /** Two parts with a slash between them are a name exactly when both consist of letters, digits and `._-`. */
  lemma RepositoryNameIff(owner: string, name: string)
    requires '/' !in owner
    ensures RepositoryName(owner + "/" + name) <==> NamePart(owner) && NamePart(name)
  {
    var s := owner + "/" + name;
    var n := |owner|;
    NamePartChars(owner);
    NamePartChars(name);
    assert s[n] == '/' && !NameChar('/');
    assert forall i | 0 <= i < n :: s[i] == owner[i] && owner[i] in owner;
    assert forall i | 0 <= i < |name| :: s[n + 1 + i] == name[i];
    if RepositoryName(s) {
      var k :| 0 < k < |s| - 1 && s[k] == '/' && forall i | 0 <= i < |s| && i != k :: NameChar(s[i]);
      assert k == n;
      forall c | c in name ensures NameChar(c) {
        var i :| 0 <= i < |name| && name[i] == c;
        assert s[n + 1 + i] == c;
      }
    }
    if NamePart(owner) && NamePart(name) {
      forall i | 0 <= i < |s| && i != n ensures NameChar(s[i]) {
        assert s[i] == if i < n then owner[i] else name[i - n - 1];
      }
    }
  }

  /** `owner/name`: `[A-Za-z0-9._-]+/[A-Za-z0-9._-]+`, matched from end to end. */
  predicate RepositoryName(s: string) {
    exists k | 0 < k < |s| - 1 :: s[k] == '/' && forall i | 0 <= i < |s| && i != k :: NameChar(s[i])
  }
}
