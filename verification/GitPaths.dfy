/** Paths as git prints them and as `_unquote` reads them back (diff.py). */
module GitPaths {
  import opened Basics
  import opened Utf8

  predicate InRange(c: char, low: char, high: char) {
    low <= c <= high
  }

  function EscapeLetter(c: char): Option<byte> {
    match c
    case 'a' => Some(7)
    case 'b' => Some(8)
    case 't' => Some(9)
    case 'n' => Some(10)
    case 'v' => Some(11)
    case 'f' => Some(12)
    case 'r' => Some(13)
    case '\\' => Some(92)
    case '"' => Some(34)
    case _ => None
  }

  predicate IsSpace(c: char) {
    c in {' ', '\t', '\n', '\r', '\U{0B}', '\U{0C}', '\U{1C}', '\U{1D}', '\U{1E}', '\U{1F}', '\U{85}', '\U{A0}'}
  }

  function StripRight(t: string): string {
    if t != "" && IsSpace(t[|t| - 1]) then StripRight(t[..|t| - 1]) else t
  }

  /** `int(t, 8)` for a text that begins with a digit; single underscores may stand between digits. */
  function OctalDigits(t: string): (r: Option<nat>)
    decreases |t|
  {
    if t == "" then None
    else
      var last := t[|t| - 1];
      if !InRange(last, '0', '7') then None
      else
        var d := last as int - '0' as int;
        if |t| == 1 then Some(d)
        else
          var head := if t[|t| - 2] == '_' then OctalDigits(t[..|t| - 2]) else OctalDigits(t[..|t| - 1]);
          if head.None? then None else Some(head.value * 8 + d)
  }

  /** `bytearray.append(int(t, 8))`. */
  function OctalByte(t: string): Result<byte, string> {
    var n := OctalDigits(StripRight(t));
    if n.None? then Err("ValueError") else if n.value > 255 then Err("ValueError") else Ok(n.value)
  }

  function DigitValue(c: char): nat
    requires '0' <= c <= '7'
  {
    c as int - '0' as int
  }

  /** One, two or three octal digits make a byte if it is one; `int` also takes an underscore between digits and blanks after them. */
  lemma OctalForms(a: char, b: char, c: char)
    requires '0' <= a <= '7' && '0' <= b <= '7' && '0' <= c <= '7'
    ensures OctalByte([a]) == Ok(DigitValue(a)) && OctalByte([a, b]) == Ok(8 * DigitValue(a) + DigitValue(b))
    ensures var n := 64 * DigitValue(a) + 8 * DigitValue(b) + DigitValue(c);
            OctalByte([a, b, c]) == if n <= 255 then Ok(n) else Err("ValueError")
    ensures OctalByte([a, '_', c]) == Ok(8 * DigitValue(a) + DigitValue(c))
    ensures OctalByte([a, b, ' ']) == Ok(8 * DigitValue(a) + DigitValue(b))
  {
    assert [a, b][..1] == [a] && [a, b, c][..2] == [a, b] && [a, '_', c][..1] == [a] && [a, b, ' '][..2] == [a, b];
    assert OctalDigits([a]) == Some(DigitValue(a)) && OctalDigits([a, b]) == Some(8 * DigitValue(a) + DigitValue(b));
  }

  /** Anything else after the backslash and a digit is an error, such as an eight. */
  lemma NoOctal(d: char)
    requires d in "89"
    ensures OctalByte([d]) == Err("ValueError") && UnquoteBytes(['\\', d]) == Err("ValueError")
  {
    assert Clip(['\\', d], 1, 4) == [d];
  }

  function Clip(s: string, i: nat, j: nat): string
    requires i <= |s| && i <= j
  {
    s[i..if j <= |s| then j else |s|]
  }

  function Prepend(b: seq<byte>, rest: Result<seq<byte>, string>): Result<seq<byte>, string> {
    match rest
    case Ok(bytes) => Ok(b + bytes)
    case Err(e) => Err(e)
  }

  /** The bytes that a quoted text stands for. */
  function UnquoteBytes(raw: string): Result<seq<byte>, string>
    decreases |raw|
  {
    if raw == "" then Ok([])
    else if raw[0] != '\\' then Prepend(EncodeChar(raw[0]), UnquoteBytes(raw[1..]))
    else if |raw| == 1 then Err("IndexError")
    else if EscapeLetter(raw[1]).Some? then Prepend([EscapeLetter(raw[1]).value], UnquoteBytes(raw[2..]))
    else if InRange(raw[1], '0', '9') then
      match OctalByte(Clip(raw, 1, 4))
      case Err(e) => Err(e)
      case Ok(b) => Prepend([b], UnquoteBytes(Clip(raw, if |raw| < 4 then |raw| else 4, |raw|)))
    else Prepend(EncodeChar(raw[1]), UnquoteBytes(raw[2..]))
  }

  predicate Quoted(path: string) {
    path != "" && path[0] == '"' && path[|path| - 1] == '"'
  }

  /** `path[1:-1]`, which is empty when the only character is both quotes. */
  function Inner(path: string): string
    requires Quoted(path)
  {
    if |path| == 1 then "" else path[1..|path| - 1]
  }

  function UnquotedPath(path: string): Result<string, string> {
    if !Quoted(path) then Ok(path)
    else
      match UnquoteBytes(Inner(path))
      case Ok(bytes) => Ok(Decode(bytes))
      case Err(e) => Err(e)
  }

  /** A path without a quote at both ends is taken as it is. */
  lemma PlainIsKept(path: string)
    requires path == "" || path[0] != '"' || path[|path| - 1] != '"'
    ensures UnquotedPath(path) == Ok(path)
  {
  }

  /** A backslash before any other character is dropped. */
  lemma OtherEscape(c: char, rest: string)
    requires !('0' <= c <= '9') && c !in "abtnvfr\\\""
    ensures UnquoteBytes("\\" + ([c] + rest)) == Prepend(EncodeChar(c), UnquoteBytes(rest))
  {
    var raw := "\\" + ([c] + rest);
    assert raw[0] == '\\' && raw[1] == c && raw[2..] == rest;
  }

  method Unquote(path: string) returns (r: Result<string, string>)
    ensures r == UnquotedPath(path)
  {
    if !Quoted(path) {
      return Ok(path);
    }
    var raw := Inner(path);
    var out: seq<byte> := [];
    assert raw[0..] == raw && (UnquoteBytes(raw).Ok? ==> [] + UnquoteBytes(raw).value == UnquoteBytes(raw).value);
    var i := 0;
    while i < |raw|
      invariant 0 <= i <= |raw|
      invariant UnquoteBytes(raw) == Prepend(out, UnquoteBytes(raw[i..]))
    {
      ghost var rest := raw[i..];
      var c := raw[i];
      if c != '\\' {
        assert rest[1..] == raw[i + 1..];
        PrependTwice(out, EncodeChar(c), UnquoteBytes(rest[1..]));
        out := out + EncodeChar(c);
        i := i + 1;
        continue;
      }
      if i + 1 == |raw| {
        return Err("IndexError");
      }
      var next := raw[i + 1];
      assert rest[2..] == raw[i + 2..];
      if EscapeLetter(next).Some? {
        PrependTwice(out, [EscapeLetter(next).value], UnquoteBytes(rest[2..]));
        out := out + [EscapeLetter(next).value];
        i := i + 2;
      } else if InRange(next, '0', '9') {
        assert Clip(rest, 1, 4) == Clip(raw, i + 1, i + 4);
        var b := OctalByte(Clip(raw, i + 1, i + 4));
        if b.Err? {
          return Err(b.error);
        }
        var n := if |raw| - i < 4 then |raw| - i else 4;
        assert Clip(rest, n, |rest|) == raw[i + n..];
        PrependTwice(out, [b.value], UnquoteBytes(raw[i + n..]));
        out := out + [b.value];
        i := i + n;
      } else {
        PrependTwice(out, EncodeChar(next), UnquoteBytes(rest[2..]));
        out := out + EncodeChar(next);
        i := i + 2;
      }
    }
    assert raw[i..] == "" && out + [] == out;
    return Ok(Decode(out));
  }

  lemma PrependTwice(a: seq<byte>, b: seq<byte>, rest: Result<seq<byte>, string>)
    ensures Prepend(a, Prepend(b, rest)) == Prepend(a + b, rest)
  {
    if rest.Ok? {
      assert a + (b + rest.value) == (a + b) + rest.value;
    }
  }

  // ----- the printed form -----

  predicate Plain(b: byte) {
    32 <= b < 127 && b != 34 && b != 92
  }

  function Octal(b: byte): string {
    [('0' as int + b / 64) as char, ('0' as int + b / 8 % 8) as char, ('0' as int + b % 8) as char]
  }

  function QuoteByte(b: byte): string {
    if Plain(b) then [b as char]
    else if b == 34 then "\\\""
    else if b == 92 then "\\\\"
    else if 7 <= b <= 13 then ['\\', "abtnvfr"[b - 7]]
    else "\\" + Octal(b)
  }

  function QuoteBytes(b: seq<byte>): string {
    if b == [] then "" else QuoteByte(b[0]) + QuoteBytes(b[1..])
  }

  /** A path is quoted when one of its bytes needs it. */
  function GitPath(path: string): string {
    if forall b | b in Encode(path) :: Plain(b) then path else "\"" + QuoteBytes(Encode(path)) + "\""
  }

  lemma OctalRoundTrip(b: byte)
    ensures OctalByte(Octal(b)) == Ok(b)
  {
    var t := Octal(b);
    assert StripRight(t) == t;
    assert t[..2] == [t[0], t[1]] && t[..2][..1] == [t[0]];
    assert OctalDigits(t[..2][..1]) == Some(b / 64);
    assert OctalDigits(t[..2]) == Some(b / 64 * 8 + b / 8 % 8);
  }

  lemma UnquotePlain(b: byte, rest: string)
    requires Plain(b)
    ensures UnquoteBytes([b as char] + rest) == Prepend([b], UnquoteBytes(rest))
  {
    var t := [b as char] + rest;
    assert t[1..] == rest && EncodeChar(t[0]) == [b];
  }

  lemma UnquoteLetter(c: char, rest: string)
    requires EscapeLetter(c).Some?
    ensures UnquoteBytes(['\\', c] + rest) == Prepend([EscapeLetter(c).value], UnquoteBytes(rest))
  {
    var t := ['\\', c] + rest;
    assert t[2..] == rest;
  }

  lemma UnquoteOctal(b: byte, rest: string)
    ensures UnquoteBytes("\\" + Octal(b) + rest) == Prepend([b], UnquoteBytes(rest))
  {
    var t := "\\" + Octal(b) + rest;
    OctalRoundTrip(b);
    assert Clip(t, 1, 4) == Octal(b) && Clip(t, 4, |t|) == rest;
    assert t[1] == Octal(b)[0] && EscapeLetter(t[1]).None?;
  }

  lemma UnquoteOne(b: byte, rest: string)
    ensures UnquoteBytes(QuoteByte(b) + rest) == Prepend([b], UnquoteBytes(rest))
  {
    if Plain(b) {
      UnquotePlain(b, rest);
    } else if b == 34 {
      UnquoteLetter('"', rest);
      assert QuoteByte(b) == ['\\', '"'];
    } else if b == 92 {
      UnquoteLetter('\\', rest);
      assert QuoteByte(b) == ['\\', '\\'];
    } else if 7 <= b <= 13 {
      UnquoteLetter("abtnvfr"[b - 7], rest);
    } else {
      UnquoteOctal(b, rest);
    }
  }

  lemma {:induction false} UnquoteQuoted(b: seq<byte>)
    ensures UnquoteBytes(QuoteBytes(b)) == Ok(b)
  {
    if b != [] {
      UnquoteOne(b[0], QuoteBytes(b[1..]));
      UnquoteQuoted(b[1..]);
      assert b == [b[0]] + b[1..];
    }
  }

  /** Every path comes back from its printed form. */
  lemma PathRoundTrip(path: string)
    ensures UnquotedPath(GitPath(path)) == Ok(path)
  {
    if forall b | b in Encode(path) :: Plain(b) {
      if Quoted(path) {
        assert path[0] in path;
        EncodedChar(path, '"');
      }
    } else {
      var t := GitPath(path);
      assert Inner(t) == QuoteBytes(Encode(path));
      UnquoteQuoted(Encode(path));
      DecodeEncoded(path);
    }
  }

  predicate Printable(s: string) {
    forall c | c in s :: ' ' <= c <= '~'
  }

  lemma {:induction false} QuotedIsPrintable(b: seq<byte>)
    ensures Printable(QuoteBytes(b))
  {
    if b != [] {
      QuotedIsPrintable(b[1..]);
      assert Printable(QuoteByte(b[0]));
    }
  }

  lemma GitPathIsPrintable(path: string)
    ensures Printable(GitPath(path))
  {
    QuotedIsPrintable(Encode(path));
    if forall b | b in Encode(path) :: Plain(b) {
      forall c | c in path ensures ' ' <= c <= '~' {
        EncodedAscii(path, c);
        assert Plain(c as int);
      }
    }
  }
}
