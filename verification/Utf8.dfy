/** UTF-8 as Python encodes and decodes it (`errors="replace"`), on Unicode scalar values. */
module Utf8 {
  import opened Basics

  type byte = b: int | 0 <= b < 256

  function EncodeChar(c: char): (r: seq<byte>)
    ensures 1 <= |r| <= 4 && (c as int < 0x80 <==> r == [c as int])
  {
    var n := c as int;
    if n < 0x80 then [n]
    else if n < 0x800 then [0xC0 + n / 64, 0x80 + n % 64]
    else if n < 0x10000 then [0xE0 + n / 4096, 0x80 + n / 64 % 64, 0x80 + n % 64]
    else [0xF0 + n / 262144, 0x80 + n / 4096 % 64, 0x80 + n / 64 % 64, 0x80 + n % 64]
  }

  function Encode(s: string): seq<byte> {
    if s == "" then [] else EncodeChar(s[0]) + Encode(s[1..])
  }

  predicate Continuation(b: seq<byte>, k: nat) {
    k < |b| && 0x80 <= b[k] < 0xC0
  }

  /** Whether the second byte may follow the first one of three or four bytes. */
  predicate SecondByte(b: seq<byte>)
    requires b != []
  {
    && Continuation(b, 1)
    && (b[0] == 0xE0 ==> b[1] >= 0xA0) && (b[0] == 0xED ==> b[1] < 0xA0)
    && (b[0] == 0xF0 ==> b[1] >= 0x90) && (b[0] == 0xF4 ==> b[1] < 0x90)
  }

  /** The number after the marker bits of a byte, put before `more` bits. */
  function Bits(b: byte, marker: int, more: int): int {
    (b as int - marker) * more
  }

  /** The first character and the length of its bytes; an invalid start is replaced as far as it could have been valid. */
  function DecodeFirst(b: seq<byte>): (r: (char, nat))
    requires b != []
    ensures 1 <= r.1 <= |b|
  {
    if b[0] < 0x80 then (b[0] as char, 1)
    else if 0xC2 <= b[0] < 0xE0 then
      if !Continuation(b, 1) then ('\U{FFFD}', 1)
      else ((Bits(b[0], 0xC0, 64) + Bits(b[1], 0x80, 1)) as char, 2)
    else if 0xE0 <= b[0] < 0xF0 then
      if !SecondByte(b) then ('\U{FFFD}', 1)
      else if !Continuation(b, 2) then ('\U{FFFD}', 2)
      else ((Bits(b[0], 0xE0, 4096) + Bits(b[1], 0x80, 64) + Bits(b[2], 0x80, 1)) as char, 3)
    else if 0xF0 <= b[0] < 0xF5 then
      if !SecondByte(b) then ('\U{FFFD}', 1)
      else if !Continuation(b, 2) then ('\U{FFFD}', 2)
      else if !Continuation(b, 3) then ('\U{FFFD}', 3)
      else ((Bits(b[0], 0xF0, 262144) + Bits(b[1], 0x80, 4096) + Bits(b[2], 0x80, 64) + Bits(b[3], 0x80, 1)) as char, 4)
    else ('\U{FFFD}', 1)
  }

  function Decode(b: seq<byte>): string
    decreases |b|
  {
    if b == [] then "" else [DecodeFirst(b).0] + Decode(b[DecodeFirst(b).1..])
  }

  lemma DecodeTwo(n: int, b: seq<byte>)
    requires 0x80 <= n < 0x800 && |b| >= 2 && b[0] == 0xC0 + n / 64 && b[1] == 0x80 + n % 64
    ensures DecodeFirst(b) == (n as char, 2)
  {
  }

  lemma DecodeThree(n: int, b: seq<byte>)
    requires 0x800 <= n < 0xD800 || 0xE000 <= n < 0x10000
    requires |b| >= 3 && b[0] == 0xE0 + n / 4096 && b[1] == 0x80 + n / 64 % 64 && b[2] == 0x80 + n % 64
    ensures DecodeFirst(b) == (n as char, 3)
  {
    assert n / 64 == n / 4096 * 64 + n / 64 % 64;
  }

  lemma DecodeFour(n: int, b: seq<byte>)
    requires 0x10000 <= n < 0x110000 && |b| >= 4
    requires b[0] == 0xF0 + n / 262144 && b[1] == 0x80 + n / 4096 % 64 && b[2] == 0x80 + n / 64 % 64 && b[3] == 0x80 + n % 64
    ensures DecodeFirst(b) == (n as char, 4)
  {
    assert n / 64 == n / 4096 * 64 + n / 64 % 64;
    assert n / 4096 == n / 262144 * 64 + n / 4096 % 64;
  }

  lemma DecodeChar(c: char, rest: seq<byte>)
    ensures DecodeFirst(EncodeChar(c) + rest) == (c, |EncodeChar(c)|)
  {
    var n := c as int;
    var b := EncodeChar(c) + rest;
    if 0x80 <= n < 0x800 {
      DecodeTwo(n, b);
    } else if 0x800 <= n < 0x10000 {
      DecodeThree(n, b);
    } else if 0x10000 <= n {
      DecodeFour(n, b);
    }
  }

  lemma TwoBytes(x: int, y: int, n: int)
    requires 0 <= y < 64 && n == x * 64 + y
    ensures n / 64 == x && n % 64 == y
  {
  }

  lemma ThreeBytes(x: int, y: int, z: int, n: int)
    requires 0 <= x && 0 <= y < 64 && 0 <= z < 64 && n == x * 4096 + y * 64 + z
    ensures n / 4096 == x && n / 64 % 64 == y && n % 64 == z
  {
    TwoBytes(x * 64 + y, z, n);
    TwoBytes(x, y, n / 64);
  }

  lemma FourBytes(w: int, x: int, y: int, z: int, n: int)
    requires 0 <= w && 0 <= x < 64 && 0 <= y < 64 && 0 <= z < 64 && n == w * 262144 + x * 4096 + y * 64 + z
    ensures n / 262144 == w && n / 4096 % 64 == x && n / 64 % 64 == y && n % 64 == z
  {
    TwoBytes(w * 4096 + x * 64 + y, z, n);
    ThreeBytes(w, x, y, n / 64);
    assert n / 4096 == n / 64 / 64;
  }

  /** What is not replaced was the encoding of the character. */
  lemma DecodedIsEncoded(b: seq<byte>)
    requires b != [] && DecodeFirst(b).0 != '\U{FFFD}'
    ensures b[..DecodeFirst(b).1] == EncodeChar(DecodeFirst(b).0)
  {
    var n := DecodeFirst(b).0 as int;
    if DecodeFirst(b).1 == 2 {
      TwoBytes(b[0] - 0xC0, b[1] - 0x80, n);
    } else if DecodeFirst(b).1 == 3 {
      ThreeBytes(b[0] - 0xE0, b[1] - 0x80, b[2] - 0x80, n);
    } else if DecodeFirst(b).1 == 4 {
      FourBytes(b[0] - 0xF0, b[1] - 0x80, b[2] - 0x80, b[3] - 0x80, n);
    }
  }

  /** A character is read exactly when its encoding comes first; whatever else comes first is replaced. */
  lemma DecodeFirstIff(b: seq<byte>, c: char)
    requires b != []
    ensures EncodeChar(c) <= b ==> DecodeFirst(b) == (c, |EncodeChar(c)|)
    ensures DecodeFirst(b).0 == c && c != '\U{FFFD}' ==> EncodeChar(c) <= b
  {
    if EncodeChar(c) <= b {
      DecodeChar(c, b[|EncodeChar(c)|..]);
      assert EncodeChar(c) + b[|EncodeChar(c)|..] == b;
    }
    if DecodeFirst(b).0 == c && c != '\U{FFFD}' {
      DecodedIsEncoded(b);
    }
  }

  lemma {:induction false} DecodeEncoded(s: string)
    ensures Decode(Encode(s)) == s
  {
    if s != "" {
      var b := Encode(s);
      DecodeChar(s[0], Encode(s[1..]));
      assert b[|EncodeChar(s[0])|..] == Encode(s[1..]);
      DecodeEncoded(s[1..]);
      assert s == [s[0]] + s[1..];
    }
  }

  lemma {:induction false} EncodedChar(s: string, c: char)
    requires c in s && c as int < 0x80
    ensures c as int in Encode(s)
  {
    if s[0] == c {
      assert Encode(s)[0] == c as int;
    } else {
      EncodedChar(s[1..], c);
    }
  }

  lemma {:induction false} EncodedAscii(s: string, c: char)
    requires c in s && forall b | b in Encode(s) :: b < 0x80
    ensures c as int in Encode(s)
  {
    if s[0] == c {
      assert Encode(s)[0] == EncodeChar(c)[0] && Encode(s)[0] in Encode(s);
    } else {
      assert forall b | b in Encode(s[1..]) :: b in Encode(s);
      EncodedAscii(s[1..], c);
    }
  }
}
