/**
 * UTF-8 encoding of strings (Python's `str.encode()`) and the base64
 * encoding of section 4 of RFC 4648 (Python's `base64.b64encode`), with a
 * decoder that inverts it. The STK push password is built from these.
 */
module Base64 {
  import opened Common

  type Byte = x: int | 0 <= x < 256

  // ---------------------------------------------------------------------
  // UTF-8
  // ---------------------------------------------------------------------

  /** The UTF-8 bytes of one Unicode scalar value. */
  function Utf8Char(c: char): (r: seq<Byte>)
    ensures 1 <= |r| <= 4
    ensures (c as int < 0x80) <==> |r| == 1
    ensures c as int < 0x80 ==> r == [c as int]
    ensures forall i :: 0 < i < |r| ==> 0x80 <= r[i] < 0xC0
  {
    var n := c as int;
    if n < 0x80 then [n]
    else if n < 0x800 then [0xC0 + n / 64, 0x80 + n % 64]
    else if n < 0x10000 then [0xE0 + n / 4096, 0x80 + n / 64 % 64, 0x80 + n % 64]
    else [0xF0 + n / 262144, 0x80 + n / 4096 % 64, 0x80 + n / 64 % 64, 0x80 + n % 64]
  }

  function Utf8(s: string): (r: seq<Byte>)
    ensures |r| >= |s|
  {
    if s == [] then [] else Utf8Char(s[0]) + Utf8(s[1..])
  }

  predicate IsAscii(s: string) {
    forall i :: 0 <= i < |s| ==> s[i] as int < 0x80
  }

  /** An ASCII string encodes to its own character codes, one byte each. */
  lemma {:induction false} Utf8OfAscii(s: string)
    requires IsAscii(s)
    ensures |Utf8(s)| == |s|
    ensures forall i :: 0 <= i < |s| ==> Utf8(s)[i] == s[i] as int
  {
    if s != [] {
      Utf8OfAscii(s[1..]);
      assert Utf8(s) == [s[0] as int] + Utf8(s[1..]);
    }
  }

  /** Encoding distributes over concatenation. */
  lemma {:induction false} Utf8Append(a: string, b: string)
    ensures Utf8(a + b) == Utf8(a) + Utf8(b)
  {
    if a == [] {
      assert a + b == b;
    } else {
      assert (a + b)[1..] == a[1..] + b;
      Utf8Append(a[1..], b);
    }
  }

  // ---------------------------------------------------------------------
  // The base64 alphabet
  // ---------------------------------------------------------------------

  /** Character number i of the alphabet A-Z a-z 0-9 + /. */
  function CharOf(i: nat): (c: char)
    requires i < 64
    ensures IsBase64Char(c)
  {
    if i < 26 then ('A' as int + i) as char
    else if i < 52 then ('a' as int + i - 26) as char
    else if i < 62 then ('0' as int + i - 52) as char
    else if i == 62 then '+'
    else '/'
  }

  predicate IsBase64Char(c: char) {
    'A' <= c <= 'Z' || 'a' <= c <= 'z' || '0' <= c <= '9' || c == '+' || c == '/'
  }

  function IndexOf(c: char): (i: nat)
    requires IsBase64Char(c)
    ensures i < 64 && CharOf(i) == c
  {
    if 'A' <= c <= 'Z' then c as int - 'A' as int
    else if 'a' <= c <= 'z' then c as int - 'a' as int + 26
    else if '0' <= c <= '9' then c as int - '0' as int + 52
    else if c == '+' then 62
    else 63
  }

  lemma IndexOfCharOf(i: nat)
    requires i < 64
    ensures IsBase64Char(CharOf(i)) && IndexOf(CharOf(i)) == i
  {
  }

  // ---------------------------------------------------------------------
  // Groups of three bytes, four characters
  // ---------------------------------------------------------------------

  function EncodeGroup(b0: Byte, b1: Byte, b2: Byte): (r: string)
    ensures |r| == 4
  {
    [CharOf(b0 / 4), CharOf(b0 % 4 * 16 + b1 / 16), CharOf(b1 % 16 * 4 + b2 / 64), CharOf(b2 % 64)]
  }

  /** Two trailing bytes: three characters and one pad. */
  function EncodeTwo(b0: Byte, b1: Byte): (r: string)
    ensures |r| == 4
  {
    [CharOf(b0 / 4), CharOf(b0 % 4 * 16 + b1 / 16), CharOf(b1 % 16 * 4), '=']
  }

  /** One trailing byte: two characters and two pads. */
  function EncodeOne(b0: Byte): (r: string)
    ensures |r| == 4
  {
    [CharOf(b0 / 4), CharOf(b0 % 4 * 16), '=', '=']
  }

  /** `base64.b64encode`: every three bytes become four characters, the last group padded with '='. */
  function Encode(b: seq<Byte>): (r: string)
    ensures |r| == 4 * ((|b| + 2) / 3)
    decreases |b|
  {
    if |b| == 0 then ""
    else if |b| == 1 then EncodeOne(b[0])
    else if |b| == 2 then EncodeTwo(b[0], b[1])
    else EncodeGroup(b[0], b[1], b[2]) + Encode(b[3..])
  }

  /** The characters of an encoding are alphabet characters, then at most two pads. */
  lemma {:induction false} EncodeAlphabet(b: seq<Byte>)
    ensures var r := Encode(b);
      forall i :: 0 <= i < |r| ==> IsBase64Char(r[i]) || (r[i] == '=' && i >= |r| - 2)
    decreases |b|
  {
    if |b| >= 3 {
      EncodeAlphabet(b[3..]);
      var r := Encode(b);
      var g := EncodeGroup(b[0], b[1], b[2]);
      forall i | 0 <= i < |r| ensures IsBase64Char(r[i]) || (r[i] == '=' && i >= |r| - 2) {
        if i < 4 {
          assert r[i] == g[i];
        } else {
          assert r[i] == Encode(b[3..])[i - 4];
        }
      }
    }
  }

  // ---------------------------------------------------------------------
  // Decoding
  // ---------------------------------------------------------------------

  function DecodeGroup(c0: nat, c1: nat, c2: nat, c3: nat): seq<Byte>
    requires c0 < 64 && c1 < 64 && c2 < 64 && c3 < 64
  {
    [c0 * 4 + c1 / 16, c1 % 16 * 16 + c2 / 4, c2 % 4 * 64 + c3]
  }

  /** The inverse of Encode on well-formed input; None on anything else. */
  function Decode(s: string): (r: Option<seq<Byte>>)
    decreases |s|
  {
    if |s| == 0 then Some([])
    else if |s| < 4 || !IsBase64Char(s[0]) || !IsBase64Char(s[1]) then None
    else if |s| == 4 && s[2] == '=' && s[3] == '=' then
      Some([IndexOf(s[0]) * 4 + IndexOf(s[1]) / 16])
    else if !IsBase64Char(s[2]) then None
    else if |s| == 4 && s[3] == '=' then
      Some([IndexOf(s[0]) * 4 + IndexOf(s[1]) / 16, IndexOf(s[1]) % 16 * 16 + IndexOf(s[2]) / 4])
    else if !IsBase64Char(s[3]) then None
    else
      match Decode(s[4..])
      case None => None
      case Some(rest) => Some(DecodeGroup(IndexOf(s[0]), IndexOf(s[1]), IndexOf(s[2]), IndexOf(s[3])) + rest)
  }

  lemma SplitByte(b: Byte, n: nat)
    requires n == 4 || n == 16 || n == 64
    ensures b / n * n + b % n == b
  {
  }

  /** Dividing x * n + y by n gives x back, and the remainder y, when y < n. */
  lemma Recombine(x: nat, y: nat, n: nat)
    requires (n == 4 || n == 16) && y < n
    ensures (x * n + y) / n == x && (x * n + y) % n == y
  {
    if n == 4 {
      assert x * n + y == 4 * x + y;
    } else {
      assert x * n + y == 16 * x + y;
    }
  }

  /** The arithmetic of one group: the four sextets of three bytes give the bytes back. */
  lemma GroupArith(b0: Byte, b1: Byte, b2: Byte)
    ensures DecodeGroup(b0 / 4, b0 % 4 * 16 + b1 / 16, b1 % 16 * 4 + b2 / 64, b2 % 64) == [b0, b1, b2]
  {
    Recombine(b0 % 4, b1 / 16, 16);
    Recombine(b1 % 16, b2 / 64, 4);
    SplitByte(b0, 4);
    SplitByte(b1, 16);
    SplitByte(b2, 64);
  }

  lemma GroupRoundTrip(b0: Byte, b1: Byte, b2: Byte)
    ensures var g := EncodeGroup(b0, b1, b2);
      IsBase64Char(g[0]) && IsBase64Char(g[1]) && IsBase64Char(g[2]) && IsBase64Char(g[3]) &&
      DecodeGroup(IndexOf(g[0]), IndexOf(g[1]), IndexOf(g[2]), IndexOf(g[3])) == [b0, b1, b2]
  {
    var i0, i1, i2, i3 := b0 / 4, b0 % 4 * 16 + b1 / 16, b1 % 16 * 4 + b2 / 64, b2 % 64;
    var g := EncodeGroup(b0, b1, b2);
    assert IndexOf(g[0]) == i0 by { IndexOfCharOf(i0); }
    assert IndexOf(g[1]) == i1 by { IndexOfCharOf(i1); }
    assert IndexOf(g[2]) == i2 by { IndexOfCharOf(i2); }
    assert IndexOf(g[3]) == i3 by { IndexOfCharOf(i3); }
    GroupArith(b0, b1, b2);
  }

  lemma DecodeEncodeOne(b0: Byte)
    ensures Decode(EncodeOne(b0)) == Some([b0])
  {
    var i0, i1 := b0 / 4, b0 % 4 * 16;
    IndexOfCharOf(i0);
    IndexOfCharOf(i1);
    SplitByte(b0, 4);
  }

  lemma DecodeEncodeTwo(b0: Byte, b1: Byte)
    ensures Decode(EncodeTwo(b0, b1)) == Some([b0, b1])
  {
    var i0, i1, i2 := b0 / 4, b0 % 4 * 16 + b1 / 16, b1 % 16 * 4;
    IndexOfCharOf(i0);
    IndexOfCharOf(i1);
    IndexOfCharOf(i2);
    assert i1 / 16 == b0 % 4 && i1 % 16 == b1 / 16;
    SplitByte(b0, 4);
    SplitByte(b1, 16);
  }

  /** A full group followed by an encoding decodes to the group's bytes followed by the rest. */
  lemma DecodeGroupThen(b0: Byte, b1: Byte, b2: Byte, rest: string, tail: seq<Byte>)
    requires Decode(rest) == Some(tail)
    ensures Decode(EncodeGroup(b0, b1, b2) + rest) == Some([b0, b1, b2] + tail)
  {
    var g := EncodeGroup(b0, b1, b2);
    var s := g + rest;
    GroupRoundTrip(b0, b1, b2);
    assert s[0] == g[0] && s[1] == g[1] && s[2] == g[2] && s[3] == g[3];
    assert s[4..] == rest;
  }

  /** Decoding an encoding gives back the bytes. */
  lemma {:induction false} DecodeEncode(b: seq<Byte>)
    ensures Decode(Encode(b)) == Some(b)
    decreases |b|
  {
    if |b| == 1 {
      DecodeEncodeOne(b[0]);
      assert b == [b[0]];
    } else if |b| == 2 {
      DecodeEncodeTwo(b[0], b[1]);
      assert b == [b[0], b[1]];
    } else if |b| >= 3 {
      DecodeEncode(b[3..]);
      DecodeEncodeStep(b);
    }
  }

  /** One group more: if the encoding of the tail decodes to the tail, that of the whole decodes to the whole. */
  lemma DecodeEncodeStep(b: seq<Byte>)
    requires |b| >= 3 && Decode(Encode(b[3..])) == Some(b[3..])
    ensures Decode(Encode(b)) == Some(b)
  {
    SplitThree(b);
    DecodeGroupThen(b[0], b[1], b[2], Encode(b[3..]), b[3..]);
  }

  lemma SplitThree<T>(b: seq<T>)
    requires |b| >= 3
    ensures b == [b[0], b[1], b[2]] + b[3..]
  {
    assert b[..3] == [b[0], b[1], b[2]];
    assert b == b[..3] + b[3..];
  }

  /** Distinct byte strings have distinct encodings. */
  lemma EncodeInjective(a: seq<Byte>, b: seq<Byte>)
    requires Encode(a) == Encode(b)
    ensures a == b
  {
    DecodeEncode(a);
    DecodeEncode(b);
  }

  /** Test vectors of section 10 of RFC 4648. */
  lemma Rfc4648Vectors()
    ensures Encode([0x66]) == "Zg=="
    ensures Encode([0x66, 0x6F]) == "Zm8="
    ensures Encode([0x66, 0x6F, 0x6F]) == "Zm9v"
    ensures Encode([0x66, 0x6F, 0x6F, 0x62, 0x61, 0x72]) == "Zm9vYmFy"
  {
    assert [0x66, 0x6F, 0x6F, 0x62, 0x61, 0x72][3..] == [0x62, 0x61, 0x72];
  }
}
