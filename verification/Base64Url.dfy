/** Base64url without padding (RFC 4648, sections 3.2 and 5): the encoder strips the pad characters, the
    decoder restores them and scans leniently, as Python's binascii does outside strict mode. */
module Base64Url {
  import opened Basics

  type Byte = x: int | 0 <= x < 256

  const PAD := '='

  // ---- The alphabet ----

  function Digit(v: int): char
    requires 0 <= v < 64
  {
    if v < 26 then 'A' + v as char
    else if v < 52 then 'a' + (v - 26) as char
    else if v < 62 then '0' + (v - 52) as char
    else if v == 62 then '-' else '_'
  }

  /** The decoder also takes the standard alphabet's last two characters. */
  function Value(c: char): (v: Option<int>)
    ensures v.Some? ==> 0 <= v.value < 64
  {
    if 'A' <= c <= 'Z' then Some(c as int - 'A' as int)
    else if 'a' <= c <= 'z' then Some(26 + c as int - 'a' as int)
    else if '0' <= c <= '9' then Some(52 + c as int - '0' as int)
    else if c == '-' || c == '+' then Some(62)
    else if c == '_' || c == '/' then Some(63)
    else None
  }

  lemma DigitsHaveValues(v: int)
    requires 0 <= v < 64
    ensures Value(Digit(v)) == Some(v) && IsUrlSafe(Digit(v))
  {
  }

  // ---- Encoding ----

  function Quads(raw: seq<Byte>): string
  {
    if |raw| == 0 then ""
    else if |raw| == 1 then [Digit(raw[0] / 4), Digit(raw[0] % 4 * 16), PAD, PAD]
    else if |raw| == 2 then
      [Digit(raw[0] / 4), Digit(raw[0] % 4 * 16 + raw[1] / 16), Digit(raw[1] % 16 * 4), PAD]
    else FirstQuad(raw) + Quads(raw[3..])
  }

  function FirstQuad(raw: seq<Byte>): string
    requires |raw| >= 3
  {
    [Digit(raw[0] / 4), Digit(raw[0] % 4 * 16 + raw[1] / 16), Digit(raw[1] % 16 * 4 + raw[2] / 64), Digit(raw[2] % 64)]
  }

  function StripPads(s: string): string
  {
    if s != [] && s[|s| - 1] == PAD then StripPads(s[..|s| - 1]) else s
  }

  function Encode(raw: seq<Byte>): string
  {
    StripPads(Quads(raw))
  }

  // ---- Decoding ----

  function Pads(n: nat): string
  {
    if n == 0 then "" else [PAD] + Pads(n - 1)
  }

  /** The scan: the place in the quad, the bits left over, and the pads met since the last data character.
      Characters outside the alphabet are passed over; pads that complete a quad end the scan. */
  function Scan(s: string, quad: int, left: int, pads: nat): Option<seq<Byte>>
    requires 0 <= quad < 4 && 0 <= left < 64
    requires quad == 2 ==> left < 16
    requires quad == 3 ==> left < 4
    decreases |s|
  {
    if s == "" then
      if quad == 0 then Some([]) else None
    else if s[0] == PAD then
      if quad < 2 then Scan(s[1..], quad, left, pads)
      else if quad + pads + 1 >= 4 then Some([])
      else Scan(s[1..], quad, left, pads + 1)
    else match Value(s[0])
      case None => Scan(s[1..], quad, left, pads)
      case Some(v) =>
        if quad == 0 then Scan(s[1..], 1, v, 0)
        else if quad == 1 then Prepend(left * 4 + v / 16, Scan(s[1..], 2, v % 16, 0))
        else if quad == 2 then Prepend(left * 16 + v / 4, Scan(s[1..], 3, v % 4, 0))
        else Prepend(left * 64 + v, Scan(s[1..], 0, 0, 0))
  }

  function Prepend(b: Byte, rest: Option<seq<Byte>>): Option<seq<Byte>>
  {
    if rest.None? then None else Some([b] + rest.value)
  }

  predicate IsAscii(s: string)
  {
    forall i :: 0 <= i < |s| ==> s[i] as int < 128
  }

  function Decode(encoded: string): Option<seq<Byte>>
  {
    if !IsAscii(encoded) then None
    else Scan(encoded + Pads((4 - |encoded| % 4) % 4), 0, 0, 0)
  }

  // ---- Round trip ----

  /** The characters of the encoding proper. */
  function Unpadded(raw: seq<Byte>): string
  {
    if |raw| < 3 then Quads(raw)[..if |raw| == 0 then 0 else |raw| + 1]
    else FirstQuad(raw) + Unpadded(raw[3..])
  }

  /** Letters, digits, hyphen and underscore: nothing a URL would have to escape. */
  predicate InAlphabet(s: string)
  {
    forall i :: 0 <= i < |s| ==> IsUrlSafe(s[i])
  }

  predicate IsUrlSafe(c: char)
  {
    'A' <= c <= 'Z' || 'a' <= c <= 'z' || '0' <= c <= '9' || c == '-' || c == '_'
  }

  lemma {:induction false} UnpaddedIs(raw: seq<Byte>)
    ensures Quads(raw) == Unpadded(raw) + Pads((3 - |raw| % 3) % 3)
    ensures |Unpadded(raw)| == (4 * |raw| + 2) / 3
    decreases |raw|
  {
    if |raw| < 3 {
      ShortUnpaddedIs(raw);
    } else {
      var head, rest := FirstQuad(raw), raw[3..];
      UnpaddedIs(rest);
      assert Quads(raw)[..4] == head;
      assert head + (Unpadded(rest) + Pads((3 - |rest| % 3) % 3)) == (head + Unpadded(rest)) + Pads((3 - |rest| % 3) % 3);
      AfterThree(|raw|);
    }
  }

  lemma {:induction false} UnpaddedInAlphabet(raw: seq<Byte>)
    ensures InAlphabet(Unpadded(raw))
    decreases |raw|
  {
    if |raw| < 3 {
      ShortUnpaddedIs(raw);
    } else {
      UnpaddedInAlphabet(raw[3..]);
      FirstQuadInAlphabet(raw);
    }
  }

  lemma AfterThree(n: nat)
    requires n >= 3
    ensures n % 3 == (n - 3) % 3 && (4 * n + 2) / 3 == 4 + (4 * (n - 3) + 2) / 3
  {
  }

  lemma FirstQuadInAlphabet(raw: seq<Byte>)
    requires |raw| >= 3
    ensures InAlphabet(FirstQuad(raw))
  {
    DigitsHaveValues(raw[0] / 4);
    DigitsHaveValues(raw[0] % 4 * 16 + raw[1] / 16);
    DigitsHaveValues(raw[1] % 16 * 4 + raw[2] / 64);
    DigitsHaveValues(raw[2] % 64);
  }

  lemma {:induction false} ShortUnpaddedIs(raw: seq<Byte>)
    requires |raw| < 3
    ensures Quads(raw) == Unpadded(raw) + Pads((3 - |raw| % 3) % 3)
    ensures InAlphabet(Unpadded(raw)) && |Unpadded(raw)| == (4 * |raw| + 2) / 3
  {
    if |raw| == 1 {
      assert Pads(2) == [PAD] + Pads(1) && Pads(1) == [PAD] + Pads(0);
      DigitsHaveValues(raw[0] / 4);
      DigitsHaveValues(raw[0] % 4 * 16);
    } else if |raw| == 2 {
      assert Pads(1) == [PAD] + Pads(0);
      DigitsHaveValues(raw[0] / 4);
      DigitsHaveValues(raw[0] % 4 * 16 + raw[1] / 16);
      DigitsHaveValues(raw[1] % 16 * 4);
    }
  }

  lemma {:induction false} StripRestores(data: string, n: nat)
    requires InAlphabet(data)
    ensures StripPads(data + Pads(n)) == data
  {
    PadsEnd(n);
    if n > 0 {
      assert (data + Pads(n))[..|data + Pads(n)| - 1] == data + Pads(n - 1);
      StripRestores(data, n - 1);
    } else {
      assert data + Pads(0) == data;
    }
  }

  lemma {:induction false} PadsEnd(n: nat)
    ensures |Pads(n)| == n && (n > 0 ==> Pads(n)[n - 1] == PAD && Pads(n)[..n - 1] == Pads(n - 1))
  {
    if n > 0 {
      PadsEnd(n - 1);
      if n > 1 {
        assert Pads(n)[..n - 1] == [PAD] + Pads(n - 1)[..n - 2];
      }
    }
  }

  /** What the encoder returns, and its length. */
  lemma EncodeIsUnpadded(raw: seq<Byte>)
    ensures Encode(raw) == Unpadded(raw) && InAlphabet(Encode(raw)) && |Encode(raw)| == (4 * |raw| + 2) / 3
  {
    UnpaddedIs(raw);
    UnpaddedInAlphabet(raw);
    StripRestores(Unpadded(raw), (3 - |raw| % 3) % 3);
  }

  /** One data character. */
  lemma ScanDigit(v: int, rest: string, quad: int, left: int)
    requires 0 <= quad < 4 && 0 <= left < 64 && 0 <= v < 64
    requires quad == 2 ==> left < 16
    requires quad == 3 ==> left < 4
    ensures Scan([Digit(v)] + rest, quad, left, 0) ==
            if quad == 0 then Scan(rest, 1, v, 0)
            else if quad == 1 then Prepend(left * 4 + v / 16, Scan(rest, 2, v % 16, 0))
            else if quad == 2 then Prepend(left * 16 + v / 4, Scan(rest, 3, v % 4, 0))
            else Prepend(left * 64 + v, Scan(rest, 0, 0, 0))
  {
    DigitsHaveValues(v);
    assert ([Digit(v)] + rest)[1..] == rest;
  }

  lemma Sextets(a: Byte, b: Byte, c: Byte)
    ensures var v1, v2 := a % 4 * 16 + b / 16, b % 16 * 4 + c / 64;
            a / 4 * 4 + v1 / 16 == a && v1 % 16 == b / 16 && v1 % 16 * 16 + v2 / 4 == b && v2 % 4 == c / 64
            && v2 % 4 * 64 + c % 64 == c
  {
  }

  lemma {:induction false} ScanQuad(a: Byte, b: Byte, c: Byte, rest: string)
    ensures Scan([Digit(a / 4), Digit(a % 4 * 16 + b / 16), Digit(b % 16 * 4 + c / 64), Digit(c % 64)] + rest, 0, 0, 0)
            == Prepend(a, Prepend(b, Prepend(c, Scan(rest, 0, 0, 0))))
  {
    var v1, v2 := a % 4 * 16 + b / 16, b % 16 * 4 + c / 64;
    var s2 := [Digit(v2), Digit(c % 64)] + rest;
    assert [Digit(a / 4), Digit(v1), Digit(v2), Digit(c % 64)] + rest == [Digit(a / 4)] + ([Digit(v1)] + s2);
    Sextets(a, b, c);
    ScanDigit(a / 4, [Digit(v1)] + s2, 0, 0);
    ScanDigit(v1, s2, 1, a / 4);
    ScanSecondHalf(b, c, rest);
  }

  lemma ScanSecondHalf(b: Byte, c: Byte, rest: string)
    ensures Scan([Digit(b % 16 * 4 + c / 64), Digit(c % 64)] + rest, 2, b / 16, 0) == Prepend(b, Prepend(c, Scan(rest, 0, 0, 0)))
  {
    var v2 := b % 16 * 4 + c / 64;
    assert [Digit(v2), Digit(c % 64)] + rest == [Digit(v2)] + ([Digit(c % 64)] + rest);
    LastSextets(b, c);
    ScanDigit(v2, [Digit(c % 64)] + rest, 2, b / 16);
    ScanDigit(c % 64, rest, 3, c / 64);
  }

  lemma LastSextets(b: Byte, c: Byte)
    ensures var v2 := b % 16 * 4 + c / 64; b / 16 * 16 + v2 / 4 == b && v2 % 4 == c / 64 && c / 64 * 64 + c % 64 == c
  {
  }

  lemma {:induction false} ScanQuads(raw: seq<Byte>)
    ensures Scan(Quads(raw), 0, 0, 0) == Some(raw)
    decreases |raw|
  {
    if |raw| == 1 {
      ScanOne(raw[0]);
      assert raw == [raw[0]];
    } else if |raw| == 2 {
      ScanTwo(raw[0], raw[1]);
      assert raw == [raw[0], raw[1]];
    } else if |raw| > 2 {
      ScanQuads(raw[3..]);
      ScanQuad(raw[0], raw[1], raw[2], Quads(raw[3..]));
      assert raw == [raw[0]] + ([raw[1]] + ([raw[2]] + raw[3..]));
    }
  }

  lemma ScanOne(a: Byte)
    ensures Scan([Digit(a / 4), Digit(a % 4 * 16), PAD, PAD], 0, 0, 0) == Some([a])
  {
    Sextets(a, 0, 0);
    assert [Digit(a / 4), Digit(a % 4 * 16), PAD, PAD] == [Digit(a / 4)] + ([Digit(a % 4 * 16)] + [PAD, PAD]);
    ScanDigit(a / 4, [Digit(a % 4 * 16)] + [PAD, PAD], 0, 0);
    ScanDigit(a % 4 * 16, [PAD, PAD], 1, a / 4);
    assert [PAD, PAD][1..] == [PAD];
    assert Scan([PAD, PAD], 2, 0, 0) == Scan([PAD], 2, 0, 1) == Some([]);
    assert [a] + [] == [a];
  }

  lemma ScanTwo(a: Byte, b: Byte)
    ensures Scan([Digit(a / 4), Digit(a % 4 * 16 + b / 16), Digit(b % 16 * 4), PAD], 0, 0, 0) == Some([a, b])
  {
    var v1 := a % 4 * 16 + b / 16;
    Sextets(a, b, 0);
    assert [Digit(a / 4), Digit(v1), Digit(b % 16 * 4), PAD] == [Digit(a / 4)] + ([Digit(v1)] + ([Digit(b % 16 * 4)] + [PAD]));
    ScanDigit(a / 4, [Digit(v1)] + ([Digit(b % 16 * 4)] + [PAD]), 0, 0);
    ScanDigit(v1, [Digit(b % 16 * 4)] + [PAD], 1, a / 4);
    ScanDigit(b % 16 * 4, [PAD], 2, b / 16);
    assert Scan([PAD], 3, 0, 0) == Some([]);
    assert [a, b] == [a] + ([b] + []);
  }

  lemma PaddingRestored(n: nat)
    ensures (4 - (4 * n + 2) / 3 % 4) % 4 == (3 - n % 3) % 3
  {
    var q, r := n / 3, n % 3;
    assert (4 * n + 2) / 3 == 4 * q + (4 * r + 2) / 3;
  }

  /** Decoding undoes encoding, for every byte string. */
  lemma DecodeUndoesEncode(raw: seq<Byte>)
    ensures Decode(Encode(raw)) == Some(raw)
  {
    var e := Encode(raw);
    EncodeIsUnpadded(raw);
    UnpaddedIs(raw);
    ScanQuads(raw);
    PaddingRestored(|raw|);
  }

  // ---- The encoding is the standard's ----

  /** Table 2 of RFC 4648: five runs of consecutive characters. */
  lemma DigitsAreTheAlphabet(v: int)
    requires 0 <= v < 63
    ensures Digit(0) == 'A' && Digit(26) == 'a' && Digit(52) == '0' && Digit(62) == '-' && Digit(63) == '_'
    ensures v !in {25, 51, 61, 62} ==> Digit(v + 1) as int == Digit(v) as int + 1
  {
  }

  /** Three bytes and the four characters they are written as are one 24-bit number (RFC 4648, section 4). */
  lemma QuadIsTheNumber(a: Byte, b: Byte, c: Byte) returns (v0: int, v1: int, v2: int, v3: int)
    ensures 0 <= v0 < 64 && 0 <= v1 < 64 && 0 <= v2 < 64 && 0 <= v3 < 64
    ensures Encode([a, b, c]) == [Digit(v0), Digit(v1), Digit(v2), Digit(v3)]
    ensures a * 0x1_0000 + b * 0x100 + c == v0 * 0x4_0000 + v1 * 0x1000 + v2 * 0x40 + v3
  {
    v0, v1, v2, v3 := a / 4, a % 4 * 16 + b / 16, b % 16 * 4 + c / 64, c % 64;
    ThreeBytes([a, b, c]);
  }

  lemma ThreeBytes(raw: seq<Byte>)
    requires |raw| == 3
    ensures Encode(raw) == FirstQuad(raw)
  {
    EncodeIsUnpadded(raw);
    assert raw[3..] == [];
    assert Unpadded([]) == "";
    assert Unpadded(raw) == FirstQuad(raw) + Unpadded(raw[3..]);
  }

  /** Longer inputs are written three bytes at a time. */
  lemma EncodeGoesOn(raw: seq<Byte>)
    requires |raw| >= 3
    ensures Encode(raw) == Encode(raw[..3]) + Encode(raw[3..])
  {
    EncodeIsUnpadded(raw);
    EncodeIsUnpadded(raw[3..]);
    ThreeBytes(raw[..3]);
    SameFirstQuad(raw, raw[..3]);
  }

  lemma SameFirstQuad(raw: seq<Byte>, first: seq<Byte>)
    requires |raw| >= 3 && first == raw[..3]
    ensures FirstQuad(first) == FirstQuad(raw)
  {
  }

  /** One or two last bytes are written as if zeros followed. */
  lemma LastBytesAreZeroFilled(a: Byte, b: Byte)
    ensures Encode([a, b, 0]) == Encode([a, b]) + "A"
    ensures Encode([a, 0, 0]) == Encode([a]) + "AA"
  {
    ThreeBytes([a, b, 0]);
    ThreeBytes([a, 0, 0]);
    ShortEncodes([a, b]);
    ShortEncodes([a]);
  }

  lemma ShortEncodes(raw: seq<Byte>)
    requires 1 <= |raw| <= 2
    ensures Encode(raw) == Quads(raw)[..|raw| + 1]
  {
    EncodeIsUnpadded(raw);
  }
}
