/**
  UTF-8, byte by byte: the encoder of the reader and of the `\x`, `\u` and `\U` escapes,
  the decoder of the reader, and the byte macros that classify characters.

  Octet masks are written as ranges: `(octet & 0xE0) == 0xC0` is `0xC0 <= octet < 0xE0`,
  `value & 0x3F` is `value % 0x40`, `value >> 6` is `value / 0x40`.
 */
module Utf8 {
  import opened Chars

  type Byte = b: int | 0 <= b < 0x100

  /** The octets the code writes for a character, in its four branches. */
  function Encode(c: Char): (r: seq<Byte>)
    ensures 1 <= |r| <= 4
    ensures |r| == Width(r[0])
  {
    if c <= 0x7F then [c]
    else if c <= 0x7FF then [0xC0 + c / 0x40, 0x80 + c % 0x40]
    else if c <= 0xFFFF then [0xE0 + c / 0x1000, 0x80 + c / 0x40 % 0x40, 0x80 + c % 0x40]
    else [0xF0 + c / 0x40000, 0x80 + c / 0x1000 % 0x40, 0x80 + c / 0x40 % 0x40, 0x80 + c % 0x40]
  }

  /** The number of octets announced by a leading octet; 0 when it cannot lead. */
  function Width(octet: Byte): nat {
    if octet < 0x80 then 1
    else if 0xC0 <= octet < 0xE0 then 2
    else if 0xE0 <= octet < 0xF0 then 3
    else if 0xF0 <= octet < 0xF8 then 4
    else 0
  }

  /** The payload bits of a leading octet. */
  function Lead(octet: Byte): nat {
    if octet < 0x80 then octet
    else if 0xC0 <= octet < 0xE0 then octet - 0xC0
    else if 0xE0 <= octet < 0xF0 then octet - 0xE0
    else if 0xF0 <= octet < 0xF8 then octet - 0xF0
    else 0
  }

  predicate IsTrail(octet: Byte) {
    0x80 <= octet < 0xC0
  }

  /** Accumulates trailing octets, six bits each. */
  function Accumulate(value: nat, trail: seq<Byte>): nat
    decreases trail
  {
    if trail == [] then value
    else Accumulate(value * 0x40 + trail[0] % 0x40, trail[1..])
  }

  datatype Decoded =
    | Character(value: Char, width: nat)
    | Incomplete
    | Malformed

  /** One step of the reader's UTF-8 branch on the unread raw bytes. */
  function Decode(raw: seq<Byte>): Decoded
    requires raw != []
  {
    var width := Width(raw[0]);
    if width == 0 then Malformed
    else if width > |raw| then Incomplete
    else if exists k :: 1 <= k < width && !IsTrail(raw[k]) then Malformed
    else
      var value := Accumulate(Lead(raw[0]), raw[1..width]);
      if !(width == 1 || (width == 2 && value >= 0x80) || (width == 3 && value >= 0x800)
           || (width == 4 && value >= 0x10000)) then Malformed
      else if 0xD800 <= value <= 0xDFFF || value > 0x10FFFF then Malformed
      else Character(value, width)
  }

  lemma AccumulateValue(value: nat, trail: seq<Byte>)
    requires |trail| <= 3 && forall k :: 0 <= k < |trail| ==> IsTrail(trail[k])
    ensures |trail| == 0 ==> Accumulate(value, trail) == value
    ensures |trail| == 1 ==> Accumulate(value, trail) == value * 0x40 + (trail[0] as int - 0x80)
    ensures |trail| == 2 ==>
      Accumulate(value, trail) == (value * 0x40 + (trail[0] as int - 0x80)) * 0x40 + (trail[1] as int - 0x80)
    ensures |trail| == 3 ==>
      Accumulate(value, trail)
      == ((value * 0x40 + (trail[0] as int - 0x80)) * 0x40 + (trail[1] as int - 0x80)) * 0x40 + (trail[2] as int - 0x80)
    decreases trail
  {
    if |trail| >= 1 {
      assert trail[0] % 0x40 == trail[0] - 0x80;
      AccumulateValue(value * 0x40 + trail[0] % 0x40, trail[1..]);
    }
  }

  /** A value is put together again from six-bit groups. */
  lemma SixBitGroups(v: nat)
    ensures v / 0x40 * 0x40 + v % 0x40 == v
    ensures v / 0x1000 * 0x40 + v / 0x40 % 0x40 == v / 0x40
    ensures v / 0x40000 * 0x40 + v / 0x1000 % 0x40 == v / 0x1000
  {
    assert v / 0x40 / 0x40 == v / 0x1000;
    assert v / 0x1000 / 0x40 == v / 0x40000;
  }

  /** A value accumulated from a payload and groups is taken apart into them again. */
  lemma Regroup(high: nat, low: nat)
    requires low < 0x40
    ensures (high * 0x40 + low) / 0x40 == high && (high * 0x40 + low) % 0x40 == low
    ensures (high * 0x40 + low) / 0x1000 == high / 0x40
    ensures (high * 0x40 + low) / 0x40000 == high / 0x1000
  {
  }

  /** Decoding inverts encoding, whatever follows. */
  lemma DecodeEncode(c: Char, rest: seq<Byte>)
    ensures Decode(Encode(c) + rest) == Character(c, |Encode(c)|)
  {
    var e := Encode(c);
    var raw := e + rest;
    assert raw[1..|e|] == e[1..];
    assert forall k :: 1 <= k < |e| ==> raw[k] == e[k] && IsTrail(e[k]);
    assert Accumulate(Lead(e[0]), e[1..]) == c by {
      AccumulateValue(Lead(e[0]), e[1..]);
      SixBitGroups(c);
    }
  }

  lemma Encode2(a: nat, b: nat)
    requires b < 0x40 && 0x80 <= a * 0x40 + b <= 0x7FF
    ensures Encode(a * 0x40 + b) == [0xC0 + a, 0x80 + b]
  {
    Regroup(a, b);
  }

  lemma Encode3(a: nat, b: nat, c: nat, v: Char)
    requires b < 0x40 && c < 0x40 && v == (a * 0x40 + b) * 0x40 + c && 0x800 <= v <= 0xFFFF
    ensures Encode(v) == [0xE0 + a, 0x80 + b, 0x80 + c]
  {
    Regroup(a * 0x40 + b, c);
    Regroup(a, b);
  }

  lemma Encode4(a: nat, b: nat, c: nat, d: nat, v: Char)
    requires b < 0x40 && c < 0x40 && d < 0x40 && 0x10000 <= v
    requires v == ((a * 0x40 + b) * 0x40 + c) * 0x40 + d
    ensures Encode(v) == [0xF0 + a, 0x80 + b, 0x80 + c, 0x80 + d]
  {
    Regroup((a * 0x40 + b) * 0x40 + c, d);
    Regroup(a * 0x40 + b, c);
    Regroup(a, b);
  }

  /** Encoding inverts decoding: the accepted octets are the only encoding of the value. */
  lemma EncodeDecode(raw: seq<Byte>)
    requires raw != [] && Decode(raw).Character?
    ensures var d := Decode(raw); d.width <= |raw| && Encode(d.value) == raw[..d.width]
  {
    var w := Width(raw[0]);
    var lead := Lead(raw[0]);
    assert forall k :: 1 <= k < w ==> IsTrail(raw[k]);
    AccumulateValue(lead, raw[1..w]);
    var v := Decode(raw).value;
    if w == 2 {
      Encode2(lead, raw[1] - 0x80);
    } else if w == 3 {
      Encode3(lead, raw[1] - 0x80, raw[2] - 0x80, v);
    } else if w == 4 {
      Encode4(lead, raw[1] - 0x80, raw[2] - 0x80, raw[3] - 0x80, v);
    }
  }

  // ----- The byte macros. `octets` starts at the tested position.

  function Octet(octets: seq<Byte>, k: nat): Byte {
    if k < |octets| then octets[k] else 0
  }

  predicate IsPrintableOctets(octets: seq<Byte>) {
    var o0, o1, o2 := Octet(octets, 0), Octet(octets, 1), Octet(octets, 2);
    || o0 == 0x0A
    || (o0 >= 0x20 && o0 <= 0x7E)
    || (o0 == 0xC2 && o1 >= 0xA0)
    || (o0 > 0xC2 && o0 < 0xED)
    || (o0 == 0xED && o1 < 0xA0)
    || o0 == 0xEE
    || (o0 == 0xEF && !(o1 == 0xBB && o2 == 0xBF) && !(o1 == 0xBF && (o2 == 0xBE || o2 == 0xBF)))
  }

  predicate IsBreakOctets(octets: seq<Byte>) {
    var o0, o1, o2 := Octet(octets, 0), Octet(octets, 1), Octet(octets, 2);
    || o0 == 0x0D
    || o0 == 0x0A
    || (o0 == 0xC2 && o1 == 0x85)
    || (o0 == 0xE2 && o1 == 0x80 && o2 == 0xA8)
    || (o0 == 0xE2 && o1 == 0x80 && o2 == 0xA9)
  }

  predicate IsBomOctets(octets: seq<Byte>) {
    Octet(octets, 0) == 0xEF && Octet(octets, 1) == 0xBB && Octet(octets, 2) == 0xBF
  }

  /** On the encoding of a character, followed by anything, the macros test the character. */
  lemma MacrosTestCharacters(c: Char, rest: seq<Byte>)
    ensures var o := Encode(c) + rest;
      && IsPrintableOctets(o) == IsPrintable(c)
      && IsBreakOctets(o) == IsBreak(c)
      && IsBomOctets(o) == (c == BOM)
      && (Octet(o, 0) <= 0x7F <==> IsAscii(c))
      && (IsAscii(c) ==> Octet(o, 0) == c)
  {
    var e := Encode(c);
    var o := e + rest;
    assert forall k :: 0 <= k < |e| ==> Octet(o, k) == e[k];
    if 0x80 <= c <= 0x7FF {
      assert e == [0xC0 + c / 0x40, 0x80 + c % 0x40];
    } else if 0x800 <= c <= 0xFFFF {
      assert e == [0xE0 + c / 0x1000, 0x80 + c / 0x40 % 0x40, 0x80 + c % 0x40];
    }
  }
}
