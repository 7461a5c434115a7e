/**
  The encodings of an input stream: UTF-8 and UTF-16 (RFC 2781) step by step as the reader
  decodes them, and whole inputs at once.
 */
module Encodings {
  import opened Chars
  import opened Options
  import opened Utf8

  datatype Encoding = Utf8Encoding | Utf16LeEncoding | Utf16BeEncoding

  function Unit(little: bool, raw: seq<Byte>, k: nat): nat
    requires k + 2 <= |raw|
  {
    if little then raw[k] as int + raw[k + 1] as int * 0x100 else raw[k] as int * 0x100 + raw[k + 1] as int
  }

  predicate IsHighSurrogate(value: int) {
    0xD800 <= value <= 0xDBFF
  }

  predicate IsLowSurrogate(value: int) {
    0xDC00 <= value <= 0xDFFF
  }

  /** One step of the reader's UTF-16 branch. */
  function DecodeUtf16(little: bool, raw: seq<Byte>): Decoded {
    if |raw| < 2 then Incomplete
    else
      var value := Unit(little, raw, 0);
      if IsLowSurrogate(value) then Malformed
      else if IsHighSurrogate(value) then
        if |raw| < 4 then Incomplete
        else
          var value2 := Unit(little, raw, 2);
          if !IsLowSurrogate(value2) then Malformed
          else Character(0x10000 + value % 0x400 * 0x400 + value2 % 0x400, 4)
      else Character(value, 2)
  }

  /** The characters the reader lets through. */
  predicate IsAllowed(c: Char) {
    || c == TAB || c == LF || c == CR || 0x20 <= c <= 0x7E || c == NEL || 0xA0 <= c <= 0xD7FF
    || 0xE000 <= c <= 0xFFFD || c >= 0x10000
  }

  /** One character from the front of some undecoded bytes. */
  function DecodeOne(encoding: Encoding, raw: seq<Byte>): (r: Decoded)
    requires raw != []
    ensures r.Character? ==> 1 <= r.width <= |raw| && r.width <= 4
    ensures r == Incomplete ==> |raw| < 4
  {
    var d := if encoding == Utf8Encoding then Decode(raw) else DecodeUtf16(encoding == Utf16LeEncoding, raw);
    if d.Character? && !IsAllowed(d.value) then Malformed else d
  }

  /** A whole input, none if some of it cannot be decoded. */
  function DecodeAll(encoding: Encoding, bytes: seq<Byte>): Option<Text>
    decreases |bytes|
  {
    if bytes == [] then Some([])
    else
      var d := DecodeOne(encoding, bytes);
      if !d.Character? then None
      else
        match DecodeAll(encoding, bytes[d.width..])
        case None => None
        case Some(rest) => Some([d.value] + rest)
  }

  function EncodeAll(text: Text): (r: seq<Byte>)
    ensures |text| <= |r| <= 4 * |text|
  {
    if text == [] then [] else Encode(text[0]) + EncodeAll(text[1..])
  }

  const BOM_UTF8: seq<Byte> := [0xEF, 0xBB, 0xBF]
  const BOM_UTF16LE: seq<Byte> := [0xFF, 0xFE]
  const BOM_UTF16BE: seq<Byte> := [0xFE, 0xFF]

  /** The encoding that the first bytes show. */
  function Detect(bytes: seq<Byte>): Encoding {
    if BOM_UTF16LE <= bytes then Utf16LeEncoding
    else if BOM_UTF16BE <= bytes then Utf16BeEncoding
    else Utf8Encoding
  }

  /** How many of the first bytes are a byte order mark. */
  function MarkLength(bytes: seq<Byte>): (n: nat)
    ensures n <= |bytes|
  {
    if BOM_UTF16LE <= bytes || BOM_UTF16BE <= bytes then 2
    else if BOM_UTF8 <= bytes then 3
    else 0
  }

  /** The characters of a whole input. */
  function DecodeInput(bytes: seq<Byte>): Option<Text> {
    DecodeAll(Detect(bytes), bytes[MarkLength(bytes)..])
  }

  // ----- More bytes behind do not change a character

  lemma MoreUtf8(raw: seq<Byte>, more: seq<Byte>)
    requires raw != [] && Decode(raw) != Incomplete
    ensures Decode(raw + more) == Decode(raw)
  {
    var all := raw + more;
    var width := Width(raw[0]);
    assert all[0] == raw[0];
    if width != 0 {
      assert all[1..width] == raw[1..width];
      if exists k :: 1 <= k < width && !IsTrail(raw[k]) {
        var k :| 1 <= k < width && !IsTrail(raw[k]);
        assert !IsTrail(all[k]);
      }
    }
  }

  lemma MoreBytes(encoding: Encoding, raw: seq<Byte>, more: seq<Byte>)
    requires raw != [] && DecodeOne(encoding, raw) != Incomplete
    ensures DecodeOne(encoding, raw + more) == DecodeOne(encoding, raw)
  {
    hide Decode;
    if encoding == Utf8Encoding {
      MoreUtf8(raw, more);
    }
  }

  /** The first bytes decide the encoding: three of them, or all there are. */
  lemma MoreBytesDetectTheSame(raw: seq<Byte>, more: seq<Byte>)
    requires |raw| >= 3 || more == []
    ensures Detect(raw + more) == Detect(raw) && MarkLength(raw + more) == MarkLength(raw)
  {
    if more == [] {
      assert raw + more == raw;
    } else {
      assert (raw + more)[..2] == raw[..2] && (raw + more)[..3] == raw[..3];
      PrefixOf(BOM_UTF16LE, raw, more);
      PrefixOf(BOM_UTF16BE, raw, more);
      PrefixOf(BOM_UTF8, raw, more);
    }
  }

  lemma PrefixOf(mark: seq<Byte>, raw: seq<Byte>, more: seq<Byte>)
    requires |mark| <= |raw|
    ensures mark <= raw + more <==> mark <= raw
  {
    assert (raw + more)[..|mark|] == raw[..|mark|];
  }

  /** A decodable piece, and then the rest. */
  lemma DecodeStep(encoding: Encoding, raw: seq<Byte>, more: seq<Byte>)
    requires raw != [] && DecodeOne(encoding, raw).Character?
    ensures var d := DecodeOne(encoding, raw);
      DecodeAll(encoding, raw + more) == match DecodeAll(encoding, raw[d.width..] + more)
                                         case None => None
                                         case Some(rest) => Some([d.value] + rest)
  {
    MoreBytes(encoding, raw, more);
    var d := DecodeOne(encoding, raw);
    assert (raw + more)[d.width..] == raw[d.width..] + more;
  }

  lemma DecodeFails(encoding: Encoding, raw: seq<Byte>, more: seq<Byte>)
    requires raw != []
    requires DecodeOne(encoding, raw) == Malformed || (DecodeOne(encoding, raw) == Incomplete && more == [])
    ensures DecodeAll(encoding, raw + more) == None
  {
    if more == [] {
      assert raw + more == raw;
    } else {
      MoreBytes(encoding, raw, more);
    }
  }

  lemma EncodeAllAppend(a: Text, b: Text)
    ensures EncodeAll(a + b) == EncodeAll(a) + EncodeAll(b)
  {
    if a == [] {
      assert a + b == b;
    } else {
      assert (a + b)[1..] == a[1..] + b;
      EncodeAllAppend(a[1..], b);
    }
  }

  /** How many bytes a decoded character takes in UTF-8: not more than one and a half times those it came from. */
  lemma EncodedWidth(encoding: Encoding, raw: seq<Byte>)
    requires raw != [] && DecodeOne(encoding, raw).Character?
    ensures var d := DecodeOne(encoding, raw); 2 * |Encode(d.value)| <= 3 * d.width
  {
    if encoding == Utf8Encoding {
      EncodeDecode(raw);
    }
  }

  lemma EncodeOne(c: Char)
    ensures EncodeAll([c]) == Encode(c) && 1 <= |Encode(c)| <= 4
  {
    assert [c][1..] == [];
    assert Encode(c) + [] == Encode(c);
  }

  lemma FirstOfAll(text: Text)
    requires text != []
    ensures EncodeAll(text) == Encode(text[0]) + EncodeAll(text[1..])
  {
  }

  /** The payload of the octets is the character. */
  lemma Payload(c: Char)
    ensures var e := Encode(c); 1 <= |e| <= 4 && |e| == Width(e[0]) && Accumulate(Lead(e[0]), e[1..]) == c
  {
    var e := Encode(c);
    DecodeEncode(c, []);
    assert e + [] == e && e[1..|e|] == e[1..];
  }
}
