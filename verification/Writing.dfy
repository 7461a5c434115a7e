/**
  The writer (writer.c): the output in the encoding of the stream, and what the reader makes of
  it. UTF-16 output starts with a byte order mark.
 */
module Writing {
  import opened Chars
  import opened Options
  import opened Utf8
  import opened Encodings

  const OUTPUT_BUFFER_SIZE := 16384
  const OUTPUT_RAW_BUFFER_SIZE := 32770

  /** Two bytes in the order of the encoding. */
  function Ordered(little: bool, high: Byte, low: Byte): (r: seq<Byte>)
    ensures |r| == 2
  {
    if little then [low, high] else [high, low]
  }

  /**
    The bytes of one character. The mask of the last surrogate's high byte is eight bits wide
    where only two belong there; the sum is cut to a byte.
   */
  function Recode(little: bool, c: Char): (r: seq<Byte>)
    ensures |r| == 2 || |r| == 4
    ensures |r| <= 2 * |Encode(c)|
  {
    if c < 0x10000 then Ordered(little, c / 0x100, c % 0x100)
    else
      var v := c - 0x10000;
      Ordered(little, 0xD8 + v / 0x40000, v / 0x400 % 0x100)
      + Ordered(little, (0xDC + v / 0x100 % 0x100) % 0x100, v % 0x100)
  }

  function RecodeAll(little: bool, text: Text): (r: seq<Byte>)
    ensures |r| <= 2 * |EncodeAll(text)|
  {
    if text == [] then [] else Recode(little, text[0]) + RecodeAll(little, text[1..])
  }

  /** What one flush hands to the write handler. */
  function Flushed(encoding: Encoding, text: Text): seq<Byte> {
    if encoding == Utf8Encoding then EncodeAll(text) else RecodeAll(encoding == Utf16LeEncoding, text)
  }

  /** Flushing a text in pieces writes the same bytes as flushing it at once. */
  lemma {:induction false} FlushPoints(encoding: Encoding, first: Text, second: Text)
    ensures Flushed(encoding, first + second) == Flushed(encoding, first) + Flushed(encoding, second)
  {
    if encoding == Utf8Encoding {
      EncodeAllAppend(first, second);
    } else {
      RecodeAppend(encoding == Utf16LeEncoding, first, second);
    }
  }

  lemma {:induction false} RecodeAppend(little: bool, first: Text, second: Text)
    ensures RecodeAll(little, first + second) == RecodeAll(little, first) + RecodeAll(little, second)
  {
    if first == [] {
      assert first + second == second;
    } else {
      assert (first + second)[1..] == first[1..] + second;
      RecodeAppend(little, first[1..], second);
    }
  }

  // ----- Back through the reader

  /** The characters that survive: those of the basic plane, and those beyond it whose bits 10 to 15 are zero. */
  predicate Survives(c: Char) {
    c < 0x10000 || (c - 0x10000) / 0x400 % 0x40 == 0
  }

  lemma BasicPlaneDecodes(little: bool, c: Char, rest: seq<Byte>)
    requires c < 0x10000
    ensures DecodeUtf16(little, Recode(little, c) + rest) == Character(c, 2)
  {
    var raw := Recode(little, c) + rest;
    assert raw[0] == Recode(little, c)[0] && raw[1] == Recode(little, c)[1];
    assert c as int / 0x100 * 0x100 + c as int % 0x100 == c;
  }

  /** The two units of a supplementary character, as the reader puts them together. */
  lemma SurrogateUnits(little: bool, c: Char, rest: seq<Byte>)
    requires c >= 0x10000
    ensures var raw, v := Recode(little, c) + rest, c as int - 0x10000;
      && Unit(little, raw, 0) == 0xD800 + v / 0x40000 * 0x100 + v / 0x400 % 0x100
      && Unit(little, raw, 2) == (0xDC + v / 0x100 % 0x100) % 0x100 * 0x100 + v % 0x100
  {
    var raw, v := Recode(little, c) + rest, c as int - 0x10000;
    var first, second := Ordered(little, 0xD8 + v / 0x40000, v / 0x400 % 0x100),
                         Ordered(little, (0xDC + v / 0x100 % 0x100) % 0x100, v % 0x100);
    assert raw == first + second + rest;
    assert raw[0] == first[0] && raw[1] == first[1] && raw[2] == second[0] && raw[3] == second[1];
  }

  lemma HighUnit(v: int)
    requires 0 <= v < 0x100000
    ensures 0xD800 + v / 0x40000 * 0x100 + v / 0x400 % 0x100 == 0xD800 + v / 0x400 && v / 0x400 < 0x400
  {
    assert v / 0x400 / 0x100 == v / 0x40000;
  }

  lemma LowUnit(v: int)
    requires 0 <= v < 0x100000
    ensures v / 0x100 % 0x100 == v / 0x400 % 0x40 * 4 + v / 0x100 % 4
    ensures v % 0x400 == v / 0x100 % 4 * 0x100 + v % 0x100 && v == v / 0x400 * 0x400 + v % 0x400
  {
    assert v / 0x100 / 4 == v / 0x400;
    assert v / 0x400 / 0x40 == v / 0x10000 && v / 0x100 / 0x100 == v / 0x10000;
  }

  /** The low surrogate is one exactly when no stray bits get into its high byte. */
  lemma LowSurrogate(v: int)
    requires 0 <= v < 0x100000
    ensures var value2 := (0xDC + v / 0x100 % 0x100) % 0x100 * 0x100 + v % 0x100;
      && (v / 0x400 % 0x40 == 0 ==> value2 == 0xDC00 + v % 0x400)
      && (v / 0x400 % 0x40 != 0 ==> !IsLowSurrogate(value2))
  {
    LowUnit(v);
    if v / 0x400 % 0x40 != 0 {
      HighByteIsWrong(v / 0x400 % 0x40, v / 0x100 % 4);
    }
  }

  /** A supplementary character comes back if bits 10 to 15 are zero, and is a reader error if not. */
  lemma SurrogatesDecodeIfBitsAreZero(little: bool, c: Char, rest: seq<Byte>)
    requires c >= 0x10000
    ensures DecodeUtf16(little, Recode(little, c) + rest) == if Survives(c) then Character(c, 4) else Malformed
  {
    hide Recode, Ordered, Unit;
    var raw, v := Recode(little, c) + rest, c as int - 0x10000;
    TwoBytes(little, c);
    SurrogateUnits(little, c, rest);
    HighUnit(v);
    LowUnit(v);
    LowSurrogate(v);
    assert (0xD800 + v / 0x400) % 0x400 == v / 0x400;
    if v / 0x400 % 0x40 == 0 {
      assert (0xDC00 + v % 0x400) % 0x400 == v % 0x400;
    }
  }

  lemma HighByteIsWrong(stray: int, bits: int)
    requires 1 <= stray < 0x40 && 0 <= bits < 4
    ensures var high := (0xDC + stray * 4 + bits) % 0x100; high < 0xDC || high > 0xDF
  {
  }

  /** One character through the writer and the reader. */
  lemma RecodeDecodes(encoding: Encoding, c: Char, rest: seq<Byte>)
    requires IsAllowed(c)
    ensures Flushed(encoding, [c]) + rest != []
    ensures DecodeOne(encoding, Flushed(encoding, [c]) + rest)
      == if encoding == Utf8Encoding || Survives(c) then Character(c, |Flushed(encoding, [c])|) else Malformed
  {
    hide Decode, DecodeUtf16, Encode, Recode;
    OneFlushed(encoding, c);
    if encoding == Utf8Encoding {
      DecodeEncode(c, rest);
    } else if c < 0x10000 {
      BasicPlaneDecodes(encoding == Utf16LeEncoding, c, rest);
      TwoBytes(encoding == Utf16LeEncoding, c);
    } else {
      SurrogatesDecodeIfBitsAreZero(encoding == Utf16LeEncoding, c, rest);
      TwoBytes(encoding == Utf16LeEncoding, c);
    }
  }

  lemma TwoBytes(little: bool, c: Char)
    ensures |Recode(little, c)| == if c < 0x10000 then 2 else 4
  {
  }

  lemma OneFlushed(encoding: Encoding, c: Char)
    ensures Flushed(encoding, [c]) == if encoding == Utf8Encoding then Encode(c) else Recode(encoding == Utf16LeEncoding, c)
  {
    assert [c][1..] == [];
    assert Encode(c) + [] == Encode(c) && Recode(encoding == Utf16LeEncoding, c) + [] == Recode(encoding == Utf16LeEncoding, c);
  }

  predicate AllSurvive(encoding: Encoding, text: Text) {
    encoding == Utf8Encoding || forall k :: 0 <= k < |text| ==> Survives(text[k])
  }

  predicate AllAllowed(text: Text) {
    forall k :: 0 <= k < |text| ==> IsAllowed(text[k])
  }

  /** A text of allowed characters decodes to itself if all its characters survive, and else not at all. */
  lemma {:induction false} OutputDecodesIfAllSurvive(encoding: Encoding, text: Text)
    requires AllAllowed(text)
    ensures DecodeAll(encoding, Flushed(encoding, text)) == if AllSurvive(encoding, text) then Some(text) else None
  {
    hide DecodeOne, Survives, IsAllowed;
    if text == [] {
      assert Flushed(encoding, text) == [];
    } else {
      var c, rest := text[0], text[1..];
      assert IsAllowed(text[0]);
      OutputDecodesIfAllSurvive(encoding, rest);
      FlushPoints(encoding, [c], rest);
      assert [c] + rest == text;
      var bytes := Flushed(encoding, [c]);
      RecodeDecodes(encoding, c, Flushed(encoding, rest));
      assert (bytes + Flushed(encoding, rest))[|bytes|..] == Flushed(encoding, rest);
      SurvivalOfRest(encoding, text);
    }
  }

  lemma SurvivalOfRest(encoding: Encoding, text: Text)
    requires text != []
    ensures AllSurvive(encoding, text) <==> (encoding == Utf8Encoding || Survives(text[0])) && AllSurvive(encoding, text[1..])
  {
    hide Survives;
    if encoding != Utf8Encoding && Survives(text[0]) && AllSurvive(encoding, text[1..]) {
      forall k | 0 <= k < |text| ensures Survives(text[k]) {
        if k > 0 { assert text[1..][k - 1] == text[k]; }
      }
    }
    if AllSurvive(encoding, text) && encoding != Utf8Encoding {
      forall k | 0 <= k < |text[1..]| ensures Survives(text[1..][k]) {
        assert text[1..][k] == text[k + 1];
      }
    }
  }

  /** The output of a whole stream: a byte order mark first unless it is UTF-8. */
  function Output(encoding: Encoding, text: Text): seq<Byte> {
    Flushed(encoding, if encoding == Utf8Encoding then text else [BOM] + text)
  }

  /**
    What was put into the buffer is read back from the output, in UTF-8 always, in UTF-16
    exactly when all characters survive. In UTF-8 the text must not start with a byte order
    mark of its own, which the reader would take for the stream's.
   */
  lemma OutputIsReadBack(encoding: Encoding, text: Text)
    requires AllAllowed(text) && (encoding == Utf8Encoding ==> At(text, 0) != BOM)
    ensures DecodeInput(Output(encoding, text)) == if AllSurvive(encoding, text) then Some(text) else None
  {
    hide DecodeAll, Recode, Encode;
    OutputDecodesIfAllSurvive(encoding, text);
    if encoding == Utf8Encoding {
      Utf8HasNoMark(text);
      assert Output(encoding, text)[0..] == Output(encoding, text);
    } else {
      FlushPoints(encoding, [BOM], text);
      OneFlushed(encoding, BOM);
      MarkIsFirst(encoding, Flushed(encoding, text));
    }
  }

  lemma MarkIsFirst(encoding: Encoding, rest: seq<Byte>)
    requires encoding != Utf8Encoding
    ensures var bytes := Recode(encoding == Utf16LeEncoding, BOM) + rest;
      Detect(bytes) == encoding && MarkLength(bytes) == 2 && bytes[2..] == rest
  {
    var mark := Recode(encoding == Utf16LeEncoding, BOM);
    assert mark == if encoding == Utf16LeEncoding then BOM_UTF16LE else BOM_UTF16BE;
    assert (mark + rest)[..2] == mark;
    assert BOM_UTF16LE[0] != BOM_UTF16BE[0];
  }

  lemma Utf8HasNoMark(text: Text)
    requires AllAllowed(text) && At(text, 0) != BOM
    ensures Detect(EncodeAll(text)) == Utf8Encoding && MarkLength(EncodeAll(text)) == 0
  {
    var bytes := EncodeAll(text);
    if text != [] {
      var e := Encode(text[0]);
      assert bytes == e + EncodeAll(text[1..]);
      assert bytes[0] == e[0];
      assert e[0] < 0xFE;
      if BOM_UTF8 <= bytes {
        assert bytes[0] == BOM_UTF8[0] && bytes[1] == BOM_UTF8[1] && bytes[2] == BOM_UTF8[2];
        assert e == [bytes[0], bytes[1], bytes[2]];
        DecodeEncode(text[0], []);
        BomBytes(text[0]);
      }
    }
  }

  lemma BomBytes(c: Char)
    requires Encode(c) == BOM_UTF8
    ensures c == BOM
  {
    assert Encode(c)[0] == 0xEF && Encode(c)[1] == 0xBB && Encode(c)[2] == 0xBF;
  }
}
