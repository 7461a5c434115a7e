/**
  The writer at work: characters go into an output buffer in UTF-8, which is flushed when it is
  nearly full, recoded through a raw buffer if the stream is in UTF-16.
 */
module OutputBuffers {
  import opened Chars
  import opened Utf8
  import opened Encodings
  import opened Writing

  class BufferedWriter {
    const encoding: Encoding
    const buffer: array<Byte>
    var pointer: nat
    var last: nat
    const rawBuffer: array<Byte>
    var rawLast: nat
    var output: seq<Byte>  // what the write handler has got
    ghost var text: Text   // the characters in the buffer

    constructor (encoding: Encoding)
      ensures Valid() && this.encoding == encoding && output == [] && text == []
      ensures fresh(buffer) && fresh(rawBuffer)
    {
      this.encoding := encoding;
      buffer := new Byte[OUTPUT_BUFFER_SIZE](_ => 0);
      rawBuffer := new Byte[OUTPUT_RAW_BUFFER_SIZE](_ => 0);
      pointer, last, rawLast, output, text := 0, 0, 0, [], [];
    }

    ghost predicate Valid()
      reads this, buffer, rawBuffer
    {
      && buffer != rawBuffer && buffer.Length == OUTPUT_BUFFER_SIZE && rawBuffer.Length == OUTPUT_RAW_BUFFER_SIZE
      && pointer <= buffer.Length && rawLast == 0 && buffer[..pointer] == EncodeAll(text)
    }

    /** The output so far, and what is in the buffer as it will be flushed. */
    ghost function Total(): seq<Byte>
      reads this
    {
      output + Flushed(encoding, text)
    }

    /** Puts a character into the buffer; flushes first if there is little room. */
    method Put(c: Char)
      requires Valid()
      modifies this, buffer, rawBuffer
      ensures Valid() && Total() == old(Total()) + Flushed(encoding, [c])
    {
      hide EncodeAll, Encode, Flushed;
      if !(pointer + 5 < buffer.Length) {
        Flush();
        NothingFlushed(encoding, []);
        assert output + [] == output;
      }
      assert Total() == old(Total());
      ghost var before := text;
      PutOctets(c);
      FlushPoints(encoding, before, [c]);
      assert output + (Flushed(encoding, before) + Flushed(encoding, [c])) == output + Flushed(encoding, before) + Flushed(encoding, [c]);
    }

    /** The octets of a character at the end of the buffer. */
    method PutOctets(c: Char)
      requires Valid() && pointer + 4 <= buffer.Length
      modifies this`pointer, this`text, buffer
      ensures Valid() && text == old(text) + [c]
    {
      hide EncodeAll, Encode;
      ghost var window := buffer[..pointer];
      var octets := Encode(c);
      EncodeOne(c);
      var k := 0;
      while k < |octets|
        invariant 0 <= k <= |octets|
        invariant buffer[..pointer + k] == window + octets[..k]
        modifies buffer
      {
        buffer[pointer + k] := octets[k];
        k := k + 1;
      }
      EncodeAllAppend(text, [c]);
      pointer := pointer + |octets|;
      text := text + [c];
    }

    /** Hands the buffer to the write handler; nothing is left in either buffer. */
    method Flush()
      requires Valid()
      modifies this, rawBuffer
      ensures Valid() && text == [] && pointer == 0 && output == old(output) + Flushed(encoding, old(text))
    {
      hide EncodeAll, RecodeAll;
      last, pointer := pointer, 0;
      if last == 0 {
        NothingFlushed(encoding, text);
        assert output + [] == output;
      } else if encoding == Utf8Encoding {
        output := output + buffer[..last];
      } else {
        assert buffer[0..last] == buffer[..last];
        RecodeBuffer();
        output := output + rawBuffer[..rawLast];
      }
      pointer, last, rawLast, text := 0, 0, 0, [];
      NothingFlushed(encoding, []);
    }

    static lemma NothingFlushed(encoding: Encoding, text: Text)
      ensures EncodeAll([]) == [] && (EncodeAll(text) == [] ==> text == [] && Flushed(encoding, text) == [])
    {
    }

    /** Recodes all of the buffer; the raw buffer has room for it. */
    method RecodeBuffer()
      requires buffer != rawBuffer && rawBuffer.Length == OUTPUT_RAW_BUFFER_SIZE && rawLast == 0
      requires pointer == 0 <= last <= buffer.Length == OUTPUT_BUFFER_SIZE && buffer[pointer..last] == EncodeAll(text)
      requires encoding != Utf8Encoding
      modifies this`pointer, this`rawLast, rawBuffer
      ensures rawLast <= rawBuffer.Length && rawBuffer[..rawLast] == RecodeAll(encoding == Utf16LeEncoding, text)
    {
      hide EncodeAll, RecodeAll, Encode, Recode;
      var little := encoding == Utf16LeEncoding;
      ghost var done, rest: Text := [], text;
      NoBytes(little);
      while pointer != last
        invariant pointer <= last && done + rest == text && buffer[pointer..last] == EncodeAll(rest)
        invariant rawLast <= 2 * pointer && rawBuffer[..rawLast] == RecodeAll(little, done)
        invariant buffer[..] == old(buffer[..])
        decreases last - pointer
      {
        NothingLeft(rest);
        FirstOfAll(rest);
        var c := ReadCharacter(rest);
        var width := Width(buffer[pointer]);
        Payload(rest[0]);
        assert buffer[pointer] == buffer[pointer..last][0];
        assert buffer[pointer + width..last] == buffer[pointer..last][width..];
        pointer := pointer + width;
        RecodedLength(little, c);
        WriteUnits(little, c);
        RecodeAppend(little, done, [c]);
        OneRecoded(little, c);
        assert done + [rest[0]] + rest[1..] == done + rest;
        done, rest := done + [rest[0]], rest[1..];
      }
      NothingLeft(rest);
      assert done + [] == done;
    }

    static lemma NoBytes(little: bool)
      ensures RecodeAll(little, []) == []
    {
    }

    static lemma NothingLeft(rest: Text)
      ensures EncodeAll(rest) == [] <==> rest == []
    {
    }

    static lemma RecodedLength(little: bool, c: Char)
      ensures 2 <= |Recode(little, c)| <= 4 && |Recode(little, c)| <= 2 * |Encode(c)|
    {
    }

    static lemma OneRecoded(little: bool, c: Char)
      ensures RecodeAll(little, [c]) == Recode(little, c)
    {
      assert [c][1..] == [];
      assert Recode(little, c) + [] == Recode(little, c);
    }

    /** One or two units at the end of the raw buffer. */
    method WriteUnits(little: bool, c: Char)
      requires rawLast + |Recode(little, c)| <= rawBuffer.Length
      modifies this`rawLast, rawBuffer
      ensures rawLast == old(rawLast) + |Recode(little, c)| && rawLast <= rawBuffer.Length
      ensures rawBuffer[..rawLast] == old(rawBuffer[..rawLast]) + Recode(little, c)
    {
      hide Ordered;
      ghost var before := rawBuffer[..rawLast];
      if c < 0x10000 {
        WriteUnit(little, c / 0x100, c % 0x100);
      } else {
        var v := c - 0x10000;
        WriteUnit(little, 0xD8 + v / 0x40000, v / 0x400 % 0x100);
        WriteUnit(little, (0xDC + v / 0x100 % 0x100) % 0x100, v % 0x100);
        assert rawBuffer[..rawLast] == before + Recode(little, c);
      }
    }

    method WriteUnit(little: bool, highByte: Byte, lowByte: Byte)
      requires rawLast + 2 <= rawBuffer.Length
      modifies this`rawLast, rawBuffer
      ensures rawLast == old(rawLast) + 2 && rawBuffer[..rawLast] == old(rawBuffer[..rawLast]) + Ordered(little, highByte, lowByte)
    {
      var low, high := if little then 0 else 1, if little then 1 else 0;
      rawBuffer[rawLast + high] := highByte;
      rawBuffer[rawLast + low] := lowByte;
      rawLast := rawLast + 2;
    }

    /** The character at the pointer, put together from its octets. */
    method ReadCharacter(ghost rest: Text) returns (c: Char)
      requires pointer <= last <= buffer.Length && rest != [] && buffer[pointer..last] == EncodeAll(rest)
      ensures c == rest[0]
    {
      hide Encode, EncodeAll;
      ghost var e := Encode(rest[0]);
      FirstOfAll(rest);
      Payload(rest[0]);
      assert forall k :: 0 <= k < |e| ==> buffer[pointer..last][k] == e[k];
      var octet := buffer[pointer];
      var width := Width(octet);
      var value: nat := Lead(octet);
      var k := 1;
      while k < width
        invariant 1 <= k <= width
        invariant Accumulate(value, e[k..]) == Accumulate(Lead(e[0]), e[1..])
      {
        assert e[k..][1..] == e[k + 1..];
        assert buffer[pointer + k] == buffer[pointer..last][k];
        octet := buffer[pointer + k];
        value := value * 0x40 + (octet as int) % 0x40;
        k := k + 1;
      }
      assert e[width..] == [];
      c := value;
    }
  }
}
