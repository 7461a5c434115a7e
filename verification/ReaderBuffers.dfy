/**
  The reader at work on its two buffers: raw bytes as the read handler gave them, and decoded
  characters in UTF-8. Each is an array with a window of what is still unread; each method is
  proved to do what the function of `Reading` says, within the bounds of the arrays.
 */
module ReaderBuffers {
  import opened Chars
  import opened Options
  import opened Utf8
  import opened Encodings
  import opened Reading
  import ReaderRuns

  class BufferedReader {
    var chunks: seq<seq<Byte>>  // what the read handler will give
    const rawBuffer: array<Byte>
    var rawPointer: nat
    var rawLast: nat
    const buffer: array<Byte>
    var pointer: nat
    var last: nat
    var unread: nat
    var index: nat           // of the mark: how many characters have been taken
    var encoding: Option<Encoding>
    var eof: bool
    ghost var pending: Text  // the characters in the window of `buffer`
    ghost var taken: Text    // the characters taken from it

    constructor (chunks: seq<seq<Byte>>)
      requires NoneEmpty(chunks)
      ensures Valid() && Value() == Start(chunks) && taken == [] && fresh(rawBuffer) && fresh(buffer)
    {
      this.chunks := chunks;
      rawBuffer := new Byte[INPUT_RAW_BUFFER_SIZE](_ => 0);
      buffer := new Byte[INPUT_BUFFER_SIZE](_ => 0);
      rawPointer, rawLast, pointer, last, unread := 0, 0, 0, 0, 0;
      encoding, eof, pending, index, taken := None, false, [], 0, [];
    }

    /** `index` counts the characters taken, `unread` those that are decoded but not taken. */
    ghost predicate Valid()
      reads this, rawBuffer, buffer
    {
      && rawBuffer != buffer && rawBuffer.Length == INPUT_RAW_BUFFER_SIZE && buffer.Length == INPUT_BUFFER_SIZE
      && rawPointer <= rawLast <= rawBuffer.Length && pointer <= last <= buffer.Length
      && NoneEmpty(chunks) && index == |taken| && unread == |pending| && buffer[pointer..last] == EncodeAll(pending)
    }

    ghost function Value(): Reader
      requires rawPointer <= rawLast <= rawBuffer.Length
      reads this, rawBuffer
    {
      Reader(encoding, rawBuffer[rawPointer..rawLast], chunks, eof, pending)
    }

    /** Moves what is unread in the raw buffer to its start. */
    method CompactRaw()
      requires Valid()
      modifies this`rawPointer, this`rawLast, rawBuffer
      ensures Valid() && Value() == old(Value()) && rawPointer == 0
    {
      ghost var window := rawBuffer[rawPointer..rawLast];
      var n := rawLast - rawPointer;
      var k := 0;
      while k < n
        invariant 0 <= k <= n
        invariant rawBuffer[..k] == window[..k] && rawBuffer[rawPointer + k..rawLast] == window[k..]
        modifies rawBuffer
      {
        assert rawBuffer[rawPointer + k..rawLast][0] == window[k..][0];
        assert rawBuffer[rawPointer + k + 1..rawLast] == rawBuffer[rawPointer + k..rawLast][1..];
        rawBuffer[k] := rawBuffer[rawPointer + k];
        k := k + 1;
      }
      rawPointer, rawLast := 0, n;
    }

    method UpdateRawBuffer()
      requires Valid()
      modifies this`rawPointer, this`rawLast, this`chunks, this`eof, rawBuffer
      ensures Valid() && Value() == UpdateRaw(old(Value()))
    {
      hide EncodeAll;
      if (rawPointer == 0 && rawLast == rawBuffer.Length) || eof {
        return;
      }
      CompactRaw();
      if rawLast != rawBuffer.Length {
        AskHandler();
      }
    }

    /** Asks for as much as there is room for. */
    method AskHandler()
      requires Valid() && rawPointer == 0 && rawLast < rawBuffer.Length && !eof
      modifies this`rawPointer, this`rawLast, this`chunks, this`eof, rawBuffer
      ensures Valid() && Value() == UpdateRaw(old(Value()))
    {
      hide EncodeAll, Given, LeftBehind;
      var size := rawBuffer.Length - rawLast;
      var given := Given(chunks, size);
      GivenIsFirst(chunks, size);
      chunks := LeftBehind(chunks, size);
      Receive(given);
      if given == [] {
        eof := true;
      }
    }

    /** The read handler's bytes go behind the unread ones. */
    method Receive(given: seq<Byte>)
      requires Valid() && rawLast + |given| <= rawBuffer.Length
      modifies this`rawLast, rawBuffer
      ensures Valid() && rawBuffer[rawPointer..rawLast] == old(rawBuffer[rawPointer..rawLast]) + given
    {
      ghost var window := rawBuffer[rawPointer..rawLast];
      var k := 0;
      while k < |given|
        invariant 0 <= k <= |given|
        invariant rawBuffer[rawPointer..rawLast + k] == window + given[..k]
        modifies rawBuffer
      {
        rawBuffer[rawLast + k] := given[k];
        k := k + 1;
      }
      rawLast := rawLast + |given|;
    }

    /** Which byte order mark some bytes start with. */
    static lemma Marks(raw: seq<Byte>)
      ensures BOM_UTF16LE <= raw <==> |raw| >= 2 && raw[0] == 0xFF && raw[1] == 0xFE
      ensures BOM_UTF16BE <= raw <==> |raw| >= 2 && raw[0] == 0xFE && raw[1] == 0xFF
      ensures BOM_UTF8 <= raw <==> |raw| >= 3 && raw[0] == 0xEF && raw[1] == 0xBB && raw[2] == 0xBF
    {
      if |raw| >= 2 {
        assert raw[..2] == [raw[0], raw[1]];
      }
      if |raw| >= 3 {
        assert raw[..3] == [raw[0], raw[1], raw[2]];
      }
    }

    method DetermineEncoding()
      requires Valid()
      modifies this`rawPointer, this`rawLast, this`chunks, this`eof, this`encoding, rawBuffer
      ensures Valid() && Value() == Determine(old(Value()))
    {
      ghost var r := Value();
      while !eof && rawLast - rawPointer < 3
        invariant Valid() && ReadThree(r) == ReadThree(Value()) && encoding == r.encoding && pending == r.pending
        decreases Reading.Unread(Value())
      {
        UpdateRawReads(Value());
        UpdateRawBuffer();
      }
      PassMark();
    }

    /** Sets the encoding and goes past a byte order mark. */
    method PassMark()
      requires Valid()
      modifies this`rawPointer, this`encoding
      ensures Valid()
      ensures var raw := old(rawBuffer[rawPointer..rawLast]);
        encoding == Some(Detect(raw)) && rawPointer <= rawLast && rawBuffer[rawPointer..rawLast] == raw[MarkLength(raw)..]
    {
      ghost var raw := rawBuffer[rawPointer..rawLast];
      Marks(raw);
      var n := rawLast - rawPointer;
      if n >= 2 && rawBuffer[rawPointer] == 0xFF && rawBuffer[rawPointer + 1] == 0xFE {
        encoding, rawPointer := Some(Utf16LeEncoding), rawPointer + 2;
      } else if n >= 2 && rawBuffer[rawPointer] == 0xFE && rawBuffer[rawPointer + 1] == 0xFF {
        encoding, rawPointer := Some(Utf16BeEncoding), rawPointer + 2;
      } else {
        encoding := Some(Utf8Encoding);
        if n >= 3 && rawBuffer[rawPointer] == 0xEF && rawBuffer[rawPointer + 1] == 0xBB && rawBuffer[rawPointer + 2] == 0xBF {
          rawPointer := rawPointer + 3;
        }
      }
    }

    /** One UTF-8 sequence, octet by octet. */
    method ReadUtf8() returns (d: Decoded)
      requires Valid() && rawPointer < rawLast
      ensures d == Decode(rawBuffer[rawPointer..rawLast])
    {
      ghost var raw := rawBuffer[rawPointer..rawLast];
      var octet := rawBuffer[rawPointer];
      var width := Width(octet);
      if width == 0 {
        return Malformed;
      }
      if width > rawLast - rawPointer {
        return Incomplete;
      }
      var value: nat := Lead(octet);
      var k := 1;
      while k < width
        invariant 1 <= k <= width
        invariant forall j :: 1 <= j < k ==> IsTrail(raw[j])
        invariant Accumulate(value, raw[k..width]) == Accumulate(Lead(raw[0]), raw[1..width])
      {
        octet := rawBuffer[rawPointer + k];
        assert octet == raw[k];
        if !IsTrail(octet) {
          return Malformed;
        }
        assert raw[k..width][1..] == raw[k + 1..width];
        value := value * 0x40 + (octet as int) % 0x40;
        k := k + 1;
      }
      assert raw[k..width] == [];
      if !(width == 1 || (width == 2 && value >= 0x80) || (width == 3 && value >= 0x800) || (width == 4 && value >= 0x10000)) {
        return Malformed;
      }
      if 0xD800 <= value <= 0xDFFF || value > 0x10FFFF {
        return Malformed;
      }
      return Character(value, width);
    }

    /** One UTF-16 character. */
    method ReadUtf16(little: bool) returns (d: Decoded)
      requires Valid() && rawPointer < rawLast
      ensures d == DecodeUtf16(little, rawBuffer[rawPointer..rawLast])
    {
      ghost var raw := rawBuffer[rawPointer..rawLast];
      var low, high := if little then 0 else 1, if little then 1 else 0;
      if rawLast - rawPointer < 2 {
        return Incomplete;
      }
      var value := rawBuffer[rawPointer + low] as int + rawBuffer[rawPointer + high] as int * 0x100;
      assert value == Unit(little, raw, 0);
      if IsLowSurrogate(value) {
        return Malformed;
      }
      if !IsHighSurrogate(value) {
        return Character(value, 2);
      }
      if rawLast - rawPointer < 4 {
        return Incomplete;
      }
      var value2 := rawBuffer[rawPointer + low + 2] as int + rawBuffer[rawPointer + high + 2] as int * 0x100;
      assert value2 == Unit(little, raw, 2);
      if !IsLowSurrogate(value2) {
        return Malformed;
      }
      return Character(0x10000 + value % 0x400 * 0x400 + value2 % 0x400, 4);
    }

    method PutByte(b: Byte)
      requires rawBuffer != buffer && pointer <= last < buffer.Length
      modifies this`last, buffer
      ensures pointer <= last == old(last) + 1 && buffer[pointer..last] == old(buffer[pointer..last]) + [b]
    {
      buffer[last] := b;
      last := last + 1;
    }

    /** Puts a character into the buffer, in UTF-8. */
    method Put(c: Char)
      requires Valid() && last + |Encode(c)| <= buffer.Length
      modifies this`last, this`unread, this`pending, buffer
      ensures Valid() && pending == old(pending) + [c] && last == old(last) + |Encode(c)| && pointer == old(pointer)
    {
      hide Encode, EncodeAll;
      EncodeAllAppend(pending, [c]);
      EncodeOne(c);
      PutOctets(c);
      unread := unread + 1;
      pending := pending + [c];
    }

    /** The octets of a character. */
    method PutOctets(c: Char)
      requires rawBuffer != buffer && pointer <= last && last + |Encode(c)| <= buffer.Length
      modifies this`last, buffer
      ensures pointer <= last == old(last) + |Encode(c)| && buffer[pointer..last] == old(buffer[pointer..last]) + Encode(c)
    {
      ghost var window := buffer[pointer..last];
      if c <= 0x7F {
        PutByte(c);
      } else if c <= 0x7FF {
        PutByte(0xC0 + c / 0x40);
        PutByte(0x80 + c % 0x40);
        assert window + [0xC0 + c / 0x40] + [0x80 + c % 0x40] == window + [0xC0 + c / 0x40, 0x80 + c % 0x40];
      } else if c <= 0xFFFF {
        PutThree(0xE0 + c / 0x1000, 0x80 + c / 0x40 % 0x40, 0x80 + c % 0x40);
      } else {
        PutByte(0xF0 + c / 0x40000);
        PutThree(0x80 + c / 0x1000 % 0x40, 0x80 + c / 0x40 % 0x40, 0x80 + c % 0x40);
        assert window + [0xF0 + c / 0x40000] + [0x80 + c / 0x1000 % 0x40, 0x80 + c / 0x40 % 0x40, 0x80 + c % 0x40] == window + Encode(c);
      }
    }

    method PutThree(a: Byte, b: Byte, c: Byte)
      requires rawBuffer != buffer && pointer <= last && last + 3 <= buffer.Length
      modifies this`last, buffer
      ensures pointer <= last == old(last) + 3 && buffer[pointer..last] == old(buffer[pointer..last]) + [a, b, c]
    {
      PutByte(a);
      PutByte(b);
      PutByte(c);
    }

    /** The next character, if it is one the reader lets through. */
    method ReadNext() returns (d: Decoded)
      requires Valid() && rawPointer < rawLast && encoding.Some?
      ensures d == DecodeOne(encoding.value, rawBuffer[rawPointer..rawLast])
    {
      hide Decode, DecodeUtf16;
      if encoding == Some(Utf8Encoding) {
        d := ReadUtf8();
      } else {
        d := ReadUtf16(encoding == Some(Utf16LeEncoding));
      }
      if d.Character? && !IsAllowed(d.value) {
        d := Malformed;
      }
    }

    /** Decodes the raw buffer; false for a reader error. */
    method DecodeRawBuffer() returns (ok: bool)
      requires Valid() && encoding.Some? && 2 * last + 3 * (rawLast - rawPointer) <= 2 * buffer.Length
      modifies this`rawPointer, this`last, this`unread, this`pending, buffer
      ensures Valid()
      ensures match DecodeRaw(old(Value())) case ReaderError => !ok case Updated(r) => ok && Value() == r
      ensures ok ==> 2 * last <= 2 * old(last) + 3 * old(rawLast - rawPointer) && pointer == old(pointer)
    {
      hide DecodeOne, EncodeAll, DecodeRaw;
      ghost var r := Value();
      while rawPointer != rawLast
        invariant Valid() && encoding.Some? && DecodeRaw(r) == DecodeRaw(Value())
        invariant 2 * last + 3 * (rawLast - rawPointer) <= 2 * old(last) + 3 * old(rawLast - rawPointer) && pointer == old(pointer)
        invariant encoding == r.encoding && eof == r.eof && chunks == r.chunks
        decreases rawLast - rawPointer
      {
        ghost var raw := rawBuffer[rawPointer..rawLast];
        DecodeRawRound(Value());
        var d := ReadNext();
        if d == Malformed || (d == Incomplete && eof) {
          return false;
        }
        if d == Incomplete {
          return true;
        }
        EncodedWidth(encoding.value, raw);
        assert raw[d.width..] == rawBuffer[rawPointer + d.width..rawLast];
        rawPointer := rawPointer + d.width;
        Put(d.value);
      }
      NothingToDecode(Value());
      return true;
    }

    /** One character decoded, as the function has it. */
    static lemma DecodeRawRound(r: Reader)
      requires r.encoding.Some? && r.raw != []
      ensures var d := DecodeOne(r.encoding.value, r.raw);
        && (d == Malformed || (d == Incomplete && r.eof) ==> DecodeRaw(r) == ReaderError)
        && (d == Incomplete && !r.eof ==> DecodeRaw(r) == Updated(r))
        && (d.Character? ==> DecodeRaw(r) == DecodeRaw(r.(raw := r.raw[d.width..], pending := r.pending + [d.value])))
    {
      hide DecodeOne;
    }

    static lemma NothingToDecode(r: Reader)
      requires r.encoding.Some? && r.raw == []
      ensures DecodeRaw(r) == Updated(r)
    {
    }

    /** Moves what is unread in the buffer to its start. */
    method Compact()
      requires Valid()
      modifies this`pointer, this`last, buffer
      ensures Valid() && Value() == old(Value()) && pointer == 0
    {
      ghost var window := buffer[pointer..last];
      var n := last - pointer;
      var k := 0;
      while k < n
        invariant 0 <= k <= n
        invariant buffer[..k] == window[..k] && buffer[pointer + k..last] == window[k..]
        modifies buffer
      {
        assert buffer[pointer + k..last][0] == window[k..][0];
        assert buffer[pointer + k + 1..last] == buffer[pointer + k..last][1..];
        buffer[k] := buffer[pointer + k];
        k := k + 1;
      }
      pointer, last := 0, n;
      assert buffer[0..n] == window;
    }

    /** Ensures that the buffer holds so many characters, or that the input has ended; false for a reader error. */
    method Update(length: nat) returns (ok: bool)
      requires Valid() && ReaderRuns.Inv(Value()) && length <= 8
      modifies this`rawPointer, this`rawLast, this`chunks, this`eof, this`encoding, this`pointer, this`last, this`unread, this`pending,
               rawBuffer, buffer
      ensures Valid()
      ensures match UpdateBuffer(old(Value()), length) case ReaderError => !ok case Updated(r) => ok && Value() == r
    {
      hide Determine, EncodeAll, ReaderRuns.Future, Fill;
      if eof && rawPointer == rawLast {
        return true;
      }
      if unread >= length {
        return true;
      }
      ghost var r := Value();
      ReadThreeKeeps(r);
      if encoding == None {
        ReaderRuns.DetermineKeepsFuture(r);
        DetermineEncoding();
      }
      Compact();
      ok := FillBuffer(length);
    }

    /** One round of filling, as the function has it. */
    static lemma FillRound(r: Reader, length: nat, first: bool)
      requires r.encoding.Some? && NoneEmpty(r.chunks) && (!first ==> !r.eof && |r.raw| < 4) && |r.pending| < length
      ensures var r' := if !first || r.raw == [] then UpdateRaw(r) else r;
        && r'.encoding == r.encoding && r'.pending == r.pending && NoneEmpty(r'.chunks)
        && (DecodeRaw(r') == ReaderError ==> Fill(r, length, first) == ReaderError)
        && (DecodeRaw(r').Updated? ==>
              var r'' := DecodeRaw(r').reader;
              && r''.encoding == r.encoding && r''.chunks == r'.chunks
              && (r''.eof ==> Fill(r, length, first) == Updated(r''.(pending := r''.pending + [NUL])))
              && (!r''.eof ==>
                    && |r''.raw| < 4 && Fill(r, length, first) == Fill(r'', length, false)
                    && (if first then Reading.Unread(r'') <= Reading.Unread(r) else Reading.Unread(r'') < Reading.Unread(r))))
    {
      hide DecodeRaw, UpdateRaw;
      UpdateRawReads(r);
      var r' := if !first || r.raw == [] then UpdateRaw(r) else r;
      DecodeRawLeaves(r');
    }

    method FillBuffer(length: nat) returns (ok: bool)
      requires Valid() && pointer == 0 && encoding.Some? && length <= 8
      modifies this`rawPointer, this`rawLast, this`chunks, this`eof, this`encoding, this`pointer, this`last, this`unread, this`pending,
               rawBuffer, buffer
      ensures Valid()
      ensures match Fill(old(Value()), length, true) case ReaderError => !ok case Updated(r) => ok && Value() == r
    {
      hide DecodeRaw, UpdateRaw, EncodeAll, Fill;
      ghost var r := Value();
      var first := true;
      while unread < length
        invariant Valid() && pointer == 0 && encoding.Some?
        invariant !first ==> !eof && |Value().raw| < 4
        invariant Fill(r, length, true) == Fill(Value(), length, first)
        decreases Reading.Unread(Value()), first
      {
        FillRound(Value(), length, first);
        if !first || rawPointer == rawLast {
          UpdateRawBuffer();
        }
        first := false;
        assert last == |EncodeAll(pending)| <= 28;
        ok := DecodeRawBuffer();
        if !ok {
          return;
        }
        if eof {
          Put(NUL);
          return true;
        }
      }
      FillDone(Value(), length, first);
      return true;
    }

    static lemma FillDone(r: Reader, length: nat, first: bool)
      requires r.encoding.Some? && NoneEmpty(r.chunks) && (!first ==> !r.eof && |r.raw| < 4) && |r.pending| >= length
      ensures Fill(r, length, first) == Updated(r)
    {
    }

    /** Takes the next character, as the scanner's macros do. */
    method Take() returns (c: Char)
      requires Valid() && unread > 0
      modifies this`pointer, this`unread, this`pending, this`index, this`taken
      ensures Valid() && c == old(pending)[0] && Value() == old(Value()).(pending := old(pending)[1..])
      ensures taken == old(taken) + [c] && taken + pending == old(taken + pending) && index == old(index) + 1
    {
      hide Encode, EncodeAll;
      ghost var rest := EncodeAll(pending[1..]);
      FirstOfAll(pending);
      Payload(pending[0]);
      var width := Width(buffer[pointer]);
      assert buffer[pointer] == buffer[pointer..last][0];
      c := ReadCharacter(width);
      assert buffer[pointer + width..last] == buffer[pointer..last][width..];
      pointer, unread, index := pointer + width, unread - 1, index + 1;
      pending, taken := pending[1..], taken + [pending[0]];
    }

    /** The character at the pointer, put together from its octets. */
    method ReadCharacter(width: nat) returns (c: Char)
      requires Valid() && unread > 0 && width == |Encode(pending[0])|
      ensures c == pending[0]
    {
      hide Encode, EncodeAll;
      ghost var e, rest := Encode(pending[0]), EncodeAll(pending[1..]);
      FirstOfAll(pending);
      assert buffer[pointer..last] == e + rest;
      assert forall k :: 0 <= k < width ==> buffer[pointer..last][k] == e[k];
      Payload(pending[0]);
      var octet := buffer[pointer];
      var value: nat := Lead(octet);
      var k := 1;
      while k < width
        invariant 1 <= k <= width
        invariant Accumulate(value, e[k..]) == Accumulate(Lead(e[0]), e[1..])
      {
        assert e[k..][1..] == e[k + 1..];
        assert buffer[pointer + k] == buffer[pointer..last][k];
        octet := buffer[pointer + k];
        value := value * 0x40 + (octet as int) % 0x40;
        k := k + 1;
      }
      assert e[width..] == [];
      c := value;
    }
  }
}
