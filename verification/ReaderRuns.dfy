/**
  However the input is split into chunks and whatever is asked of the reader, the characters
  taken are those of the whole input decoded at once, and one NUL; and the buffer never
  overflows.
 */
module ReaderRuns {
  import opened Chars
  import opened Options
  import opened Utf8
  import opened Encodings
  import opened Reading

  /** Between calls: at the end of the input everything is decoded. */
  predicate Inv(r: Reader) {
    && NoneEmpty(r.chunks) && |r.raw| <= INPUT_RAW_BUFFER_SIZE
    && (r.eof ==> r.raw == [] && r.chunks == [])
    && (r.encoding == None ==> !r.eof)
  }

  /** The characters pending and those still to be decoded. */
  function Future(r: Reader): Option<Text> {
    var undecoded := r.raw + Concat(r.chunks);
    match if r.encoding == None then DecodeInput(undecoded) else DecodeAll(r.encoding.value, undecoded)
    case None => None
    case Some(text) => Some(r.pending + text)
  }

  /** All that will be taken from here on: a NUL is added once, when the input has ended. */
  function Expected(r: Reader): Option<Text> {
    if r.eof then Some(r.pending)
    else Ended(Future(r))
  }

  function Ended(text: Option<Text>): Option<Text> {
    match text
    case None => None
    case Some(characters) => Some(characters + [NUL])
  }

  lemma {:induction false} DecodeRawKeepsFuture(r: Reader)
    requires r.encoding.Some? && (r.eof ==> r.chunks == [])
    ensures DecodeRaw(r).Updated? ==> Future(DecodeRaw(r).reader) == Future(r)
    ensures DecodeRaw(r).ReaderError? ==> Future(r) == None
    decreases |r.raw|
  {
    hide DecodeOne, DecodeInput;
    if r.raw != [] {
      var encoding, more := r.encoding.value, Concat(r.chunks);
      var d := DecodeOne(encoding, r.raw);
      if d.Character? {
        var r' := r.(raw := r.raw[d.width..], pending := r.pending + [d.value]);
        DecodeStep(encoding, r.raw, more);
        var rest := DecodeAll(encoding, r'.raw + more);
        if rest.Some? {
          assert r.pending + ([d.value] + rest.value) == r'.pending + rest.value;
        }
        DecodeRawKeepsFuture(r');
      } else if d == Malformed || r.eof {
        DecodeFails(encoding, r.raw, more);
      }
    }
  }

  lemma NothingMore(encoding: Encoding, r: Reader)
    requires r.encoding == Some(encoding) && r.raw == [] && r.chunks == []
    ensures Future(r) == Some(r.pending)
  {
    assert r.raw + Concat(r.chunks) == [];
    assert r.pending + [] == r.pending;
  }

  /** Filling the buffer: what is expected stays, and it fails only on an input that cannot be decoded. */
  lemma {:induction false} FillKeepsExpected(r: Reader, length: nat, first: bool)
    requires r.encoding.Some? && NoneEmpty(r.chunks) && |r.raw| <= INPUT_RAW_BUFFER_SIZE
    requires (r.eof ==> r.chunks == []) && (!first ==> !r.eof && |r.raw| < 4)
    requires r.eof ==> |r.pending| < length
    ensures match Fill(r, length, first)
      case ReaderError => Future(r) == None
      case Updated(r') => Inv(r') && (|r'.pending| >= length || r'.eof) && Expected(r') == Ended(Future(r))
    decreases Unread(r), first
  {
    hide Future, DecodeRaw, UpdateRaw;
    if |r.pending| < length {
      UpdateRawReads(r);
      var r' := if !first || r.raw == [] then UpdateRaw(r) else r;
      SameFuture(r, r');
      DecodeRawLeaves(r');
      DecodeRawKeepsFuture(r');
      if DecodeRaw(r').Updated? {
        var r'' := DecodeRaw(r').reader;
        if r''.eof {
          NothingMore(r.encoding.value, r'');
        } else {
          assert Unread(r'') == Unread(r') && ((first && r' == r) || Unread(r') < Unread(r));
          FillKeepsExpected(r'', length, false);
        }
      }
    }
  }

  lemma SameFuture(r: Reader, r': Reader)
    requires r'.raw + Concat(r'.chunks) == r.raw + Concat(r.chunks) && r'.encoding == r.encoding && r'.pending == r.pending
    ensures Future(r') == Future(r)
  {
  }

  /** The encoding is that of the whole input, whatever part of it has been read. */
  lemma DetermineKeepsFuture(r: Reader)
    requires Inv(r) && r.encoding == None
    ensures var r' := Determine(r);
      && Future(r') == Future(r) && NoneEmpty(r'.chunks) && |r'.raw| <= INPUT_RAW_BUFFER_SIZE
      && (r'.eof ==> r'.chunks == []) && r'.encoding.Some? && r'.pending == r.pending
  {
    hide DecodeAll;
    ReadThreeKeeps(r);
    var r1 := ReadThree(r);
    var more := Concat(r1.chunks);
    MoreBytesDetectTheSame(r1.raw, more);
    assert (r1.raw + more)[MarkLength(r1.raw)..] == r1.raw[MarkLength(r1.raw)..] + more;
  }

  /** A request of any length keeps what is expected, and is met unless the input has ended. */
  lemma UpdateKeepsExpected(r: Reader, length: nat)
    requires Inv(r)
    ensures match UpdateBuffer(r, length)
      case ReaderError => Expected(r) == None
      case Updated(r') => Inv(r') && Expected(r') == Expected(r) && (|r'.pending| >= length || r'.eof)
  {
    hide Future, Determine, Fill;
    if !((r.eof && r.raw == []) || |r.pending| >= length) {
      ReadThreeKeeps(r);
      if r.encoding == None {
        DetermineKeepsFuture(r);
        FillKeepsExpected(Determine(r), length, true);
      } else {
        FillKeepsExpected(r, length, true);
      }
    }
  }

  // ----- Runs

  /** The scanner asks for characters and takes them one by one. */
  datatype Action = Cache(length: nat) | Take

  datatype Play = Play(taken: Text, reader: Reader, end: PlayEnd)

  /** The actions are done, or a request failed, or a character was taken that is not there. */
  datatype PlayEnd = Done | Error | Overrun

  function PlayAll(r: Reader, actions: seq<Action>): Play
    requires Inv(r)
    decreases |actions|
  {
    if actions == [] then Play([], r, Done)
    else
      match actions[0]
      case Cache(length) =>
        UpdateKeepsExpected(r, length);
        (match UpdateBuffer(r, length)
         case ReaderError => Play([], r, Error)
         case Updated(r') => PlayAll(r', actions[1..]))
      case Take =>
        if r.pending == [] then Play([], r, Overrun)
        else
          var rest := PlayAll(r.(pending := r.pending[1..]), actions[1..]);
          Play([r.pending[0]] + rest.taken, rest.reader, rest.end)
  }

  lemma {:induction false} PlayKeepsExpected(r: Reader, actions: seq<Action>)
    requires Inv(r) && Expected(r).Some?
    ensures var play := PlayAll(r, actions);
      play.end != Error && Inv(play.reader) && Expected(play.reader).Some?
      && play.taken + Expected(play.reader).value == Expected(r).value
    decreases |actions|
  {
    hide Expected, UpdateBuffer;
    if actions == [] {
      assert [] + Expected(r).value == Expected(r).value;
    } else if actions[0].Cache? {
      UpdateKeepsExpected(r, actions[0].length);
      PlayKeepsExpected(UpdateBuffer(r, actions[0].length).reader, actions[1..]);
    } else if r.pending != [] {
      TakeKeepsExpected(r);
      var r' := r.(pending := r.pending[1..]);
      PlayKeepsExpected(r', actions[1..]);
      var rest := PlayAll(r', actions[1..]);
      assert [r.pending[0]] + (rest.taken + Expected(rest.reader).value) == ([r.pending[0]] + rest.taken) + Expected(rest.reader).value;
    } else {
      assert [] + Expected(r).value == Expected(r).value;
    }
  }

  lemma TakeKeepsExpected(r: Reader)
    requires Inv(r) && Expected(r).Some? && r.pending != []
    ensures var r' := r.(pending := r.pending[1..]);
      Inv(r') && Expected(r').Some? && [r.pending[0]] + Expected(r').value == Expected(r).value
  {
    hide DecodeAll, DecodeInput;
    var r' := r.(pending := r.pending[1..]);
    if !r.eof {
      var undecoded := r.raw + Concat(r.chunks);
      var text := if r.encoding == None then DecodeInput(undecoded) else DecodeAll(r.encoding.value, undecoded);
      assert [r.pending[0]] + (r'.pending + text.value + [NUL]) == r.pending + text.value + [NUL];
    }
  }

  /**
    Chunk independence: for an input that decodes, every split of it into chunks and every
    sequence of requests and takes, the characters taken and those that are unread in the buffer
    are together a prefix of the input decoded at once and one NUL, all of it when the input has
    ended. So the NUL is taken only by a take beyond the last character.
   */
  lemma ChunksDoNotMatter(chunks: seq<seq<Byte>>, actions: seq<Action>)
    requires NoneEmpty(chunks) && DecodeInput(Concat(chunks)).Some?
    ensures Inv(Start(chunks))
    ensures var play, whole := PlayAll(Start(chunks), actions), DecodeInput(Concat(chunks)).value + [NUL];
      && play.end != Error
      && play.taken + play.reader.pending <= whole
      && (NUL in play.taken <==> |play.taken| == |whole|)
      && (play.reader.eof ==> play.taken + play.reader.pending == whole)
  {
    hide PlayAll, DecodeInput, DecodeAll;
    var r := Start(chunks);
    assert r.raw + Concat(r.chunks) == Concat(chunks);
    assert r.pending + DecodeInput(Concat(chunks)).value == DecodeInput(Concat(chunks)).value;
    PlayKeepsExpected(r, actions);
    var play, text := PlayAll(r, actions), DecodeInput(Concat(chunks)).value;
    PendingIsFirst(play.reader);
    assert play.taken + Expected(play.reader).value == text + [NUL];
    TakenNul(play.taken, Expected(play.reader).value, text);
    InputHasNoNul(Concat(chunks));
  }

  lemma PendingIsFirst(r: Reader)
    requires Expected(r).Some?
    ensures r.pending <= Expected(r).value
  {
    hide DecodeAll, DecodeInput;
  }

  lemma InputHasNoNul(bytes: seq<Byte>)
    requires DecodeInput(bytes).Some?
    ensures NUL !in DecodeInput(bytes).value
  {
    hide DecodeAll;
    DecodedTextHasNoNul(Detect(bytes), bytes[MarkLength(bytes)..]);
  }

  /** Of a text and one NUL, the part in front contains the NUL exactly if it is all of it. */
  lemma TakenNul(taken: Text, rest: Text, text: Text)
    requires taken + rest == text + [NUL]
    ensures NUL !in text ==> (NUL in taken <==> |taken| == |text| + 1)
  {
    if |taken| <= |text| {
      assert taken == (text + [NUL])[..|taken|] == text[..|taken|];
    } else {
      assert taken[|text|] == (text + [NUL])[|text|];
    }
  }

  /** A request only appends to what is unread. */
  lemma UpdateAppends(r: Reader, length: nat)
    requires NoneEmpty(r.chunks)
    ensures UpdateBuffer(r, length).Updated? ==> r.pending <= UpdateBuffer(r, length).reader.pending
  {
    hide Determine, Fill;
    if !((r.eof && r.raw == []) || |r.pending| >= length) {
      ReadThreeKeeps(r);
      var r' := if r.encoding == None then Determine(r) else r;
      assert r'.pending == r.pending && NoneEmpty(r'.chunks) && r'.encoding.Some? by { DetermineAppends(r); }
      FillAppends(r', length, true);
    }
  }

  lemma DetermineAppends(r: Reader)
    requires NoneEmpty(r.chunks)
    ensures Determine(r).pending == r.pending && NoneEmpty(Determine(r).chunks) && Determine(r).encoding.Some?
  {
    ReadThreeKeeps(r);
  }

  lemma {:induction false} FillAppends(r: Reader, length: nat, first: bool)
    requires r.encoding.Some? && NoneEmpty(r.chunks) && (!first ==> !r.eof && |r.raw| < 4)
    ensures Fill(r, length, first).Updated? ==> r.pending <= Fill(r, length, first).reader.pending
    decreases Unread(r), first
  {
    hide DecodeRaw, UpdateRaw;
    if |r.pending| < length {
      UpdateRawReads(r);
      var r' := if !first || r.raw == [] then UpdateRaw(r) else r;
      DecodeRawLeaves(r');
      DecodeRawAppends(r');
      if DecodeRaw(r').Updated? && !DecodeRaw(r').reader.eof {
        assert Unread(DecodeRaw(r').reader) == Unread(r') && ((first && r' == r) || Unread(r') < Unread(r));
        FillAppends(DecodeRaw(r').reader, length, false);
      }
    }
  }

  lemma {:induction false} DecodeRawAppends(r: Reader)
    requires r.encoding.Some?
    ensures DecodeRaw(r).Updated? ==> r.pending <= DecodeRaw(r).reader.pending
    decreases |r.raw|
  {
    if r.raw != [] && DecodeOne(r.encoding.value, r.raw).Character? {
      var d := DecodeOne(r.encoding.value, r.raw);
      DecodeRawAppends(r.(raw := r.raw[d.width..], pending := r.pending + [d.value]));
    }
  }

  /** Conversely an error is reported only for an input that does not decode. */
  lemma {:induction false} ErrorsAreReal(r: Reader, actions: seq<Action>)
    requires Inv(r) && PlayAll(r, actions).end == Error
    ensures Expected(r) == None
  {
    if Expected(r).Some? {
      PlayKeepsExpected(r, actions);
    }
  }

  /** The NUL at the end is the only one: the decoder lets none through. */
  lemma {:induction false} DecodedTextHasNoNul(encoding: Encoding, bytes: seq<Byte>)
    ensures DecodeAll(encoding, bytes).Some? ==> NUL !in DecodeAll(encoding, bytes).value
    decreases |bytes|
  {
    if bytes != [] && DecodeOne(encoding, bytes).Character? {
      DecodedTextHasNoNul(encoding, bytes[DecodeOne(encoding, bytes).width..]);
    }
  }

  // ----- The size of the buffer

  lemma {:induction false} DecodeRawWrites(r: Reader)
    requires r.encoding.Some? && DecodeRaw(r).Updated?
    ensures 2 * |EncodeAll(DecodeRaw(r).reader.pending)| <= 2 * |EncodeAll(r.pending)| + 3 * |r.raw|
    decreases |r.raw|
  {
    if r.raw != [] && DecodeOne(r.encoding.value, r.raw).Character? {
      var d := DecodeOne(r.encoding.value, r.raw);
      var r' := r.(raw := r.raw[d.width..], pending := r.pending + [d.value]);
      EncodedWidth(r.encoding.value, r.raw);
      EncodeAllAppend(r.pending, [d.value]);
      EncodeOne(d.value);
      DecodeRawWrites(r');
    }
  }

  /** The characters pending in UTF-8 fit into the buffer. */
  predicate Fits(r: Reader) {
    |EncodeAll(r.pending)| <= INPUT_BUFFER_SIZE
  }

  lemma {:induction false} FillFits(r: Reader, length: nat, first: bool)
    requires r.encoding.Some? && NoneEmpty(r.chunks) && |r.raw| <= INPUT_RAW_BUFFER_SIZE && (!first ==> !r.eof && |r.raw| < 4)
    requires length <= 8 && Fits(r) && Fill(r, length, first).Updated?
    ensures Fits(Fill(r, length, first).reader)
    decreases Unread(r), first
  {
    hide DecodeRaw, UpdateRaw, EncodeAll;
    if |r.pending| < length {
      UpdateRawReads(r);
      var r' := if !first || r.raw == [] then UpdateRaw(r) else r;
      DecodeRawLeaves(r');
      DecodeRawWrites(r');
      var r'' := DecodeRaw(r').reader;
      EncodeAllAppend(r''.pending, [NUL]);
      EncodeOne(NUL);
      if !r''.eof {
        assert Unread(r'') == Unread(r') && ((first && r' == r) || Unread(r') < Unread(r));
        FillFits(r'', length, false);
      }
    }
  }

  /** With requests of at most eight characters the buffer is never written past its end. */
  lemma BufferNeverOverflows(r: Reader, length: nat)
    requires Inv(r) && length <= 8 && Fits(r) && UpdateBuffer(r, length).Updated?
    ensures Fits(UpdateBuffer(r, length).reader)
  {
    hide Determine, Fill, EncodeAll;
    if !((r.eof && r.raw == []) || |r.pending| >= length) {
      ReadThreeKeeps(r);
      if r.encoding == None {
        DetermineKeepsFuture(r);
        FillFits(Determine(r), length, true);
      } else {
        FillFits(r, length, true);
      }
    }
  }
}
