/**
  The reader (reader.c), as functions of its state: the raw bytes read but not decoded, the
  chunks the read handler will still give, and the characters decoded but not taken.
 */
module Reading {
  import opened Chars
  import opened Options
  import opened Utf8
  import opened Encodings

  const INPUT_RAW_BUFFER_SIZE := 16384
  const INPUT_BUFFER_SIZE := 49152

  datatype Reader = Reader(encoding: Option<Encoding>, raw: seq<Byte>, chunks: seq<seq<Byte>>, eof: bool, pending: Text)

  datatype Outcome = Updated(reader: Reader) | ReaderError

  function Start(chunks: seq<seq<Byte>>): Reader {
    Reader(None, [], chunks, false, [])
  }

  function Concat(chunks: seq<seq<Byte>>): seq<Byte> {
    if chunks == [] then [] else chunks[0] + Concat(chunks[1..])
  }

  /** The read handler gives at least a byte until the input ends. */
  predicate NoneEmpty(chunks: seq<seq<Byte>>) {
    forall k :: 0 <= k < |chunks| ==> chunks[k] != []
  }

  /** What the handler gives when asked for so many bytes. */
  function Given(chunks: seq<seq<Byte>>, size: nat): seq<Byte> {
    if chunks == [] then []
    else if |chunks[0]| <= size then chunks[0]
    else chunks[0][..size]
  }

  function LeftBehind(chunks: seq<seq<Byte>>, size: nat): seq<seq<Byte>> {
    if chunks == [] then []
    else if |chunks[0]| <= size then chunks[1..]
    else [chunks[0][size..]] + chunks[1..]
  }

  function UpdateRaw(r: Reader): Reader {
    if |r.raw| >= INPUT_RAW_BUFFER_SIZE || r.eof then r
    else
      var size := INPUT_RAW_BUFFER_SIZE - |r.raw|;
      var given := Given(r.chunks, size);
      r.(raw := r.raw + given, chunks := LeftBehind(r.chunks, size), eof := given == [])
  }

  lemma GivenIsFirst(chunks: seq<seq<Byte>>, size: nat)
    requires NoneEmpty(chunks) && size > 0
    ensures Given(chunks, size) + Concat(LeftBehind(chunks, size)) == Concat(chunks) && NoneEmpty(LeftBehind(chunks, size))
    ensures |Given(chunks, size)| <= size && (Given(chunks, size) == [] <==> chunks == [])
  {
    if chunks != [] && |chunks[0]| > size {
      var rest := [chunks[0][size..]] + chunks[1..];
      assert rest[1..] == chunks[1..];
      assert chunks[0][..size] + (chunks[0][size..] + Concat(chunks[1..])) == chunks[0] + Concat(chunks[1..]);
    }
  }

  /** The handler's bytes not read yet, and whether it has yet to say that there are no more. */
  function Unread(r: Reader): nat {
    2 * |Concat(r.chunks)| + (if r.eof then 0 else 1)
  }

  lemma UpdateRawReads(r: Reader)
    requires NoneEmpty(r.chunks)
    ensures var r' := UpdateRaw(r);
      && r'.raw + Concat(r'.chunks) == r.raw + Concat(r.chunks) && NoneEmpty(r'.chunks) && r.raw <= r'.raw
      && r' == r.(raw := r'.raw, chunks := r'.chunks, eof := r'.eof)
      && (r'.eof && !r.eof ==> r.chunks == [] && r'.chunks == [] && r'.raw == r.raw)
      && (|r.raw| < INPUT_RAW_BUFFER_SIZE && !r.eof ==> Unread(r') < Unread(r))
      && (|r.raw| <= INPUT_RAW_BUFFER_SIZE ==> |r'.raw| <= INPUT_RAW_BUFFER_SIZE)
      && (r.eof ==> r' == r)
  {
    if |r.raw| < INPUT_RAW_BUFFER_SIZE && !r.eof {
      var size := INPUT_RAW_BUFFER_SIZE - |r.raw|;
      GivenIsFirst(r.chunks, size);
      assert r.raw + (Given(r.chunks, size) + Concat(LeftBehind(r.chunks, size)))
        == r.raw + Given(r.chunks, size) + Concat(LeftBehind(r.chunks, size));
    }
  }

  /** Reads on until three bytes are there or the input ends. */
  function ReadThree(r: Reader): Reader
    requires NoneEmpty(r.chunks)
    decreases Unread(r)
  {
    if r.eof || |r.raw| >= 3 then r
    else
      UpdateRawReads(r);
      ReadThree(UpdateRaw(r))
  }

  function Determine(r: Reader): Reader
    requires NoneEmpty(r.chunks)
  {
    var r := ReadThree(r);
    r.(encoding := Some(Detect(r.raw)), raw := r.raw[MarkLength(r.raw)..])
  }

  /** Decodes all of the raw bytes, but for an incomplete character at their end. */
  function DecodeRaw(r: Reader): Outcome
    requires r.encoding.Some?
    decreases |r.raw|
  {
    if r.raw == [] then Updated(r)
    else
      match DecodeOne(r.encoding.value, r.raw)
      case Malformed => ReaderError
      case Incomplete => if r.eof then ReaderError else Updated(r)
      case Character(value, width) => DecodeRaw(r.(raw := r.raw[width..], pending := r.pending + [value]))
  }

  lemma {:induction false} DecodeRawLeaves(r: Reader)
    requires r.encoding.Some?
    ensures DecodeRaw(r).Updated? ==>
      var r' := DecodeRaw(r).reader;
      r' == r.(raw := r'.raw, pending := r'.pending) && |r'.raw| < 4 && (r.eof ==> r'.raw == []) && |r'.pending| >= |r.pending|
    decreases |r.raw|
  {
    if r.raw != [] && DecodeOne(r.encoding.value, r.raw).Character? {
      var d := DecodeOne(r.encoding.value, r.raw);
      DecodeRawLeaves(r.(raw := r.raw[d.width..], pending := r.pending + [d.value]));
    }
  }

  function Fill(r: Reader, length: nat, first: bool): Outcome
    requires r.encoding.Some? && NoneEmpty(r.chunks) && (!first ==> !r.eof && |r.raw| < 4)
    decreases Unread(r), first
  {
    if |r.pending| >= length then Updated(r)
    else
      UpdateRawReads(r);
      var r' := if !first || r.raw == [] then UpdateRaw(r) else r;
      DecodeRawLeaves(r');
      match DecodeRaw(r')
      case ReaderError => ReaderError
      case Updated(r'') =>
        if r''.eof then Updated(r''.(pending := r''.pending + [NUL]))
        else Fill(r'', length, false)
  }

  function UpdateBuffer(r: Reader, length: nat): Outcome
    requires NoneEmpty(r.chunks)
  {
    if (r.eof && r.raw == []) || |r.pending| >= length then Updated(r)
    else
      var r' := if r.encoding == None then Determine(r) else r;
      ReadThreeKeeps(r);
      Fill(r', length, true)
  }

  lemma {:induction false} ReadThreeKeeps(r: Reader)
    requires NoneEmpty(r.chunks)
    ensures var r' := ReadThree(r);
      && NoneEmpty(r'.chunks) && r'.raw + Concat(r'.chunks) == r.raw + Concat(r.chunks)
      && r' == r.(raw := r'.raw, chunks := r'.chunks, eof := r'.eof)
      && (|r.raw| <= INPUT_RAW_BUFFER_SIZE ==> |r'.raw| <= INPUT_RAW_BUFFER_SIZE)
      && (|r'.raw| >= 3 || r'.eof) && (r'.eof && !r.eof ==> r'.chunks == [])
    decreases Unread(r)
  {
    if !r.eof && |r.raw| < 3 {
      UpdateRawReads(r);
      ReadThreeKeeps(UpdateRaw(r));
    }
  }
}
