/**
  Tags as the emitter writes them and the scanner reads them: a directive's handle and the rest
  of the tag, or the whole tag between '!<' and '>', percent-escaped octet by octet.
 */
module Tags {
  import opened Chars
  import opened Options
  import opened Utf8
  import opened Encodings

  /** A directive by the text of its handle and prefix. */
  datatype Directive = Directive(handle: Text, prefix: Text)

  // ----- Writing (emitter.c)

  /** The handle that shortens a tag, none for the verbatim form, and what is left of the tag. */
  datatype TagData = TagData(handle: Option<Text>, suffix: Text)

  /** The first directive whose prefix is a proper prefix of the tag; none for an empty tag. */
  function AnalyzeTag(directives: seq<Directive>, tag: Text): Option<TagData> {
    if tag == [] then None else Some(FindPrefix(directives, tag))
  }

  function FindPrefix(directives: seq<Directive>, tag: Text): TagData {
    if directives == [] then TagData(None, tag)
    else if directives[0].prefix < tag then TagData(Some(directives[0].handle), tag[|directives[0].prefix|..])
    else FindPrefix(directives[1..], tag)
  }

  predicate IsAlpha(c: Char) {
    IsDigit(c) || 0x41 <= c <= 0x5A || 0x61 <= c <= 0x7A || c == 0x5F || c == DASH
  }

  /** ; / ? : @ & = + $ , . ~ * ' ( ) [ ] */
  predicate IsPunctuation(c: Char) {
    || c == 0x3B || c == 0x2F || c == 0x3F || c == 0x3A || c == 0x40 || c == 0x26 || c == 0x3D || c == PLUS || c == 0x24
    || c == 0x2C || c == DOT || c == 0x7E || c == 0x2A || c == SQUOTE || c == 0x28 || c == 0x29 || c == 0x5B || c == 0x5D
  }

  function EscapeOctets(octets: seq<Byte>): (r: Text)
    ensures |r| == 3 * |octets|
  {
    if octets == [] then []
    else [PERCENT, HexDigit(octets[0] / 16), HexDigit(octets[0] % 16)] + EscapeOctets(octets[1..])
  }

  function WriteContent(text: Text): Text {
    if text == [] then []
    else (if IsAlpha(text[0]) || IsPunctuation(text[0]) then [text[0]] else EscapeOctets(Encode(text[0]))) + WriteContent(text[1..])
  }

  function WriteTag(data: TagData): Text {
    match data.handle
    case Some(handle) => handle + WriteContent(data.suffix)
    case None => [EXCLAMATION, LESS] + WriteContent(data.suffix) + [GREATER]
  }

  // ----- Scanning (scanner.c)

  /** Octets read, and the input behind them. */
  datatype Scanned = Scanned(octets: seq<Byte>, rest: Text) | ScanError

  predicate IsUriChar(c: Char) {
    IsAlpha(c) || IsPunctuation(c) || c == EXCLAMATION || c == PERCENT
  }

  /** The escaped octets of one UTF-8 sequence; `left` of them are still to come, all if it is zero. */
  function ScanEscapes(input: Text, left: nat, octets: seq<Byte>): (r: Scanned)
    ensures r.Scanned? ==> |r.rest| < |input|
    decreases |input|
  {
    if At(input, 0) != PERCENT || !IsHex(At(input, 1)) || !IsHex(At(input, 2)) then ScanError
    else
      var octet: Byte := HexValue(input[1]) * 16 + HexValue(input[2]);
      if left == 0 && Width(octet) == 0 then ScanError
      else if left > 0 && !IsTrail(octet) then ScanError
      else
        var width := if left == 0 then Width(octet) else left;
        if width == 1 then Scanned(octets + [octet], input[3..])
        else ScanEscapes(input[3..], width - 1, octets + [octet])
  }

  function ScanUri(input: Text, octets: seq<Byte>): (r: Scanned)
    ensures r.Scanned? ==> |r.rest| <= |input|
    decreases |input|
  {
    if !IsUriChar(At(input, 0)) then Scanned(octets, input)
    else if At(input, 0) == PERCENT then
      match ScanEscapes(input, 0, octets)
      case ScanError => ScanError
      case Scanned(more, rest) => ScanUri(rest, more)
    else ScanUri(input[1..], octets + [input[0]])
  }

  function AlphaLength(input: Text): (n: nat)
    ensures n <= |input| && forall k :: 0 <= k < n ==> IsAlpha(input[k])
    ensures !IsAlpha(At(input, n))
  {
    if !IsAlpha(At(input, 0)) then 0 else AlphaLength(input[1..]) + 1
  }

  /** A handle: '!', alphabetic characters, and another '!' if there is one. */
  function HandleLength(input: Text): (n: nat)
    requires At(input, 0) == EXCLAMATION
    ensures 1 <= n <= |input|
  {
    var n := 1 + AlphaLength(input[1..]);
    if At(input, n) == EXCLAMATION then n + 1 else n
  }

  /** A scanned tag: its handle, the octets of its suffix, and the input behind it. */
  datatype TagToken = TagToken(handle: Text, suffix: seq<Byte>, rest: Text)

  predicate IsHandle(text: Text) {
    |text| > 1 && text[0] == EXCLAMATION && text[|text| - 1] == EXCLAMATION
  }

  predicate AllAlpha(text: Text) {
    forall k :: 0 <= k < |text| ==> IsAlpha(text[k])
  }

  /** Alphabetic characters are their own octets. */
  function Octets(text: Text): (r: seq<Byte>)
    requires AllAlpha(text)
  {
    seq(|text|, k requires 0 <= k < |text| => text[k] as int as Byte)
  }

  function ScanTag(input: Text): (r: Option<TagToken>)
    requires At(input, 0) == EXCLAMATION
    ensures r.Some? ==> |r.value.rest| < |input|
  {
    if At(input, 1) == LESS then
      match ScanUri(input[2..], [])
      case ScanError => None
      case Scanned(suffix, rest) =>
        if |rest| == |input[2..]| || At(rest, 0) != GREATER then None else Ended(TagToken([], suffix, rest[1..]))
    else
      var n := HandleLength(input);
      if IsHandle(input[..n]) then
        match ScanUri(input[n..], [])
        case ScanError => None
        case Scanned(suffix, rest) => if |rest| == |input[n..]| then None else Ended(TagToken(input[..n], suffix, rest))
      else
        match ScanUri(input[n..], Octets(input[1..n]))
        case ScanError => None
        case Scanned(suffix, rest) =>
          if suffix == [] then Ended(TagToken([], [EXCLAMATION as int as Byte], rest)) else Ended(TagToken([EXCLAMATION], suffix, rest))
  }

  /** A blank, a line break or the end of the input must follow. */
  function Ended(token: TagToken): Option<TagToken> {
    if IsBlankZ(At(token.rest, 0)) then Some(token) else None
  }

  // ----- Resolving (parser.c)

  /** The octets of the full tag: verbatim without a handle, else behind the handle's prefix. */
  function Resolve(directives: seq<Directive>, handle: Text, suffix: seq<Byte>): Option<seq<Byte>> {
    if handle == [] then Some(suffix)
    else
      match FindHandle(directives, handle)
      case None => None
      case Some(prefix) => Some(EncodeAll(prefix) + suffix)
  }

  function FindHandle(directives: seq<Directive>, handle: Text): Option<Text> {
    if directives == [] then None
    else if directives[0].handle == handle then Some(directives[0].prefix)
    else FindHandle(directives[1..], handle)
  }

  // ----- The content is read back

  lemma OctetFromDigits(octet: Byte)
    ensures IsHex(HexDigit(octet / 16)) && IsHex(HexDigit(octet % 16))
    ensures HexValue(HexDigit(octet / 16)) * 16 + HexValue(HexDigit(octet % 16)) == octet
  {
  }

  /** The octets of a sequence from some place on, the leading one first. */
  predicate IsSequence(octets: seq<Byte>, left: nat) {
    && octets != []
    && (if left == 0 then Width(octets[0]) == |octets| else left == |octets| && IsTrail(octets[0]))
    && forall k :: 1 <= k < |octets| ==> IsTrail(octets[k])
  }

  /** One escaped octet is read. */
  lemma OneEscape(octet: Byte, rest: Text, left: nat, before: seq<Byte>)
    requires if left == 0 then Width(octet) > 0 else IsTrail(octet)
    ensures var input := [PERCENT, HexDigit(octet / 16), HexDigit(octet % 16)] + rest;
      var width := if left == 0 then Width(octet) else left;
      ScanEscapes(input, left, before)
      == if width == 1 then Scanned(before + [octet], rest) else ScanEscapes(rest, width - 1, before + [octet])
  {
    hide Width, HexDigit, HexValue, IsHex;
    var input := [PERCENT, HexDigit(octet / 16), HexDigit(octet % 16)] + rest;
    OctetFromDigits(octet);
    assert input[3..] == rest;
  }

  lemma {:induction false} EscapesAreRead(octets: seq<Byte>, left: nat, before: seq<Byte>, tail: Text)
    requires IsSequence(octets, left)
    ensures ScanEscapes(EscapeOctets(octets) + tail, left, before) == Scanned(before + octets, tail)
    decreases |octets|
  {
    hide ScanEscapes, Width, HexDigit;
    var octet, rest := octets[0], EscapeOctets(octets[1..]) + tail;
    assert EscapeOctets(octets) + tail == [PERCENT, HexDigit(octet / 16), HexDigit(octet % 16)] + rest;
    OneEscape(octet, rest, left, before);
    if |octets| == 1 {
      assert octets == [octet] && octets[1..] == [];
      assert [] + tail == tail;
    } else {
      assert forall k :: 0 <= k < |octets[1..]| ==> octets[1..][k] == octets[k + 1];
      EscapesAreRead(octets[1..], |octets| - 1, before + [octet], tail);
      assert before + [octet] + octets[1..] == before + octets;
    }
  }

  lemma EncodedIsSequence(c: Char)
    ensures IsSequence(Encode(c), 0)
  {
  }

  lemma EncodeAscii(c: Char)
    requires c < 0x80
    ensures Encode(c) == [c as int as Byte]
  {
  }

  lemma CharacterIsRead(c: Char, before: seq<Byte>, rest: Text)
    ensures ScanUri((if IsAlpha(c) || IsPunctuation(c) then [c] else EscapeOctets(Encode(c))) + rest, before)
      == ScanUri(rest, before + Encode(c))
  {
    hide ScanEscapes, Encode, EscapeOctets, IsAlpha, IsPunctuation;
    if IsAlpha(c) || IsPunctuation(c) {
      SafeIsAscii(c);
      EncodeAscii(c);
      assert ([c] + rest)[1..] == rest;
    } else {
      var input := EscapeOctets(Encode(c)) + rest;
      EncodedIsSequence(c);
      EscapesAreRead(Encode(c), 0, before, rest);
      EscapeStarts(Encode(c), rest);
    }
  }

  lemma SafeIsAscii(c: Char)
    requires IsAlpha(c) || IsPunctuation(c)
    ensures c < 0x80 && c != PERCENT
  {
  }

  /** What was written of a text is read back as its octets, up to a character that cannot belong to it. */
  lemma {:induction false} ContentIsRead(text: Text, before: seq<Byte>, tail: Text)
    requires !IsUriChar(At(tail, 0))
    ensures ScanUri(WriteContent(text) + tail, before) == Scanned(before + EncodeAll(text), tail)
    decreases |text|
  {
    hide ScanUri, Encode, EscapeOctets, IsAlpha, IsPunctuation;
    if text == [] {
      assert WriteContent(text) + tail == tail;
      assert before + [] == before;
      ContentEnds(tail, before);
    } else {
      var c, rest := text[0], WriteContent(text[1..]) + tail;
      assert WriteContent(text) + tail == (if IsAlpha(c) || IsPunctuation(c) then [c] else EscapeOctets(Encode(c))) + rest;
      assert before + Encode(c) + EncodeAll(text[1..]) == before + EncodeAll(text);
      CharacterIsRead(c, before, rest);
      ContentIsRead(text[1..], before + Encode(c), tail);
    }
  }

  lemma ContentEnds(tail: Text, before: seq<Byte>)
    requires !IsUriChar(At(tail, 0))
    ensures ScanUri(tail, before) == Scanned(before, tail)
  {
  }

  lemma EscapeStarts(octets: seq<Byte>, rest: Text)
    requires octets != []
    ensures At(EscapeOctets(octets) + rest, 0) == PERCENT
  {
  }

  /** Plain characters in front of some input are read into the octets one by one. */
  lemma {:induction false} PlainIsRead(plain: Text, before: seq<Byte>, input: Text)
    requires AllAlpha(plain)
    ensures ScanUri(plain + input, before) == ScanUri(input, before + Octets(plain))
    decreases |plain|
  {
    if plain == [] {
      assert plain + input == input && before + Octets(plain) == before;
    } else {
      assert (plain + input)[1..] == plain[1..] + input;
      PlainIsRead(plain[1..], before + [plain[0] as int as Byte], input);
      assert before + [plain[0] as int as Byte] + Octets(plain[1..]) == before + Octets(plain);
    }
  }

  lemma {:induction false} ContentHasNoExclamation(text: Text)
    ensures forall k :: 0 <= k < |WriteContent(text)| ==> WriteContent(text)[k] != EXCLAMATION && WriteContent(text)[k] != LESS
    ensures text != [] ==> WriteContent(text) != []
    decreases |text|
  {
    if text != [] {
      ContentHasNoExclamation(text[1..]);
      EscapesHaveNone(Encode(text[0]));
    }
  }

  lemma {:induction false} EscapesHaveNone(octets: seq<Byte>)
    ensures forall k :: 0 <= k < |EscapeOctets(octets)| ==> EscapeOctets(octets)[k] != EXCLAMATION && EscapeOctets(octets)[k] != LESS
  {
    if octets != [] {
      EscapesHaveNone(octets[1..]);
    }
  }

  // ----- Whole tags

  /** '!' by itself, or '!' on both ends and alphabetic characters between them. */
  predicate WellFormedHandle(handle: Text) {
    || handle == [EXCLAMATION]
    || (IsHandle(handle) && forall k :: 1 <= k < |handle| - 1 ==> IsAlpha(handle[k]))
  }

  predicate WellFormed(directives: seq<Directive>) {
    && (forall k :: 0 <= k < |directives| ==> WellFormedHandle(directives[k].handle))
    && (forall i, j :: 0 <= i < j < |directives| ==> directives[i].handle != directives[j].handle)
  }

  /** What the analysis chooses is a directive of the list, and puts the tag together again. */
  lemma {:induction false} ChosenDirective(directives: seq<Directive>, tag: Text)
    requires WellFormed(directives) && tag != []
    ensures var data := FindPrefix(directives, tag);
      && data.suffix != []
      && (data.handle == None ==> data.suffix == tag)
      && (data.handle.Some? ==>
            && WellFormedHandle(data.handle.value)
            && FindHandle(directives, data.handle.value).Some?
            && FindHandle(directives, data.handle.value).value + data.suffix == tag)
  {
    if directives != [] && !(directives[0].prefix < tag) {
      var rest := directives[1..];
      assert WellFormed(rest) by {
        forall k | 0 <= k < |rest| ensures WellFormedHandle(rest[k].handle) { assert rest[k] == directives[k + 1]; }
        forall i, j | 0 <= i < j < |rest| ensures rest[i].handle != rest[j].handle {
          assert directives[i + 1].handle != directives[j + 1].handle;
        }
      }
      ChosenDirective(rest, tag);
      var data := FindPrefix(rest, tag);
      if data.handle.Some? {
        HandleIsListed(rest, data.handle.value);
        var k :| 0 <= k < |rest| && rest[k].handle == data.handle.value;
        assert directives[0].handle != directives[k + 1].handle;
      }
    }
  }

  lemma {:induction false} HandleIsListed(directives: seq<Directive>, handle: Text)
    requires FindHandle(directives, handle).Some?
    ensures exists k :: 0 <= k < |directives| && directives[k].handle == handle
  {
    if directives[0].handle != handle {
      HandleIsListed(directives[1..], handle);
      var k :| 0 <= k < |directives[1..]| && directives[1..][k].handle == handle;
      assert directives[k + 1].handle == handle;
    }
  }

  lemma {:induction false} AlphaLengthIs(input: Text, n: nat)
    requires n <= |input| && (forall k :: 0 <= k < n ==> IsAlpha(input[k])) && !IsAlpha(At(input, n))
    ensures AlphaLength(input) == n
    decreases n
  {
    if n > 0 {
      assert forall k :: 0 <= k < n - 1 ==> input[1..][k] == input[k + 1];
      AlphaLengthIs(input[1..], n - 1);
    }
  }

  /** A handle with two '!' is read as one, and then the suffix. */
  lemma NamedTagIsRead(handle: Text, suffix: Text, tail: Text)
    requires WellFormedHandle(handle) && IsHandle(handle) && suffix != [] && IsBlankZ(At(tail, 0))
    ensures ScanTag(handle + WriteContent(suffix) + tail) == Some(TagToken(handle, EncodeAll(suffix), tail))
  {
    hide ScanUri, WriteContent, EncodeAll, WellFormedHandle, HandleLength;
    var input := handle + WriteContent(suffix) + tail;
    var n := |handle|;
    assert input[..n] == handle && input[n..] == WriteContent(suffix) + tail;
    NamedHandleLength(handle, WriteContent(suffix) + tail);
    assert handle + (WriteContent(suffix) + tail) == input;
    ContentHasNoExclamation(suffix);
    ContentIsRead(suffix, [], tail);
    assert [] + EncodeAll(suffix) == EncodeAll(suffix);
  }

  /** A handle ends with its second '!', whatever comes behind. */
  lemma NamedHandleLength(handle: Text, rest: Text)
    requires WellFormedHandle(handle) && IsHandle(handle)
    ensures HandleLength(handle + rest) == |handle| && At(handle + rest, 0) == EXCLAMATION && At(handle + rest, 1) != LESS
  {
    var input, n := handle + rest, |handle|;
    assert forall k :: 0 <= k < n - 2 ==> input[1..][k] == handle[k + 1];
    assert input[1..][n - 2] == handle[n - 1];
    AlphaLengthIs(input[1..], n - 2);
    assert input[1] == handle[1];
  }

  /** Behind the handle '!' the scanner takes the first characters for a handle, and finds that it is none. */
  lemma PrimaryHandle(content: Text, tail: Text)
    requires content != [] && IsBlankZ(At(tail, 0))
    requires forall k :: 0 <= k < |content| ==> content[k] != EXCLAMATION && content[k] != LESS
    ensures var input, n := [EXCLAMATION] + content + tail, AlphaLength(content + tail);
      && At(input, 1) != LESS && HandleLength(input) == 1 + n && !IsHandle(input[..1 + n])
      && input[1..1 + n] == (content + tail)[..n] && input[1 + n..] == (content + tail)[n..]
  {
    var all := content + tail;
    var input := [EXCLAMATION] + content + tail;
    var n := AlphaLength(all);
    assert input == [EXCLAMATION] + all && input[1..] == all;
    AlphaEndsInContent(content, tail);
    assert At(input, 1 + n) == At(all, n) && At(input, 1) == all[0] == content[0];
    assert At(all, n) == if n < |content| then content[n] else At(tail, 0);
    assert input[..1 + n] == [EXCLAMATION] + all[..n];
    assert n > 0 ==> input[..1 + n][n] == all[n - 1];
  }

  lemma PrimaryTagIsRead(suffix: Text, tail: Text)
    requires suffix != [] && IsBlankZ(At(tail, 0))
    ensures ScanTag([EXCLAMATION] + WriteContent(suffix) + tail) == Some(TagToken([EXCLAMATION], EncodeAll(suffix), tail))
  {
    hide ScanUri, WriteContent, EncodeAll, HandleLength, IsHandle, AlphaLength, Octets;
    var all := WriteContent(suffix) + tail;
    ContentHasNoExclamation(suffix);
    PrimaryHandle(WriteContent(suffix), tail);
    var plain := all[..AlphaLength(all)];
    PlainIsRead(plain, [], all[AlphaLength(all)..]);
    assert plain + all[AlphaLength(all)..] == all;
    assert [] + Octets(plain) == Octets(plain);
    ContentIsRead(suffix, [], tail);
    assert [] + EncodeAll(suffix) == EncodeAll(suffix);
    EncodesToSomething(suffix);
  }

  lemma EncodesToSomething(text: Text)
    requires text != []
    ensures EncodeAll(text) != []
  {
  }

  lemma {:induction false} AlphaEndsInContent(content: Text, tail: Text)
    requires IsBlankZ(At(tail, 0))
    ensures AlphaLength(content + tail) <= |content|
    decreases |content|
  {
    if content == [] {
      assert content + tail == tail;
    } else {
      assert (content + tail)[1..] == content[1..] + tail;
      AlphaEndsInContent(content[1..], tail);
    }
  }

  lemma VerbatimTagIsRead(tag: Text, tail: Text)
    requires tag != [] && IsBlankZ(At(tail, 0))
    ensures ScanTag([EXCLAMATION, LESS] + WriteContent(tag) + [GREATER] + tail) == Some(TagToken([], EncodeAll(tag), tail))
  {
    hide ScanUri, WriteContent, EncodeAll;
    var content, end := WriteContent(tag), [GREATER] + tail;
    var input := [EXCLAMATION, LESS] + content + [GREATER] + tail;
    assert input[2..] == content + end;
    assert end[1..] == tail;
    ContentHasNoExclamation(tag);
    ContentIsRead(tag, [], end);
    assert [] + EncodeAll(tag) == EncodeAll(tag);
  }

  /**
    For every tag that is not empty and every list of directives with distinct well-formed
    handles, what the emitter writes is scanned, up to the blank, break or end behind it, and
    resolved under the same list to the octets of the tag.
   */
  lemma TagRoundTrip(directives: seq<Directive>, tag: Text, tail: Text)
    requires WellFormed(directives) && tag != [] && IsBlankZ(At(tail, 0))
    ensures var data := AnalyzeTag(directives, tag);
      && data.Some? && At(WriteTag(data.value) + tail, 0) == EXCLAMATION
      && var token := ScanTag(WriteTag(data.value) + tail);
      && token.Some? && token.value.rest == tail
      && Resolve(directives, token.value.handle, token.value.suffix) == Some(EncodeAll(tag))
  {
    hide ScanTag, WriteContent, EncodeAll;
    ChosenDirective(directives, tag);
    var data := FindPrefix(directives, tag);
    match data.handle {
      case None => VerbatimTagIsRead(tag, tail);
      case Some(handle) =>
        EncodeAllAppend(FindHandle(directives, handle).value, data.suffix);
        if handle == [EXCLAMATION] {
          PrimaryTagIsRead(data.suffix, tail);
        } else {
          NamedTagIsRead(handle, data.suffix, tail);
        }
    }
  }

  // ----- The loops

  /** The emitter's loop over the characters of a tag, and over the octets of those it escapes. */
  method WriteTagContent(text: Text) returns (written: Text)
    ensures written == WriteContent(text)
  {
    hide IsAlpha, IsPunctuation, Encode, EscapeOctets, WriteContent;
    written := [];
    var k := 0;
    assert text[0..] == text && [] + WriteContent(text) == WriteContent(text);
    while k < |text|
      invariant 0 <= k <= |text| && written + WriteContent(text[k..]) == WriteContent(text)
    {
      var c := text[k];
      ContentStep(text, k);
      var piece;
      if IsAlpha(c) || IsPunctuation(c) {
        piece := [c];
      } else {
        piece := WriteEscapes(Encode(c));
      }
      assert written + (piece + WriteContent(text[k + 1..])) == written + piece + WriteContent(text[k + 1..]);
      written := written + piece;
      k := k + 1;
    }
    ContentOfNothing();
    assert text[k..] == [] && written + [] == written;
  }

  lemma ContentStep(text: Text, k: nat)
    requires k < |text|
    ensures WriteContent(text[k..])
      == (if IsAlpha(text[k]) || IsPunctuation(text[k]) then [text[k]] else EscapeOctets(Encode(text[k]))) + WriteContent(text[k + 1..])
  {
    assert text[k..][1..] == text[k + 1..];
  }

  lemma ContentOfNothing()
    ensures WriteContent([]) == []
  {
  }

  method WriteEscapes(octets: seq<Byte>) returns (written: Text)
    ensures written == EscapeOctets(octets)
  {
    written := [];
    var k := 0;
    assert octets[0..] == octets;
    while k < |octets|
      invariant 0 <= k <= |octets| && written + EscapeOctets(octets[k..]) == EscapeOctets(octets)
    {
      assert octets[k..][1..] == octets[k + 1..];
      written := written + [PERCENT, HexDigit(octets[k] / 16), HexDigit(octets[k] % 16)];
      k := k + 1;
    }
    assert written + [] == written;
  }

  /** The scanner's loop over the characters of a tag, `head` being the octets it starts with. */
  method ScanTagUri(input: Text, head: seq<Byte>) returns (r: Scanned)
    ensures r == ScanUri(input, head)
  {
    var octets: seq<Byte>, rest := head, input;
    while IsUriChar(At(rest, 0))
      invariant ScanUri(rest, octets) == ScanUri(input, head)
      decreases |rest|
    {
      if At(rest, 0) == PERCENT {
        r := ScanUriEscapes(rest, octets);
        if r == ScanError {
          return;
        }
        octets, rest := r.octets, r.rest;
      } else {
        octets, rest := octets + [rest[0] as int as Byte], rest[1..];
      }
    }
    r := Scanned(octets, rest);
  }

  method ScanUriEscapes(input: Text, before: seq<Byte>) returns (r: Scanned)
    ensures r == ScanEscapes(input, 0, before)
  {
    var octets, rest := before, input;
    var width := 0;
    while true
      invariant ScanEscapes(rest, width, octets) == ScanEscapes(input, 0, before)
      decreases |rest|
    {
      if At(rest, 0) != PERCENT || !IsHex(At(rest, 1)) || !IsHex(At(rest, 2)) {
        return ScanError;
      }
      var octet: Byte := HexValue(rest[1]) * 16 + HexValue(rest[2]);
      if width == 0 {
        width := Width(octet);
        if width == 0 {
          return ScanError;
        }
      } else if !IsTrail(octet) {
        return ScanError;
      }
      octets, rest := octets + [octet], rest[3..];
      width := width - 1;
      if width == 0 {
        return Scanned(octets, rest);
      }
    }
  }

  /** The analysis goes over the directives and takes the first that fits. */
  method FindTagPrefix(directives: seq<Directive>, tag: Text) returns (data: TagData)
    ensures data == FindPrefix(directives, tag)
  {
    var k := 0;
    assert directives[0..] == directives;
    while k < |directives|
      invariant 0 <= k <= |directives| && FindPrefix(directives[k..], tag) == FindPrefix(directives, tag)
    {
      assert directives[k..][1..] == directives[k + 1..];
      if directives[k].prefix < tag {
        return TagData(Some(directives[k].handle), tag[|directives[k].prefix|..]);
      }
      k := k + 1;
    }
    return TagData(None, tag);
  }
}
