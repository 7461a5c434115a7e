/**
  What the emitter writes for an event besides indicators and indents: anchors, tags, values and
  directives; and which events it refuses (emitter.c, yaml_emitter_analyze_event, the process
  functions and yaml_emitter_check_simple_key). With these the emitter's machine is complete.
 */
module Contents {
  import opened Options
  import opened Chars
  import opened Printing
  import opened Events
  import opened ScalarAnalysis
  import opened Emitting
  import Encodings
  import Tags
  import opened NodeProperties
  import ScalarEmitter

  /** The characters of a string: both are Unicode scalar values. */
  function ToText(s: string): (t: Text)
    ensures |t| == |s| && forall k :: 0 <= k < |s| ==> t[k] == s[k] as int
  {
    seq(|s|, k requires 0 <= k < |s| => var c: Char := s[k] as int; c)
  }

  // ----- What the analysis refuses

  predicate IsAnchor(anchor: string) {
    anchor != "" && Tags.AllAlpha(ToText(anchor))
  }

  predicate AnchorOk(anchor: Option<string>) {
    anchor.Some? ==> IsAnchor(anchor.value)
  }

  /** A tag is written unless it is implied; then it must not be empty. */
  predicate TagIsWritten(canonical: bool, tag: Option<string>, implicit: bool) {
    tag.Some? && (canonical || !implicit)
  }

  predicate TagOk(canonical: bool, tag: Option<string>, implicit: bool) {
    TagIsWritten(canonical, tag, implicit) ==> tag.value != ""
  }

  /** A handle has '!' on both ends, which may be the same, and alphabetic characters between them. */
  predicate DirectiveOk(directive: TagDirective) {
    Tags.WellFormedHandle(ToText(directive.handle)) && directive.prefix != ""
  }

  predicate DirectivesOk(directives: seq<TagDirective>) {
    forall k :: 0 <= k < |directives| ==> DirectiveOk(directives[k])
  }

  predicate DistinctHandles(directives: seq<TagDirective>) {
    forall i, j :: 0 <= i < j < |directives| ==> directives[i].handle != directives[j].handle
  }

  /** Every scalar has a tag or an implicit flag. */
  predicate IsValidEvent(canonical: bool, e: Event) {
    match e
    case AliasEvent(anchor) => anchor.Some? && IsAnchor(anchor.value)
    case ScalarEvent(anchor, tag, _, plainImplicit, quotedImplicit, _) =>
      && AnchorOk(anchor) && TagOk(canonical, tag, plainImplicit || quotedImplicit)
      && (tag.Some? || plainImplicit || quotedImplicit)
    case SequenceStart(anchor, tag, implicit, _) => AnchorOk(anchor) && TagOk(canonical, tag, implicit)
    case MappingStart(anchor, tag, implicit, _) => AnchorOk(anchor) && TagOk(canonical, tag, implicit)
    case DocumentStart(version, directives, _) =>
      (version.Some? ==> version.value == (1, 1)) && DirectivesOk(directives) && DistinctHandles(directives)
    case _ => true
  }

  // ----- Anchors and tags

  function ToOption(s: Option<string>): Option<Text> {
    match s
    case None => None
    case Some(value) => Some(ToText(value))
  }

  function ToDirectives(directives: seq<TagDirective>): (r: seq<Tags.Directive>)
    ensures |r| == |directives|
    ensures forall k :: 0 <= k < |r| ==> r[k] == Tags.Directive(ToText(directives[k].handle), ToText(directives[k].prefix))
  {
    if directives == [] then []
    else [Tags.Directive(ToText(directives[0].handle), ToText(directives[0].prefix))] + ToDirectives(directives[1..])
  }

  /** The handle and suffix of a tag that is written. */
  function DataOf(canonical: bool, d: seq<TagDirective>, tag: Option<string>, implicit: bool): Option<Tags.TagData> {
    if TagIsWritten(canonical, tag, implicit) then Tags.AnalyzeTag(ToDirectives(d), ToText(tag.value)) else None
  }

  // ----- Scalars

  /** The numbering of the styles; a number that is none counts as the last one. */
  function StyleOf(style: nat): Style {
    if style == 0 then AnyStyle
    else if style == PLAIN_STYLE then PlainStyle
    else if style == 2 then SingleQuotedStyle
    else if style == 3 then DoubleQuotedStyle
    else if style == 4 then LiteralStyle
    else FoldedStyle
  }

  function RequestOf(e: Event): Request
    requires e.ScalarEvent?
  {
    Request(ToText(e.value), StyleOf(e.style), e.plainImplicit, e.quotedImplicit)
  }

  function WriteScalar(s: Settings, canonical: bool, e: Event, place: Place, pen: Pen): Ink
    requires s.Normal() && e.ScalarEvent?
  {
    var r := RequestOf(e);
    var data := DataOf(canonical, place.directives, e.tag, e.plainImplicit || e.quotedImplicit);
    var c := Context(canonical, place.flow, place.simpleKey, data == None);
    match SelectStyle(s, r, c)
    case None => Ink([], pen)
    case Some(style) => ScalarEmitter.NodeInk(s, place.level, r, c, style, ToOption(e.anchor), data, pen)
  }

  /** A style is found exactly for the scalars that are accepted. */
  lemma AcceptedScalarsHaveAStyle(s: Settings, canonical: bool, e: Event, place: Place)
    requires e.ScalarEvent? && AnchorOk(e.anchor) && TagOk(canonical, e.tag, e.plainImplicit || e.quotedImplicit)
    ensures var data := DataOf(canonical, place.directives, e.tag, e.plainImplicit || e.quotedImplicit);
      var c := Context(canonical, place.flow, place.simpleKey, data == None);
      SelectStyle(s, RequestOf(e), c).Some? <==> IsValidEvent(canonical, e)
  {
    hide Analyze;
  }

  // ----- Directives

  const YAML_MARK: Text := [PERCENT, 0x59, 0x41, 0x4D, 0x4C]
  const VERSION_NUMBER: Text := [0x31, DOT, 0x31]
  const TAG_MARK: Text := [PERCENT, 0x54, 0x41, 0x47]

  function WriteVersion(s: Settings, version: Option<(nat, nat)>, level: int, pen: Pen): Ink {
    if version == None then Ink([], pen)
    else
      var mark := WriteIndicator(YAML_MARK, true, false, false, pen);
      var number := WriteIndicator(VERSION_NUMBER, true, false, false, mark.pen);
      Then(Then(mark, number), WriteIndent(s, level, number.pen))
  }

  function WriteDirective(s: Settings, directive: TagDirective, level: int, pen: Pen): Ink {
    var mark := WriteIndicator(TAG_MARK, true, false, false, pen);
    var handle := WriteWord(ToText(directive.handle), true, mark.pen);
    var prefix := WriteWord(Tags.WriteContent(ToText(directive.prefix)), true, handle.pen);
    Then(Then(Then(mark, handle), prefix), WriteIndent(s, level, prefix.pen))
  }

  function WriteDirectives(s: Settings, directives: seq<TagDirective>, level: int, pen: Pen): Ink {
    if directives == [] then Ink([], pen)
    else
      var first := WriteDirective(s, directives[0], level, pen);
      Then(first, WriteDirectives(s, directives[1..], level, first.pen))
  }

  // ----- All events

  function ContentOf(s: Settings, canonical: bool, e: Event, place: Place, pen: Pen): Ink
    requires s.Normal()
  {
    match e
    case AliasEvent(anchor) => WriteAnchor(ToOption(anchor), true, pen)
    case ScalarEvent(_, _, _, _, _, _) => WriteScalar(s, canonical, e, place, pen)
    case SequenceStart(anchor, tag, implicit, _) =>
      var name := WriteAnchor(ToOption(anchor), false, pen);
      Then(name, WriteTag(DataOf(canonical, place.directives, tag, implicit), name.pen))
    case MappingStart(anchor, tag, implicit, _) =>
      var name := WriteAnchor(ToOption(anchor), false, pen);
      Then(name, WriteTag(DataOf(canonical, place.directives, tag, implicit), name.pen))
    case DocumentStart(version, directives, _) =>
      var first := WriteVersion(s, version, place.level, pen);
      Then(first, WriteDirectives(s, directives, place.level, first.pen))
    case _ => Ink([], pen)
  }

  /** The octets of an anchor and of the handle and suffix of a tag. */
  function PropertiesLength(canonical: bool, d: seq<TagDirective>, anchor: Option<string>, tag: Option<string>, implicit: bool): nat {
    (if anchor.Some? then |anchor.value| else 0)
    + match DataOf(canonical, d, tag, implicit)
      case None => 0
      case Some(data) => (if data.handle.Some? then |data.handle.value| else 0) + |Encodings.EncodeAll(data.suffix)|
  }

  const KEY_LIMIT := 128

  /** A simple key is on one line and not too long. */
  predicate FitsKey(canonical: bool, e: Event, d: seq<TagDirective>) {
    match e
    case AliasEvent(anchor) => anchor.Some? && |anchor.value| <= KEY_LIMIT
    case ScalarEvent(anchor, tag, value, plainImplicit, quotedImplicit, _) =>
      && !Multiline(ToText(value))
      && PropertiesLength(canonical, d, anchor, tag, plainImplicit || quotedImplicit) + |Encodings.EncodeAll(ToText(value))| <= KEY_LIMIT
    case SequenceStart(anchor, tag, implicit, _) => PropertiesLength(canonical, d, anchor, tag, implicit) <= KEY_LIMIT
    case MappingStart(anchor, tag, implicit, _) => PropertiesLength(canonical, d, anchor, tag, implicit) <= KEY_LIMIT
    case _ => false
  }

  /** A scalar that is written plain at the root of its document. */
  predicate IsPlainRoot(s: Settings, canonical: bool, e: Event, d: seq<TagDirective>) {
    && e.ScalarEvent?
    && var data := DataOf(canonical, d, e.tag, e.plainImplicit || e.quotedImplicit);
       SelectStyle(s, RequestOf(e), Context(canonical, false, false, data == None)) == Some(PlainStyle)
  }

  /** The emitter's machine with all that it writes. */
  function Complete(s: Settings, canonical: bool): Config
    requires s.Normal()
  {
    Config(s, canonical, e => IsValidEvent(canonical, e), (e, d) => FitsKey(canonical, e, d), (e, d) => IsPlainRoot(s, canonical, e, d),
           (e, place, pen) => ContentOf(s, canonical, e, place, pen))
  }
}
