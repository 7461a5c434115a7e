/**
  The whole output of the emitter, anchors, tags, directives, values and indicators: nothing in it
  is above the basic plane, so in every encoding the reader gets back what was written.
 */
module WholeOutput {
  import opened Options
  import opened Chars
  import opened Printing
  import opened Events
  import opened ScalarAnalysis
  import opened Emitting
  import opened Contents
  import opened NodeProperties
  import opened Encodings
  import opened Writing
  import opened PortableOutput
  import Tags
  import Utf8
  import ScalarEmitter

  // ----- Words

  lemma AlphaIsPortable(text: Text)
    requires Tags.AllAlpha(text)
    ensures Portable(text)
  {
    forall k | 0 <= k < |text| ensures IsPortable(text[k]) {
      assert Tags.IsAlpha(text[k]);
    }
  }

  lemma HandleIsPortable(handle: Text)
    requires Tags.WellFormedHandle(handle)
    ensures Portable(handle)
  {
    forall k | 0 <= k < |handle| ensures IsPortable(handle[k]) {
      if 1 <= k < |handle| - 1 {
        assert Tags.IsAlpha(handle[k]);
      }
    }
  }

  lemma {:induction false} EscapedOctetsArePortable(octets: seq<Utf8.Byte>)
    ensures Portable(Tags.EscapeOctets(octets))
  {
    if octets != [] {
      EscapedOctetsArePortable(octets[1..]);
      PortableAppend([PERCENT, HexDigit(octets[0] / 16), HexDigit(octets[0] % 16)], Tags.EscapeOctets(octets[1..]));
    }
  }

  /** Percent escapes make every text portable. */
  lemma {:induction false} TagContentIsPortable(text: Text)
    ensures Portable(Tags.WriteContent(text))
  {
    hide Tags.EscapeOctets, Utf8.Encode;
    if text != [] {
      TagContentIsPortable(text[1..]);
      EscapedOctetsArePortable(Utf8.Encode(text[0]));
      var first := if Tags.IsAlpha(text[0]) || Tags.IsPunctuation(text[0]) then [text[0]] else Tags.EscapeOctets(Utf8.Encode(text[0]));
      PortableAppend(first, Tags.WriteContent(text[1..]));
    }
  }

  lemma WordIsPortable(text: Text, needWhitespace: bool, isWhitespace: bool, isIndention: bool, pen: Pen)
    requires Portable(text)
    ensures Portable(WriteIndicator(text, needWhitespace, isWhitespace, isIndention, pen).text)
  {
    PortableAppend([SPACE], text);
    assert [] + text == text;
  }

  lemma ThenIsPortable(first: Ink, second: Ink)
    requires Portable(first.text) && Portable(second.text)
    ensures Portable(Then(first, second).text)
  {
    PortableAppend(first.text, second.text);
  }

  // ----- Properties

  lemma AnchorIsPortable(anchor: Option<string>, alias: bool, pen: Pen)
    requires AnchorOk(anchor)
    ensures Portable(WriteAnchor(ToOption(anchor), alias, pen).text)
  {
    if anchor.Some? {
      var name := ToText(anchor.value);
      var indicator := WriteIndicator(if alias then [STAR] else [AMPERSAND], true, false, false, pen);
      WordIsPortable(if alias then [STAR] else [AMPERSAND], true, false, false, pen);
      AlphaIsPortable(name);
      WordIsPortable(name, false, false, false, indicator.pen);
      ThenIsPortable(indicator, WriteWord(name, false, indicator.pen));
    }
  }

  predicate DataOk(data: Option<Tags.TagData>) {
    data.Some? && data.value.handle.Some? ==> Tags.WellFormedHandle(data.value.handle.value)
  }

  lemma {:induction false} PrefixDataOk(directives: seq<Tags.Directive>, tag: Text)
    requires forall k :: 0 <= k < |directives| ==> Tags.WellFormedHandle(directives[k].handle)
    ensures DataOk(Some(Tags.FindPrefix(directives, tag)))
    decreases |directives|
  {
    if directives != [] {
      PrefixDataOk(directives[1..], tag);
    }
  }

  lemma DataOfIsOk(canonical: bool, d: seq<TagDirective>, tag: Option<string>, implicit: bool)
    requires DirectivesOk(d)
    ensures DataOk(DataOf(canonical, d, tag, implicit))
  {
    if TagIsWritten(canonical, tag, implicit) && ToText(tag.value) != [] {
      forall k | 0 <= k < |d| ensures Tags.WellFormedHandle(ToDirectives(d)[k].handle) {
        assert DirectiveOk(d[k]);
      }
      PrefixDataOk(ToDirectives(d), ToText(tag.value));
    }
  }

  lemma TagIsPortable(data: Option<Tags.TagData>, pen: Pen)
    requires DataOk(data)
    ensures Portable(WriteTag(data, pen).text)
  {
    hide Portable, Tags.WriteContent, Tags.WellFormedHandle, WriteIndicator;
    if data == None {
      NothingIsPortable();
    } else {
      var content := Tags.WriteContent(data.value.suffix);
      TagContentIsPortable(data.value.suffix);
      if data.value.handle.Some? {
        var start := WriteWord(data.value.handle.value, true, pen);
        HandleIsPortable(data.value.handle.value);
        WordIsPortable(data.value.handle.value, true, false, false, pen);
        WordIsPortable(content, false, false, false, start.pen);
        ThenIsPortable(start, WriteWord(content, false, start.pen));
      } else {
        VerbatimIsPortable(content, pen);
      }
    }
  }

  lemma VerbatimIsPortable(content: Text, pen: Pen)
    requires Portable(content)
    ensures var start := WriteIndicator([EXCLAMATION, LESS], true, false, false, pen);
      var middle := WriteWord(content, false, start.pen);
      Portable(Then(Then(start, middle), WriteIndicator([GREATER], false, false, false, middle.pen)).text)
  {
    hide WriteIndicator;
    var start := WriteIndicator([EXCLAMATION, LESS], true, false, false, pen);
    var middle := WriteWord(content, false, start.pen);
    WordIsPortable([EXCLAMATION, LESS], true, false, false, pen);
    WordIsPortable(content, false, false, false, start.pen);
    WordIsPortable([GREATER], false, false, false, middle.pen);
    ThenIsPortable(start, middle);
    ThenIsPortable(Then(start, middle), WriteIndicator([GREATER], false, false, false, middle.pen));
  }

  // ----- Scalars and directives

  lemma ScalarNodeIsPortable(s: Settings, canonical: bool, e: Event, place: Place, pen: Pen)
    requires s.Normal() && e.ScalarEvent? && IsValidEvent(canonical, e) && DirectivesOk(place.directives)
    ensures Portable(WriteScalar(s, canonical, e, place, pen).text)
  {
    hide Portable, SelectStyle, DataOf, WriteAnchor, WriteTag, ScalarEmitter.ScalarInk, DirectivesOk, Tags.WellFormedHandle;
    var r := RequestOf(e);
    var data := DataOf(canonical, place.directives, e.tag, e.plainImplicit || e.quotedImplicit);
    var c := Context(canonical, place.flow, place.simpleKey, data == None);
    if SelectStyle(s, r, c) == None {
      NothingIsPortable();
    } else {
      var style := SelectStyle(s, r, c).value;
      var anchor := WriteAnchor(ToOption(e.anchor), false, pen);
      AnchorIsPortable(e.anchor, false, pen);
      DataOfIsOk(canonical, place.directives, e.tag, e.plainImplicit || e.quotedImplicit);
      var written := ScalarEmitter.ScalarTag(data, r, c, style);
      assert DataOk(written) by { BangIsHandle(); }
      var tag := WriteTag(written, anchor.pen);
      TagIsPortable(written, anchor.pen);
      ScalarIsPortable(s, place.level, r, c, style, place.simpleKey, tag.pen);
      ThenIsPortable(anchor, tag);
      ThenIsPortable(Then(anchor, tag), ScalarEmitter.ScalarInk(s, place.level, r.value, style, place.simpleKey, tag.pen));
    }
  }

  lemma BangIsHandle()
    ensures Tags.WellFormedHandle([EXCLAMATION])
  {
  }

  lemma VersionIsPortable(s: Settings, version: Option<(nat, nat)>, level: int, pen: Pen)
    ensures Portable(WriteVersion(s, version, level, pen).text)
  {
    hide WriteIndicator, WriteIndent;
    if version.Some? {
      var mark := WriteIndicator(YAML_MARK, true, false, false, pen);
      var number := WriteIndicator(VERSION_NUMBER, true, false, false, mark.pen);
      WordIsPortable(YAML_MARK, true, false, false, pen);
      WordIsPortable(VERSION_NUMBER, true, false, false, mark.pen);
      IndentIsPortable(s, level, number.pen);
      ThenIsPortable(mark, number);
      ThenIsPortable(Then(mark, number), WriteIndent(s, level, number.pen));
    }
  }

  lemma DirectiveIsPortable(s: Settings, directive: TagDirective, level: int, pen: Pen)
    requires DirectiveOk(directive)
    ensures Portable(WriteDirective(s, directive, level, pen).text)
  {
    hide WriteIndicator, WriteIndent, Tags.WriteContent, Tags.WellFormedHandle;
    var handle, prefix := ToText(directive.handle), Tags.WriteContent(ToText(directive.prefix));
    var mark := WriteIndicator(TAG_MARK, true, false, false, pen);
    var first := WriteWord(handle, true, mark.pen);
    var second := WriteWord(prefix, true, first.pen);
    WordIsPortable(TAG_MARK, true, false, false, pen);
    HandleIsPortable(handle);
    TagContentIsPortable(ToText(directive.prefix));
    WordIsPortable(handle, true, false, false, mark.pen);
    WordIsPortable(prefix, true, false, false, first.pen);
    IndentIsPortable(s, level, second.pen);
    ThenIsPortable(mark, first);
    ThenIsPortable(Then(mark, first), second);
    ThenIsPortable(Then(Then(mark, first), second), WriteIndent(s, level, second.pen));
  }

  lemma {:induction false} DirectivesArePortable(s: Settings, directives: seq<TagDirective>, level: int, pen: Pen)
    requires DirectivesOk(directives)
    ensures Portable(WriteDirectives(s, directives, level, pen).text)
    decreases |directives|
  {
    hide Portable, WriteDirective, DirectiveOk;
    if directives == [] {
      NothingIsPortable();
    } else {
      var first := WriteDirective(s, directives[0], level, pen);
      DirectiveIsPortable(s, directives[0], level, pen);
      DirectivesArePortable(s, directives[1..], level, first.pen);
      ThenIsPortable(first, WriteDirectives(s, directives[1..], level, first.pen));
    }
  }

  /** Whatever a valid event holds, what is written for it is portable. */
  lemma ContentIsPortable(s: Settings, canonical: bool, e: Event, place: Place, pen: Pen)
    requires s.Normal() && IsValidEvent(canonical, e) && DirectivesOk(place.directives)
    ensures Portable(ContentOf(s, canonical, e, place, pen).text)
  {
    hide Portable, DataOf, WriteAnchor, WriteTag, WriteScalar, WriteVersion, WriteDirectives, DirectivesOk;
    match e {
      case AliasEvent(anchor) => AnchorIsPortable(anchor, true, pen);
      case ScalarEvent(_, _, _, _, _, _) => ScalarNodeIsPortable(s, canonical, e, place, pen);
      case SequenceStart(anchor, tag, implicit, _) => PropertiesArePortable(canonical, place.directives, anchor, tag, implicit, pen);
      case MappingStart(anchor, tag, implicit, _) => PropertiesArePortable(canonical, place.directives, anchor, tag, implicit, pen);
      case DocumentStart(version, directives, _) =>
        var first := WriteVersion(s, version, place.level, pen);
        VersionIsPortable(s, version, place.level, pen);
        DirectivesArePortable(s, directives, place.level, first.pen);
        ThenIsPortable(first, WriteDirectives(s, directives, place.level, first.pen));
      case StreamStart => NothingIsPortable();
      case StreamEnd => NothingIsPortable();
      case DocumentEnd(_) => NothingIsPortable();
      case SequenceEnd => NothingIsPortable();
      case MappingEnd => NothingIsPortable();
    }
  }

  lemma PropertiesArePortable(canonical: bool, d: seq<TagDirective>, anchor: Option<string>, tag: Option<string>, implicit: bool, pen: Pen)
    requires AnchorOk(anchor) && DirectivesOk(d)
    ensures var name := WriteAnchor(ToOption(anchor), false, pen);
      Portable(Then(name, WriteTag(DataOf(canonical, d, tag, implicit), name.pen)).text)
  {
    hide Portable, DataOf, WriteAnchor, WriteTag, DirectivesOk;
    var name := WriteAnchor(ToOption(anchor), false, pen);
    AnchorIsPortable(anchor, false, pen);
    DataOfIsOk(canonical, d, tag, implicit);
    TagIsPortable(DataOf(canonical, d, tag, implicit), name.pen);
    ThenIsPortable(name, WriteTag(DataOf(canonical, d, tag, implicit), name.pen));
  }

  // ----- The machine

  /** What is written for valid events is portable, and their directives are well-formed. */
  ghost predicate ContentsPortable(cfg: Config) {
    && (forall e: Event, place: Place, pen: Pen :: cfg.valid(e) && DirectivesOk(place.directives) ==> Portable(cfg.content(e, place, pen).text))
    && (forall e: Event :: cfg.valid(e) && e.DocumentStart? ==> DirectivesOk(e.directives))
  }

  /** All written so far is portable, and the directives in force are well-formed. */
  predicate Clean(w: Writer) {
    Portable(w.text) && DirectivesOk(w.directives)
  }

  predicate CleanOutcome(outcome: Outcome) {
    outcome.Emitted? ==> Clean(outcome.emitter.w)
  }

  lemma WriteKeepsClean(w: Writer, ink: Ink)
    requires Clean(w) && Portable(ink.text)
    ensures Clean(Write(w, ink))
  {
    PortableAppend(w.text, ink.text);
  }

  /** The texts of the indicators. */
  predicate IsIndicatorText(text: Text) {
    || text == OPEN_SEQUENCE || text == CLOSE_SEQUENCE || text == OPEN_MAPPING || text == CLOSE_MAPPING || text == NEXT_ITEM
    || text == VALUE_MARK || text == KEY_MARK || text == ITEM_MARK || text == START_MARK || text == END_MARK
  }

  lemma IndicateKeepsClean(w: Writer, text: Text, needWhitespace: bool, isWhitespace: bool, isIndention: bool)
    requires Clean(w) && IsIndicatorText(text)
    ensures Clean(Indicate(w, text, needWhitespace, isWhitespace, isIndention))
  {
    hide WriteIndicator;
    WordIsPortable(text, needWhitespace, isWhitespace, isIndention, w.pen);
    WriteKeepsClean(w, WriteIndicator(text, needWhitespace, isWhitespace, isIndention, w.pen));
  }

  lemma IndentKeepsClean(cfg: Config, w: Writer)
    requires Clean(w)
    ensures Clean(Indent(cfg, w)) && Clean(IndentIfLong(cfg, w))
  {
    hide WriteIndent;
    IndentIsPortable(cfg.settings, w.indent, w.pen);
    WriteKeepsClean(w, WriteIndent(cfg.settings, w.indent, w.pen));
  }

  lemma ContentKeepsClean(cfg: Config, w: Writer, e: Event, level: int, simpleKey: bool)
    requires ContentsPortable(cfg) && Clean(w) && cfg.valid(e)
    ensures Clean(WriteContent(cfg, w, e, level, simpleKey))
  {
    var place := Place(level, w.flowLevel > 0, simpleKey, w.directives);
    WriteKeepsClean(w, cfg.content(e, place, w.pen));
  }

  lemma NodeKeepsClean(cfg: Config, s: Emitter, queue: seq<Event>, mapping: bool, simpleKey: bool)
    requires ContentsPortable(cfg) && queue != [] && Clean(s.w)
    ensures CleanOutcome(EmitNode(cfg, s, queue, mapping, simpleKey))
  {
    hide ContentsPortable, Portable, DirectivesOk, WriteContent, IsFlow;
    var e, w := queue[0], s.w.(mapping := mapping);
    if StartsNode(e) && cfg.valid(e) {
      ContentKeepsClean(cfg, w, e, w.indent, simpleKey);
      var deeper := Deeper(cfg, s.(w := w), true, false);
      ContentKeepsClean(cfg, deeper.w, e, deeper.w.indent, simpleKey);
    }
  }

  lemma DocumentStartKeepsClean(cfg: Config, s: Emitter, e: Event, first: bool)
    requires ContentsPortable(cfg) && Clean(s.w)
    ensures CleanOutcome(EmitDocumentStart(cfg, s, e, first))
  {
    hide Portable, WriteContent, Indent, Indicate, DirectiveOk, EndOpen;
    EndOpenKeepsClean(cfg, s.w);
    if e.DocumentStart? && cfg.valid(e) {
      var w0 := if e.version.Some? || e.directives != [] then EndOpen(cfg, s.w) else s.w;
      var w1 := WriteContent(cfg, w0, e, w0.indent, false);
      ContentKeepsClean(cfg, w0, e, w0.indent, false);
      IndentKeepsClean(cfg, w1);
      IndicateKeepsClean(Indent(cfg, w1), START_MARK, true, false, false);
      IndentKeepsClean(cfg, Indicate(Indent(cfg, w1), START_MARK, true, false, false));
      DefaultsAreOk(e.directives);
    }
  }

  lemma EndOpenKeepsClean(cfg: Config, w: Writer)
    requires Clean(w)
    ensures Clean(EndOpen(cfg, w))
  {
    hide Portable, Indent, Indicate;
    IndicateKeepsClean(w, END_MARK, true, false, false);
    IndentKeepsClean(cfg, Indicate(w, END_MARK, true, false, false));
  }

  lemma DefaultsAreOk(directives: seq<TagDirective>)
    requires DirectivesOk(directives)
    ensures DirectivesOk(AddDefaults(directives))
  {
    hide FindDirective;
    assert ToText("!") == [EXCLAMATION] && ToText("!!") == [EXCLAMATION, EXCLAMATION];
    assert DirectiveOk(TagDirective("!", "!")) && DirectiveOk(TagDirective("!!", "tag:yaml.org,2002:"));
  }

  lemma DocumentEndKeepsClean(cfg: Config, s: Emitter, e: Event)
    requires Clean(s.w)
    ensures CleanOutcome(EmitDocumentEnd(cfg, s, e))
  {
    hide Portable, Indent, Indicate;
    var w := Indent(cfg, s.w.(directives := []));
    IndentKeepsClean(cfg, s.w.(directives := []));
    IndicateKeepsClean(w, END_MARK, true, false, false);
    IndentKeepsClean(cfg, Indicate(w, END_MARK, true, false, false));
  }

  lemma FlowOpensClean(cfg: Config, s: Emitter, indicator: Text)
    requires Clean(s.w) && IsIndicatorText(indicator)
    ensures Clean(OpenFlow(cfg, s, indicator).w)
  {
    hide Portable, Indicate;
    IndicateKeepsClean(s.w, indicator, true, true, false);
  }

  lemma FlowClosesClean(cfg: Config, s: Emitter, indicator: Text, first: bool)
    requires Clean(s.w) && IsIndicatorText(indicator)
    ensures CleanOutcome(CloseFlow(cfg, s, indicator, first))
  {
    hide Portable, Indent, Indicate;
    var popped := PopIndent(s.(w := s.w.(flowLevel := s.w.flowLevel - 1)));
    if popped.Emitted? {
      var w := popped.emitter.w;
      IndicateKeepsClean(w, NEXT_ITEM, false, false, false);
      IndentKeepsClean(cfg, Indicate(w, NEXT_ITEM, false, false, false));
      IndicateKeepsClean(Indent(cfg, Indicate(w, NEXT_ITEM, false, false, false)), indicator, false, false, false);
      IndicateKeepsClean(w, indicator, false, false, false);
    }
  }

  /** What is written in front of items, keys and values. */
  lemma SeparatorsKeepClean(cfg: Config, w: Writer, first: bool, simple: bool)
    requires Clean(w)
    ensures Clean(NextFlowItem(cfg, w, first)) && Clean(BeforeFlowKey(cfg, w, first, simple)) && Clean(BeforeFlowValue(cfg, w, simple))
    ensures Clean(BeforeBlockItem(cfg, w)) && Clean(BeforeBlockKey(cfg, w, simple)) && Clean(BeforeBlockValue(cfg, w, simple))
  {
    hide Clean, Indent, Indicate, IndentIfLong;
    IndicateKeepsClean(w, NEXT_ITEM, false, false, false);
    IndentKeepsClean(cfg, w);
    IndentKeepsClean(cfg, Indicate(w, NEXT_ITEM, false, false, false));
    IndicateKeepsClean(NextFlowItem(cfg, w, first), KEY_MARK, true, false, false);
    IndicateKeepsClean(w, VALUE_MARK, false, false, false);
    IndicateKeepsClean(IndentIfLong(cfg, w), VALUE_MARK, true, false, false);
    IndicateKeepsClean(Indent(cfg, w), ITEM_MARK, true, false, true);
    IndicateKeepsClean(Indent(cfg, w), KEY_MARK, true, false, true);
    IndicateKeepsClean(Indent(cfg, w), VALUE_MARK, true, false, true);
  }

  lemma FlowKeepsClean(cfg: Config, s: Emitter, queue: seq<Event>, first: bool)
    requires ContentsPortable(cfg) && queue != [] && Clean(s.w)
    ensures CleanOutcome(EmitFlowSequenceItem(cfg, s, queue, first)) && CleanOutcome(EmitFlowMappingKey(cfg, s, queue, first))
  {
    hide ContentsPortable, Clean, CleanOutcome, EmitNode, CloseFlow, OpenFlow, NextFlowItem, BeforeFlowKey, SimpleKeyAhead;
    FlowOpensClean(cfg, s, OPEN_SEQUENCE);
    FlowOpensClean(cfg, s, OPEN_MAPPING);
    InsideFlowKeepsClean(cfg, s, queue, first);
    InsideFlowKeepsClean(cfg, OpenFlow(cfg, s, OPEN_SEQUENCE), queue, first);
    InsideFlowKeepsClean(cfg, OpenFlow(cfg, s, OPEN_MAPPING), queue, first);
  }

  lemma InsideFlowKeepsClean(cfg: Config, s: Emitter, queue: seq<Event>, first: bool)
    requires ContentsPortable(cfg) && queue != [] && Clean(s.w)
    ensures CleanOutcome(FlowSequenceItem(cfg, s, queue, first)) && CleanOutcome(FlowMappingKey(cfg, s, queue, first))
  {
    hide ContentsPortable, Clean, CleanOutcome, EmitNode, CloseFlow, NextFlowItem, BeforeFlowKey, SimpleKeyAhead;
    FlowClosesClean(cfg, s, CLOSE_SEQUENCE, first);
    FlowClosesClean(cfg, s, CLOSE_MAPPING, first);
    var simple := !cfg.canonical && SimpleKeyAhead(cfg, s.w.directives, queue);
    var next := if simple then FlowMappingSimpleValueState else FlowMappingValueState;
    SeparatorsKeepClean(cfg, s.w, first, simple);
    NodeKeepsClean(cfg, PushState(s.(w := NextFlowItem(cfg, s.w, first)), FlowSequenceItemState), queue, false, false);
    NodeKeepsClean(cfg, PushState(s.(w := BeforeFlowKey(cfg, s.w, first, simple)), next), queue, true, simple);
  }

  lemma BlockKeepsClean(cfg: Config, s: Emitter, queue: seq<Event>, first: bool)
    requires ContentsPortable(cfg) && queue != [] && Clean(s.w)
    ensures CleanOutcome(EmitBlockSequenceItem(cfg, s, queue, first)) && CleanOutcome(EmitBlockMappingKey(cfg, s, queue, first))
  {
    hide ContentsPortable, Portable, CleanOutcome, EmitNode, CloseBlock, BeforeBlockItem, BeforeBlockKey, SimpleKeyAhead;
    InsideBlockKeepsClean(cfg, s, queue);
    InsideBlockKeepsClean(cfg, Deeper(cfg, s, false, Indentless(s.w)), queue);
    InsideBlockKeepsClean(cfg, Deeper(cfg, s, false, false), queue);
  }

  lemma InsideBlockKeepsClean(cfg: Config, s: Emitter, queue: seq<Event>)
    requires ContentsPortable(cfg) && queue != [] && Clean(s.w)
    ensures CleanOutcome(BlockSequenceItem(cfg, s, queue)) && CleanOutcome(BlockMappingKey(cfg, s, queue))
  {
    hide ContentsPortable, Portable, EmitNode, BeforeBlockItem, BeforeBlockKey, SimpleKeyAhead;
    var simple := SimpleKeyAhead(cfg, s.w.directives, queue);
    var next := if simple then BlockMappingSimpleValueState else BlockMappingValueState;
    SeparatorsKeepClean(cfg, s.w, false, simple);
    NodeKeepsClean(cfg, PushState(s.(w := BeforeBlockItem(cfg, s.w)), BlockSequenceItemState), queue, false, false);
    NodeKeepsClean(cfg, PushState(s.(w := BeforeBlockKey(cfg, s.w, simple)), next), queue, true, simple);
  }

  lemma ValuesKeepClean(cfg: Config, s: Emitter, queue: seq<Event>, simple: bool)
    requires ContentsPortable(cfg) && queue != [] && Clean(s.w)
    ensures CleanOutcome(EmitFlowMappingValue(cfg, s, queue, simple)) && CleanOutcome(EmitBlockMappingValue(cfg, s, queue, simple))
  {
    hide ContentsPortable, Clean, CleanOutcome, EmitNode, BeforeFlowValue, BeforeBlockValue;
    SeparatorsKeepClean(cfg, s.w, false, simple);
    NodeKeepsClean(cfg, PushState(s.(w := BeforeFlowValue(cfg, s.w, simple)), FlowMappingKeyState), queue, true, false);
    NodeKeepsClean(cfg, PushState(s.(w := BeforeBlockValue(cfg, s.w, simple)), BlockMappingKeyState), queue, true, false);
  }

  /** Every step of the machine keeps the output portable. */
  lemma ProcessKeepsClean(cfg: Config, s: Emitter, queue: seq<Event>)
    requires ContentsPortable(cfg) && queue != [] && Clean(s.w)
    ensures CleanOutcome(Process(cfg, s, queue))
  {
    hide ContentsPortable, Portable, EmitNode, EmitDocumentStart, EmitDocumentEnd, EmitFlowSequenceItem, EmitFlowMappingKey,
         EmitFlowMappingValue, EmitBlockSequenceItem, EmitBlockMappingKey, EmitBlockMappingValue;
    DocumentStartKeepsClean(cfg, s, queue[0], true);
    DocumentStartKeepsClean(cfg, s, queue[0], false);
    DocumentEndKeepsClean(cfg, s, queue[0]);
    NodeKeepsClean(cfg, PushState(AtRoot(cfg, s, queue[0]), DocumentEndState), queue, false, false);
    FlowKeepsClean(cfg, s, queue, true);
    FlowKeepsClean(cfg, s, queue, false);
    BlockKeepsClean(cfg, s, queue, true);
    BlockKeepsClean(cfg, s, queue, false);
    ValuesKeepClean(cfg, s, queue, true);
    ValuesKeepClean(cfg, s, queue, false);
  }

  lemma {:induction false} DrainKeepsClean(cfg: Config, s: Emitter, queue: seq<Event>)
    requires ContentsPortable(cfg) && Clean(s.w)
    ensures Drain(cfg, s, queue).Queued? ==> Clean(Drain(cfg, s, queue).emitter.w)
    decreases |queue|
  {
    hide ContentsPortable, Clean, Process, NeedsMore;
    if !NeedsMore(queue) {
      SomethingIsThere(queue);
      ProcessKeepsClean(cfg, s, queue);
      if Process(cfg, s, queue).Emitted? {
        DrainKeepsClean(cfg, Process(cfg, s, queue).emitter, queue[1..]);
      }
    }
  }

  lemma SomethingIsThere(queue: seq<Event>)
    requires !NeedsMore(queue)
    ensures queue != []
  {
  }

  lemma {:induction false} EmitAllKeepsClean(cfg: Config, s: Emitter, queue: seq<Event>, events: seq<Event>)
    requires ContentsPortable(cfg) && Clean(s.w)
    ensures EmitAll(cfg, s, queue, events).Queued? ==> Clean(EmitAll(cfg, s, queue, events).emitter.w)
    decreases |events|
  {
    hide ContentsPortable, Clean, Drain;
    if events != [] {
      DrainKeepsClean(cfg, s, queue + [events[0]]);
      if Drain(cfg, s, queue + [events[0]]).Queued? {
        EmitAllKeepsClean(cfg, Drain(cfg, s, queue + [events[0]]).emitter, Drain(cfg, s, queue + [events[0]]).queue, events[1..]);
      }
    }
  }

  lemma {:induction false} ProcessAllKeepsClean(cfg: Config, s: Emitter, events: seq<Event>)
    requires ContentsPortable(cfg) && Clean(s.w)
    ensures CleanOutcome(ProcessAll(cfg, s, events))
    decreases |events|
  {
    hide ContentsPortable, Clean, Process;
    if events != [] {
      ProcessKeepsClean(cfg, s, events);
      if Process(cfg, s, events).Emitted? {
        ProcessAllKeepsClean(cfg, Process(cfg, s, events).emitter, events[1..]);
      }
    }
  }

  // ----- The main results

  /** The emitter's own contents are portable. */
  lemma ContentsArePortable(s: Settings, canonical: bool)
    requires s.Normal()
    ensures ContentsPortable(Complete(s, canonical))
  {
    hide ContentOf, DirectivesOk, Portable;
    var cfg := Complete(s, canonical);
    forall e: Event, place: Place, pen: Pen | cfg.valid(e) && DirectivesOk(place.directives)
      ensures Portable(cfg.content(e, place, pen).text)
    {
      ContentIsPortable(s, canonical, e, place, pen);
    }
  }

  /**
    Whatever the events, as far as the emitter accepts them: no character above the basic plane is
    ever put into the output buffer, and in every encoding the output is read back as the text
    that was written, both with the queue and with all events in view.
   */
  lemma OutputOfEveryWordIsReadBack(s: Settings, canonical: bool, encoding: Encoding, events: seq<Event>)
    requires s.Normal()
    ensures var r := EmitAll(Complete(s, canonical), Start(), [], events);
      r.Queued? ==> Portable(r.emitter.w.text) && DecodeInput(Output(encoding, r.emitter.w.text)) == Some(r.emitter.w.text)
    ensures var r := ProcessAll(Complete(s, canonical), Start(), events);
      r.Emitted? ==> Portable(r.emitter.w.text) && DecodeInput(Output(encoding, r.emitter.w.text)) == Some(r.emitter.w.text)
  {
    hide Complete, EmitAll, ProcessAll, DecodeInput, Output;
    var cfg := Complete(s, canonical);
    ContentsArePortable(s, canonical);
    assert Clean(Start().w);
    EmitAllKeepsClean(cfg, Start(), [], events);
    ProcessAllKeepsClean(cfg, Start(), events);
    var queued, whole := EmitAll(cfg, Start(), [], events), ProcessAll(cfg, Start(), events);
    if queued.Queued? {
      PortableTextIsReadBack(encoding, queued.emitter.w.text);
    }
    if whole.Emitted? {
      PortableTextIsReadBack(encoding, whole.emitter.w.text);
    }
  }
}
