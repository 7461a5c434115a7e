/**
  The parser's pushdown machine, one function for each state function of parser.c.

  A parser state holds the tokens still to come; the scanner fails where they end. A mark is
  the number of the token it was taken from. Popping an empty stack is an outcome of its own,
  so that it can be proved not to happen.
 */
module Parsing {
  import opened Options
  import opened Events

  datatype Token =
    | StreamStartToken
    | StreamEndToken
    | VersionDirectiveToken(major: nat, minor: nat)
    | TagDirectiveToken(directive: TagDirective)
    | DocumentStartToken
    | DocumentEndToken
    | BlockSequenceStartToken
    | BlockMappingStartToken
    | BlockEndToken
    | FlowSequenceStartToken
    | FlowSequenceEndToken
    | FlowMappingStartToken
    | FlowMappingEndToken
    | BlockEntryToken
    | FlowEntryToken
    | KeyToken
    | ValueToken
    | AliasToken(name: string)
    | AnchorToken(name: string)
    | TagToken(handle: string, suffix: string)
    | ScalarToken(value: string, style: nat)

  datatype State =
    | StreamStartState
    | ImplicitDocumentStartState
    | DocumentStartState
    | DocumentContentState
    | DocumentEndState
    | BlockNodeState
    | BlockNodeOrIndentlessSequenceState
    | FlowNodeState
    | BlockSequenceFirstEntryState
    | BlockSequenceEntryState
    | IndentlessSequenceEntryState
    | BlockMappingFirstKeyState
    | BlockMappingKeyState
    | BlockMappingValueState
    | FlowSequenceFirstEntryState
    | FlowSequenceEntryState
    | FlowSequenceEntryMappingKeyState
    | FlowSequenceEntryMappingValueState
    | FlowSequenceEntryMappingEndState
    | FlowMappingFirstKeyState
    | FlowMappingKeyState
    | FlowMappingValueState
    | FlowMappingEmptyValueState
    | EndState

  datatype Parser = Parser(state: State, states: seq<State>, marks: seq<int>,
                           directives: seq<TagDirective>, tokens: seq<Token>, parsed: int)

  datatype Outcome =
    | Emitted(event: Event, parser: Parser)
    | Failed     // a scanner or parser error
    | Underflow  // a pop from an empty stack

  function Start(tokens: seq<Token>): Parser {
    Parser(StreamStartState, [], [], [], tokens, 0)
  }

  function Skip(p: Parser): Parser
    requires p.tokens != []
  {
    p.(tokens := p.tokens[1..], parsed := p.parsed + 1)
  }

  function Push(p: Parser, s: State): Parser {
    p.(states := p.states + [s])
  }

  function PushMark(p: Parser): Parser {
    p.(marks := p.marks + [p.parsed])
  }

  /** Emits an event and continues in the state popped from the stack. */
  function EmitPop(event: Event, p: Parser): Outcome {
    if p.states == [] then Underflow
    else Emitted(event, p.(state := p.states[|p.states| - 1], states := p.states[..|p.states| - 1]))
  }

  /** The same, and the mark of the collection is popped. */
  function EmitPopMark(event: Event, p: Parser): Outcome {
    if p.marks == [] then Underflow else EmitPop(event, p.(marks := p.marks[..|p.marks| - 1]))
  }

  /** An error that pops the mark of the collection to report it. */
  function FailPopMark(p: Parser): Outcome {
    if p.marks == [] then Underflow else Failed
  }

  function Emit(event: Event, p: Parser, next: State): Outcome {
    Emitted(event, p.(state := next))
  }

  const EMPTY_SCALAR := ScalarEvent(None, None, "", true, false, PLAIN_STYLE)

  // ----- Streams and documents

  function ParseStreamStart(p: Parser): Outcome {
    if p.tokens == [] || p.tokens[0] != StreamStartToken then Failed
    else Emit(StreamStart, Skip(p), ImplicitDocumentStartState)
  }

  function SkipDocumentEnds(p: Parser): (r: Parser)
    ensures |r.tokens| <= |p.tokens| && r.parsed >= p.parsed
    ensures r == p.(tokens := r.tokens, parsed := r.parsed)
    decreases |p.tokens|
  {
    if p.tokens != [] && p.tokens[0] == DocumentEndToken then SkipDocumentEnds(Skip(p)) else p
  }

  /** The directives in front of a document, the defaults added; none if one is wrong. */
  datatype Directives = Directives(parser: Parser, version: Option<(nat, nat)>, listed: seq<TagDirective>) | DirectivesError

  function ReadDirectives(p: Parser, version: Option<(nat, nat)>, listed: seq<TagDirective>): (r: Directives)
    ensures r.Directives? ==>
      && |r.parser.tokens| <= |p.tokens| && r.parser.tokens != []
      && r.parser == p.(tokens := r.parser.tokens, parsed := r.parser.parsed, directives := r.parser.directives)
    decreases |p.tokens|
  {
    if p.tokens == [] then DirectivesError
    else
      match p.tokens[0]
      case VersionDirectiveToken(major, minor) =>
        if version.Some? || major != 1 || minor != 1 then DirectivesError
        else ReadDirectives(Skip(p), Some((major, minor)), listed)
      case TagDirectiveToken(directive) =>
        if FindDirective(p.directives, directive.handle).Some? then DirectivesError
        else ReadDirectives(Skip(p.(directives := p.directives + [directive])), version, listed + [directive])
      case _ => Directives(p.(directives := AddDefaults(p.directives)), version, listed)
  }

  function ParseDocumentStart(p: Parser, implicit: bool): Outcome {
    var p := if implicit then p else SkipDocumentEnds(p);
    if p.tokens == [] then Failed
    else
      var token := p.tokens[0];
      if implicit && !token.VersionDirectiveToken? && !token.TagDirectiveToken?
         && token != DocumentStartToken && token != StreamEndToken then
        match ReadDirectives(p, None, []) {
          case DirectivesError => Failed
          case Directives(p', _, _) => Emit(DocumentStart(None, [], true), Push(p', DocumentEndState), BlockNodeState)
        }
      else if token != StreamEndToken then
        match ReadDirectives(p, None, []) {
          case DirectivesError => Failed
          case Directives(p', version, listed) =>
            if p'.tokens[0] != DocumentStartToken then Failed
            else Emit(DocumentStart(version, listed, false), Skip(Push(p', DocumentEndState)), DocumentContentState)
        }
      else Emit(StreamEnd, Skip(p), EndState)
  }

  function ParseDocumentContent(p: Parser): Outcome {
    if p.tokens == [] then Failed
    else
      match p.tokens[0]
      case VersionDirectiveToken(_, _) => EmitPop(EMPTY_SCALAR, p)
      case TagDirectiveToken(_) => EmitPop(EMPTY_SCALAR, p)
      case DocumentStartToken => EmitPop(EMPTY_SCALAR, p)
      case DocumentEndToken => EmitPop(EMPTY_SCALAR, p)
      case StreamEndToken => EmitPop(EMPTY_SCALAR, p)
      case _ => ParseNode(p, true, false)
  }

  function ParseDocumentEnd(p: Parser): Outcome {
    if p.tokens == [] then Failed
    else
      var explicit := p.tokens[0] == DocumentEndToken;
      var p' := if explicit then Skip(p) else p;
      Emit(DocumentEnd(!explicit), p'.(directives := []), DocumentStartState)
  }

  // ----- Nodes

  /** An anchor and a tag, in either order, and the tokens behind them. */
  datatype Properties = Properties(anchor: Option<string>, tag: Option<(string, string)>, parser: Parser)

  function ReadProperties(p: Parser): (r: Properties)
    requires p.tokens != []
    ensures |r.parser.tokens| <= |p.tokens| && r.parser == p.(tokens := r.parser.tokens, parsed := r.parser.parsed)
    ensures r.anchor.Some? || r.tag.Some? ==> |r.parser.tokens| < |p.tokens|
    ensures r.anchor.None? && r.tag.None? ==> r.parser == p
  {
    match p.tokens[0]
    case AnchorToken(name) =>
      var p' := Skip(p);
      if p'.tokens != [] && p'.tokens[0].TagToken?
      then Properties(Some(name), Some((p'.tokens[0].handle, p'.tokens[0].suffix)), Skip(p'))
      else Properties(Some(name), None, p')
    case TagToken(handle, suffix) =>
      var p' := Skip(p);
      if p'.tokens != [] && p'.tokens[0].AnchorToken?
      then Properties(Some(p'.tokens[0].name), Some((handle, suffix)), Skip(p'))
      else Properties(None, Some((handle, suffix)), p')
    case _ => Properties(None, None, p)
  }

  /** The full tag: verbatim without a handle, else the handle's prefix and the suffix. */
  function ResolveTag(directives: seq<TagDirective>, tag: (string, string)): Option<string> {
    if tag.0 == "" then Some(tag.1)
    else
      match FindDirective(directives, tag.0)
      case None => None
      case Some(prefix) => Some(prefix + tag.1)
  }

  function ParseNode(p: Parser, block: bool, indentless: bool): Outcome {
    if p.tokens == [] then Failed
    else if p.tokens[0].AliasToken? then EmitPop(AliasEvent(Some(p.tokens[0].name)), Skip(p))
    else
      var properties := ReadProperties(p);
      if properties.parser.tokens == [] then Failed
      else if properties.tag == None then ParseContent(properties.parser, properties.anchor, None, block, indentless)
      else
        match ResolveTag(p.directives, properties.tag.value)
        case None => Failed
        case Some(tag) => ParseContent(properties.parser, properties.anchor, Some(tag), block, indentless)
  }

  function ParseContent(p: Parser, anchor: Option<string>, tag: Option<string>, block: bool, indentless: bool): Outcome
    requires p.tokens != []
  {
    var implicit := tag == None || tag.value == "";
    var token := p.tokens[0];
    if indentless && token == BlockEntryToken then
      Emit(SequenceStart(anchor, tag, implicit, BLOCK_STYLE), p, IndentlessSequenceEntryState)
    else if token.ScalarToken? then
      var plainImplicit := (token.style == PLAIN_STYLE && tag == None) || tag == Some("!");
      var quotedImplicit := !plainImplicit && tag == None;
      EmitPop(ScalarEvent(anchor, tag, token.value, plainImplicit, quotedImplicit, token.style), Skip(p))
    else if token == FlowSequenceStartToken then
      Emit(SequenceStart(anchor, tag, implicit, FLOW_STYLE), p, FlowSequenceFirstEntryState)
    else if token == FlowMappingStartToken then
      Emit(MappingStart(anchor, tag, implicit, FLOW_STYLE), p, FlowMappingFirstKeyState)
    else if block && token == BlockSequenceStartToken then
      Emit(SequenceStart(anchor, tag, implicit, BLOCK_STYLE), p, BlockSequenceFirstEntryState)
    else if block && token == BlockMappingStartToken then
      Emit(MappingStart(anchor, tag, implicit, BLOCK_STYLE), p, BlockMappingFirstKeyState)
    else if anchor.Some? || tag.Some? then
      EmitPop(ScalarEvent(anchor, tag, "", implicit, false, PLAIN_STYLE), p)
    else Failed
  }

  // ----- Block collections

  /** In the first call of a collection its start token is still there: mark it and go past it. */
  function Enter(p: Parser, first: bool): (r: Parser)
    requires p.tokens != []
    ensures r.tokens == if first then p.tokens[1..] else p.tokens
  {
    if first then Skip(PushMark(p)) else p
  }

  function ParseBlockSequenceEntry(p: Parser, first: bool): Outcome {
    if p.tokens == [] then Failed
    else
      var p := Enter(p, first);
      if p.tokens == [] then Failed
      else if p.tokens[0] == BlockEntryToken then
        var p' := Skip(p);
        if p'.tokens == [] then Failed
        else if p'.tokens[0] != BlockEntryToken && p'.tokens[0] != BlockEndToken then
          ParseNode(Push(p', BlockSequenceEntryState), true, false)
        else Emit(EMPTY_SCALAR, p', BlockSequenceEntryState)
      else if p.tokens[0] == BlockEndToken then EmitPopMark(SequenceEnd, Skip(p))
      else FailPopMark(p)
  }

  function ParseIndentlessSequenceEntry(p: Parser): Outcome {
    if p.tokens == [] then Failed
    else if p.tokens[0] == BlockEntryToken then
      var p' := Skip(p);
      if p'.tokens == [] then Failed
      else if p'.tokens[0] != BlockEntryToken && p'.tokens[0] != KeyToken
              && p'.tokens[0] != ValueToken && p'.tokens[0] != BlockEndToken then
        ParseNode(Push(p', IndentlessSequenceEntryState), true, false)
      else Emit(EMPTY_SCALAR, p', IndentlessSequenceEntryState)
    else EmitPop(SequenceEnd, p)
  }

  function ParseBlockMappingKey(p: Parser, first: bool): Outcome {
    if p.tokens == [] then Failed
    else
      var p := Enter(p, first);
      if p.tokens == [] then Failed
      else if p.tokens[0] == KeyToken then
        var p' := Skip(p);
        if p'.tokens == [] then Failed
        else if p'.tokens[0] != KeyToken && p'.tokens[0] != ValueToken && p'.tokens[0] != BlockEndToken then
          ParseNode(Push(p', BlockMappingValueState), true, true)
        else Emit(EMPTY_SCALAR, p', BlockMappingValueState)
      else if p.tokens[0] == BlockEndToken then EmitPopMark(MappingEnd, Skip(p))
      else FailPopMark(p)
  }

  function ParseBlockMappingValue(p: Parser): Outcome {
    if p.tokens == [] then Failed
    else if p.tokens[0] == ValueToken then
      var p' := Skip(p);
      if p'.tokens == [] then Failed
      else if p'.tokens[0] != KeyToken && p'.tokens[0] != ValueToken && p'.tokens[0] != BlockEndToken then
        ParseNode(Push(p', BlockMappingKeyState), true, true)
      else Emit(EMPTY_SCALAR, p', BlockMappingKeyState)
    else Emit(EMPTY_SCALAR, p, BlockMappingKeyState)
  }

  // ----- Flow collections

  function ParseFlowSequenceEntry(p: Parser, first: bool): Outcome {
    if p.tokens == [] then Failed
    else
      var p := Enter(p, first);
      if p.tokens == [] then Failed
      else if p.tokens[0] == FlowSequenceEndToken then EmitPopMark(SequenceEnd, Skip(p))
      else if !first && p.tokens[0] != FlowEntryToken then FailPopMark(p)
      else
        var p' := if first then p else Skip(p);
        if p'.tokens == [] then Failed
        else if p'.tokens[0] == KeyToken then
          Emit(MappingStart(None, None, true, FLOW_STYLE), Skip(p'), FlowSequenceEntryMappingKeyState)
        else if p'.tokens[0] != FlowSequenceEndToken then
          ParseNode(Push(p', FlowSequenceEntryState), false, false)
        else EmitPopMark(SequenceEnd, Skip(p'))
  }

  /** With no key, the token that shows it is skipped as well. */
  function ParseFlowSequenceEntryMappingKey(p: Parser): Outcome {
    if p.tokens == [] then Failed
    else if p.tokens[0] != ValueToken && p.tokens[0] != FlowEntryToken && p.tokens[0] != FlowSequenceEndToken then
      ParseNode(Push(p, FlowSequenceEntryMappingValueState), false, false)
    else Emit(EMPTY_SCALAR, Skip(p), FlowSequenceEntryMappingValueState)
  }

  function ParseFlowSequenceEntryMappingValue(p: Parser): Outcome {
    if p.tokens == [] then Failed
    else if p.tokens[0] == ValueToken then
      var p' := Skip(p);
      if p'.tokens == [] then Failed
      else if p'.tokens[0] != FlowEntryToken && p'.tokens[0] != FlowSequenceEndToken then
        ParseNode(Push(p', FlowSequenceEntryMappingEndState), false, false)
      else Emit(EMPTY_SCALAR, p', FlowSequenceEntryMappingEndState)
    else Emit(EMPTY_SCALAR, p, FlowSequenceEntryMappingEndState)
  }

  function ParseFlowSequenceEntryMappingEnd(p: Parser): Outcome {
    if p.tokens == [] then Failed else Emit(MappingEnd, p, FlowSequenceEntryState)
  }

  function ParseFlowMappingKey(p: Parser, first: bool): Outcome {
    if p.tokens == [] then Failed
    else
      var p := Enter(p, first);
      if p.tokens == [] then Failed
      else if p.tokens[0] == FlowMappingEndToken then EmitPopMark(MappingEnd, Skip(p))
      else if !first && p.tokens[0] != FlowEntryToken then FailPopMark(p)
      else
        var p' := if first then p else Skip(p);
        if p'.tokens == [] then Failed
        else if p'.tokens[0] == KeyToken then
          var p'' := Skip(p');
          if p''.tokens == [] then Failed
          else if p''.tokens[0] != ValueToken && p''.tokens[0] != FlowEntryToken && p''.tokens[0] != FlowMappingEndToken then
            ParseNode(Push(p'', FlowMappingValueState), false, false)
          else Emit(EMPTY_SCALAR, p'', FlowMappingValueState)
        else if p'.tokens[0] != FlowMappingEndToken then
          ParseNode(Push(p', FlowMappingEmptyValueState), false, false)
        else EmitPopMark(MappingEnd, Skip(p'))
  }

  function ParseFlowMappingValue(p: Parser, empty: bool): Outcome {
    if p.tokens == [] then Failed
    else if empty then Emit(EMPTY_SCALAR, p, FlowMappingKeyState)
    else if p.tokens[0] == ValueToken then
      var p' := Skip(p);
      if p'.tokens == [] then Failed
      else if p'.tokens[0] != FlowEntryToken && p'.tokens[0] != FlowMappingEndToken then
        ParseNode(Push(p', FlowMappingKeyState), false, false)
      else Emit(EMPTY_SCALAR, p', FlowMappingKeyState)
    else Emit(EMPTY_SCALAR, p, FlowMappingKeyState)
  }

  /** The dispatcher. In the end state there are no events any more. */
  function Step(p: Parser): Outcome
    requires p.state != EndState
  {
    match p.state
    case StreamStartState => ParseStreamStart(p)
    case ImplicitDocumentStartState => ParseDocumentStart(p, true)
    case DocumentStartState => ParseDocumentStart(p, false)
    case DocumentContentState => ParseDocumentContent(p)
    case DocumentEndState => ParseDocumentEnd(p)
    case BlockNodeState => ParseNode(p, true, false)
    case BlockNodeOrIndentlessSequenceState => ParseNode(p, true, true)
    case FlowNodeState => ParseNode(p, false, false)
    case BlockSequenceFirstEntryState => ParseBlockSequenceEntry(p, true)
    case BlockSequenceEntryState => ParseBlockSequenceEntry(p, false)
    case IndentlessSequenceEntryState => ParseIndentlessSequenceEntry(p)
    case BlockMappingFirstKeyState => ParseBlockMappingKey(p, true)
    case BlockMappingKeyState => ParseBlockMappingKey(p, false)
    case BlockMappingValueState => ParseBlockMappingValue(p)
    case FlowSequenceFirstEntryState => ParseFlowSequenceEntry(p, true)
    case FlowSequenceEntryState => ParseFlowSequenceEntry(p, false)
    case FlowSequenceEntryMappingKeyState => ParseFlowSequenceEntryMappingKey(p)
    case FlowSequenceEntryMappingValueState => ParseFlowSequenceEntryMappingValue(p)
    case FlowSequenceEntryMappingEndState => ParseFlowSequenceEntryMappingEnd(p)
    case FlowMappingFirstKeyState => ParseFlowMappingKey(p, true)
    case FlowMappingKeyState => ParseFlowMappingKey(p, false)
    case FlowMappingValueState => ParseFlowMappingValue(p, false)
    case FlowMappingEmptyValueState => ParseFlowMappingValue(p, true)
  }
}
