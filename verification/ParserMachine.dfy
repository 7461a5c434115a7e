/**
  The parser at work: one method for each state function of parser.c, which takes tokens from
  the queue, pushes and pops the stacks of states and marks, and fills in an event. Each method
  is proved to do what the function of the same name says.
 */
module ParserMachine {
  import opened Options
  import opened Events
  import opened Parsing

  /** A call filled in an event, or failed, or popped an empty stack. */
  datatype Result = Event(event: Event) | Error | Underflown

  class Machine {
    var state: State
    var states: seq<State>
    var marks: seq<int>
    var directives: seq<TagDirective>
    var tokens: seq<Token>  // those the scanner will still deliver
    var parsed: int

    constructor (tokens: seq<Token>)
      ensures Value() == Start(tokens)
    {
      state, states, marks, directives := StreamStartState, [], [], [];
      this.tokens, parsed := tokens, 0;
    }

    ghost function Value(): Parser
      reads this
    {
      Parser(state, states, marks, directives, tokens, parsed)
    }

    ghost predicate Does(outcome: Outcome, r: Result)
      reads this
    {
      match outcome
      case Emitted(event, p) => r == Event(event) && Value() == p
      case Failed => r == Error
      case Underflow => r == Underflown
    }

    method SkipToken()
      requires tokens != []
      modifies this`tokens, this`parsed
      ensures Value() == Skip(old(Value()))
    {
      tokens, parsed := tokens[1..], parsed + 1;
    }

    method PushState(s: State)
      modifies this`states
      ensures Value() == Push(old(Value()), s)
    {
      states := states + [s];
    }

    method PushMarkHere()
      modifies this`marks
      ensures Value() == PushMark(old(Value()))
    {
      marks := marks + [parsed];
    }

    /** Fills in an event and pops the next state. */
    method Finish(event: Event) returns (r: Result)
      modifies this`state, this`states
      ensures Does(EmitPop(event, old(Value())), r)
    {
      if states == [] {
        return Underflown;
      }
      state, states := states[|states| - 1], states[..|states| - 1];
      return Event(event);
    }

    method FinishMarked(event: Event) returns (r: Result)
      modifies this`state, this`states, this`marks
      ensures Does(EmitPopMark(event, old(Value())), r)
    {
      if marks == [] {
        return Underflown;
      }
      marks := marks[..|marks| - 1];
      r := Finish(event);
    }

    method FailMarked() returns (r: Result)
      modifies this`marks
      ensures Does(FailPopMark(old(Value())), r)
    {
      if marks == [] {
        return Underflown;
      }
      marks := marks[..|marks| - 1];
      return Error;
    }

    method ParseStreamStart() returns (r: Result)
      modifies this
      ensures Does(Parsing.ParseStreamStart(old(Value())), r)
    {
      if tokens == [] || tokens[0] != StreamStartToken {
        return Error;
      }
      state := ImplicitDocumentStartState;
      SkipToken();
      return Event(StreamStart);
    }

    /** Whether a handle is already known. */
    method IsKnown(handle: string) returns (known: bool)
      ensures known == FindDirective(directives, handle).Some?
    {
      var k := 0;
      while k < |directives|
        invariant 0 <= k <= |directives|
        invariant FindDirective(directives, handle) == FindDirective(directives[k..], handle)
      {
        assert directives[k..][1..] == directives[k + 1..];
        if directives[k].handle == handle {
          return true;
        }
        k := k + 1;
      }
      return false;
    }

    /** Adds a default directive unless its handle is known. */
    method AppendDefault(directive: TagDirective)
      modifies this`directives
      ensures Value() == old(Value()).(directives := AddDefault(old(directives), directive))
    {
      var known := IsKnown(directive.handle);
      if !known {
        directives := directives + [directive];
      }
    }

    /** The result of reading directives, none if one is wrong. */
    method ProcessDirectives() returns (ok: bool, version: Option<(nat, nat)>, listed: seq<TagDirective>)
      modifies this`tokens, this`parsed, this`directives
      ensures match ReadDirectives(old(Value()), None, [])
        case DirectivesError => !ok
        case Directives(p, v, l) => ok && Value() == p && version == v && listed == l
    {
      version, listed := None, [];
      ghost var p := Value();
      while tokens != [] && (tokens[0].VersionDirectiveToken? || tokens[0].TagDirectiveToken?)
        invariant ReadDirectives(p, None, []) == ReadDirectives(Value(), version, listed)
        invariant unchanged(`state) && unchanged(`states) && unchanged(`marks)
        decreases |tokens|
      {
        match tokens[0] {
          case VersionDirectiveToken(major, minor) =>
            if version.Some? || major != 1 || minor != 1 {
              return false, version, listed;
            }
            version := Some((major, minor));
          case TagDirectiveToken(directive) =>
            var known := IsKnown(directive.handle);
            if known {
              return false, version, listed;
            }
            directives := directives + [directive];
            listed := listed + [directive];
        }
        SkipToken();
      }
      if tokens == [] {
        return false, version, listed;
      }
      AppendDefault(TagDirective("!", "!"));
      AppendDefault(TagDirective("!!", "tag:yaml.org,2002:"));
      return true, version, listed;
    }

    /** Parses extra document end indicators. */
    method SkipEnds()
      modifies this`tokens, this`parsed
      ensures Value() == SkipDocumentEnds(old(Value()))
    {
      ghost var p := Value();
      while tokens != [] && tokens[0] == DocumentEndToken
        invariant SkipDocumentEnds(p) == SkipDocumentEnds(Value())
        decreases |tokens|
      {
        SkipToken();
      }
    }

    method ParseDocumentStart(implicit: bool) returns (r: Result)
      modifies this
      ensures Does(Parsing.ParseDocumentStart(old(Value()), implicit), r)
    {
      hide ReadDirectives, SkipDocumentEnds;
      if !implicit {
        SkipEnds();
      }
      if tokens == [] {
        return Error;
      }
      var token := tokens[0];
      if implicit && !token.VersionDirectiveToken? && !token.TagDirectiveToken?
         && token != DocumentStartToken && token != StreamEndToken {
        var ok, _, _ := ProcessDirectives();
        if !ok {
          return Error;
        }
        PushState(DocumentEndState);
        state := BlockNodeState;
        return Event(DocumentStart(None, [], true));
      } else if token != StreamEndToken {
        var ok, version, listed := ProcessDirectives();
        if !ok || tokens[0] != DocumentStartToken {
          return Error;
        }
        PushState(DocumentEndState);
        state := DocumentContentState;
        SkipToken();
        return Event(DocumentStart(version, listed, false));
      } else {
        state := EndState;
        SkipToken();
        return Event(StreamEnd);
      }
    }

    method ParseDocumentContent() returns (r: Result)
      modifies this
      ensures Does(Parsing.ParseDocumentContent(old(Value())), r)
    {
      if tokens == [] {
        return Error;
      }
      var token := tokens[0];
      if token.VersionDirectiveToken? || token.TagDirectiveToken? || token == DocumentStartToken
         || token == DocumentEndToken || token == StreamEndToken {
        r := Finish(EMPTY_SCALAR);
      } else {
        r := ParseNode(true, false);
      }
    }

    method ParseDocumentEnd() returns (r: Result)
      modifies this
      ensures Does(Parsing.ParseDocumentEnd(old(Value())), r)
    {
      if tokens == [] {
        return Error;
      }
      var implicit := true;
      if tokens[0] == DocumentEndToken {
        SkipToken();
        implicit := false;
      }
      directives := [];
      state := DocumentStartState;
      return Event(DocumentEnd(implicit));
    }

    /** Takes an anchor and a tag from the tokens, in either order. */
    method TakeProperties() returns (anchor: Option<string>, tag: Option<(string, string)>)
      requires tokens != []
      modifies this`tokens, this`parsed
      ensures ReadProperties(old(Value())) == Properties(anchor, tag, Value())
    {
      anchor, tag := None, None;
      if tokens[0].AnchorToken? {
        anchor := Some(tokens[0].name);
        SkipToken();
        if tokens != [] && tokens[0].TagToken? {
          tag := Some((tokens[0].handle, tokens[0].suffix));
          SkipToken();
        }
      } else if tokens[0].TagToken? {
        tag := Some((tokens[0].handle, tokens[0].suffix));
        SkipToken();
        if tokens != [] && tokens[0].AnchorToken? {
          anchor := Some(tokens[0].name);
          SkipToken();
        }
      }
    }

    /** The full tag, none if its handle is unknown. */
    method Resolve(tag: (string, string)) returns (full: Option<string>)
      ensures full == ResolveTag(directives, tag)
    {
      if tag.0 == "" {
        return Some(tag.1);
      }
      var k := 0;
      while k < |directives|
        invariant 0 <= k <= |directives|
        invariant FindDirective(directives, tag.0) == FindDirective(directives[k..], tag.0)
      {
        assert directives[k..][1..] == directives[k + 1..];
        if directives[k].handle == tag.0 {
          return Some(directives[k].prefix + tag.1);
        }
        k := k + 1;
      }
      return None;
    }

    method ParseNode(block: bool, indentless: bool) returns (r: Result)
      modifies this
      ensures Does(Parsing.ParseNode(old(Value()), block, indentless), r)
    {
      hide Parsing.ParseContent;
      if tokens == [] {
        return Error;
      }
      if tokens[0].AliasToken? {
        var name := tokens[0].name;
        SkipToken();
        r := Finish(AliasEvent(Some(name)));
        return;
      }
      var anchor, property := TakeProperties();
      if tokens == [] {
        return Error;
      }
      var tag := None;
      if property.Some? {
        tag := Resolve(property.value);
        if tag == None {
          return Error;
        }
      }
      r := ParseContent(anchor, tag, block, indentless);
    }

    method ParseContent(anchor: Option<string>, tag: Option<string>, block: bool, indentless: bool) returns (r: Result)
      requires tokens != []
      modifies this
      ensures Does(Parsing.ParseContent(old(Value()), anchor, tag, block, indentless), r)
    {
      var implicit := tag == None || tag.value == "";
      var token := tokens[0];
      if indentless && token == BlockEntryToken {
        state := IndentlessSequenceEntryState;
        return Event(SequenceStart(anchor, tag, implicit, BLOCK_STYLE));
      }
      if token.ScalarToken? {
        var plainImplicit, quotedImplicit := false, false;
        SkipToken();
        if (token.style == PLAIN_STYLE && tag == None) || tag == Some("!") {
          plainImplicit := true;
        } else if tag == None {
          quotedImplicit := true;
        }
        r := Finish(ScalarEvent(anchor, tag, token.value, plainImplicit, quotedImplicit, token.style));
      } else if token == FlowSequenceStartToken {
        state := FlowSequenceFirstEntryState;
        return Event(SequenceStart(anchor, tag, implicit, FLOW_STYLE));
      } else if token == FlowMappingStartToken {
        state := FlowMappingFirstKeyState;
        return Event(MappingStart(anchor, tag, implicit, FLOW_STYLE));
      } else if block && token == BlockSequenceStartToken {
        state := BlockSequenceFirstEntryState;
        return Event(SequenceStart(anchor, tag, implicit, BLOCK_STYLE));
      } else if block && token == BlockMappingStartToken {
        state := BlockMappingFirstKeyState;
        return Event(MappingStart(anchor, tag, implicit, BLOCK_STYLE));
      } else if anchor.Some? || tag.Some? {
        r := Finish(ScalarEvent(anchor, tag, "", implicit, false, PLAIN_STYLE));
      } else {
        return Error;
      }
    }

    method ParseBlockSequenceEntry(first: bool) returns (r: Result)
      modifies this
      ensures Does(Parsing.ParseBlockSequenceEntry(old(Value()), first), r)
    {
      hide Parsing.ParseNode;
      if tokens == [] {
        return Error;
      }
      if first {
        PushMarkHere();
        SkipToken();
      }
      if tokens == [] {
        return Error;
      }
      if tokens[0] == BlockEntryToken {
        SkipToken();
        if tokens == [] {
          return Error;
        }
        if tokens[0] != BlockEntryToken && tokens[0] != BlockEndToken {
          PushState(BlockSequenceEntryState);
          r := ParseNode(true, false);
        } else {
          state := BlockSequenceEntryState;
          return Event(EMPTY_SCALAR);
        }
      } else if tokens[0] == BlockEndToken {
        SkipToken();
        r := FinishMarked(SequenceEnd);
      } else {
        r := FailMarked();
      }
    }

    method ParseIndentlessSequenceEntry() returns (r: Result)
      modifies this
      ensures Does(Parsing.ParseIndentlessSequenceEntry(old(Value())), r)
    {
      hide Parsing.ParseNode;
      if tokens == [] {
        return Error;
      }
      if tokens[0] == BlockEntryToken {
        SkipToken();
        if tokens == [] {
          return Error;
        }
        if tokens[0] != BlockEntryToken && tokens[0] != KeyToken && tokens[0] != ValueToken && tokens[0] != BlockEndToken {
          PushState(IndentlessSequenceEntryState);
          r := ParseNode(true, false);
        } else {
          state := IndentlessSequenceEntryState;
          return Event(EMPTY_SCALAR);
        }
      } else {
        r := Finish(SequenceEnd);
      }
    }

    method ParseBlockMappingKey(first: bool) returns (r: Result)
      modifies this
      ensures Does(Parsing.ParseBlockMappingKey(old(Value()), first), r)
    {
      hide Parsing.ParseNode;
      if tokens == [] {
        return Error;
      }
      if first {
        PushMarkHere();
        SkipToken();
      }
      if tokens == [] {
        return Error;
      }
      if tokens[0] == KeyToken {
        SkipToken();
        if tokens == [] {
          return Error;
        }
        if tokens[0] != KeyToken && tokens[0] != ValueToken && tokens[0] != BlockEndToken {
          PushState(BlockMappingValueState);
          r := ParseNode(true, true);
        } else {
          state := BlockMappingValueState;
          return Event(EMPTY_SCALAR);
        }
      } else if tokens[0] == BlockEndToken {
        SkipToken();
        r := FinishMarked(MappingEnd);
      } else {
        r := FailMarked();
      }
    }

    method ParseBlockMappingValue() returns (r: Result)
      modifies this
      ensures Does(Parsing.ParseBlockMappingValue(old(Value())), r)
    {
      hide Parsing.ParseNode;
      if tokens == [] {
        return Error;
      }
      if tokens[0] == ValueToken {
        SkipToken();
        if tokens == [] {
          return Error;
        }
        if tokens[0] != KeyToken && tokens[0] != ValueToken && tokens[0] != BlockEndToken {
          PushState(BlockMappingKeyState);
          r := ParseNode(true, true);
          return;
        }
      }
      state := BlockMappingKeyState;
      return Event(EMPTY_SCALAR);
    }

    method ParseFlowSequenceEntry(first: bool) returns (r: Result)
      modifies this
      ensures Does(Parsing.ParseFlowSequenceEntry(old(Value()), first), r)
    {
      hide Parsing.ParseNode;
      if tokens == [] {
        return Error;
      }
      if first {
        PushMarkHere();
        SkipToken();
      }
      if tokens == [] {
        return Error;
      }
      if tokens[0] != FlowSequenceEndToken {
        if !first {
          if tokens[0] != FlowEntryToken {
            r := FailMarked();
            return;
          }
          SkipToken();
          if tokens == [] {
            return Error;
          }
        }
        if tokens[0] == KeyToken {
          state := FlowSequenceEntryMappingKeyState;
          SkipToken();
          return Event(MappingStart(None, None, true, FLOW_STYLE));
        }
        if tokens[0] != FlowSequenceEndToken {
          PushState(FlowSequenceEntryState);
          r := ParseNode(false, false);
          return;
        }
      }
      SkipToken();
      r := FinishMarked(SequenceEnd);
    }

    method ParseFlowSequenceEntryMappingKey() returns (r: Result)
      modifies this
      ensures Does(Parsing.ParseFlowSequenceEntryMappingKey(old(Value())), r)
    {
      hide Parsing.ParseNode;
      if tokens == [] {
        return Error;
      }
      if tokens[0] != ValueToken && tokens[0] != FlowEntryToken && tokens[0] != FlowSequenceEndToken {
        PushState(FlowSequenceEntryMappingValueState);
        r := ParseNode(false, false);
      } else {
        SkipToken();
        state := FlowSequenceEntryMappingValueState;
        return Event(EMPTY_SCALAR);
      }
    }

    method ParseFlowSequenceEntryMappingValue() returns (r: Result)
      modifies this
      ensures Does(Parsing.ParseFlowSequenceEntryMappingValue(old(Value())), r)
    {
      hide Parsing.ParseNode;
      if tokens == [] {
        return Error;
      }
      if tokens[0] == ValueToken {
        SkipToken();
        if tokens == [] {
          return Error;
        }
        if tokens[0] != FlowEntryToken && tokens[0] != FlowSequenceEndToken {
          PushState(FlowSequenceEntryMappingEndState);
          r := ParseNode(false, false);
          return;
        }
      }
      state := FlowSequenceEntryMappingEndState;
      return Event(EMPTY_SCALAR);
    }

    method ParseFlowSequenceEntryMappingEnd() returns (r: Result)
      modifies this
      ensures Does(Parsing.ParseFlowSequenceEntryMappingEnd(old(Value())), r)
    {
      if tokens == [] {
        return Error;
      }
      state := FlowSequenceEntryState;
      return Event(MappingEnd);
    }

    method ParseFlowMappingKey(first: bool) returns (r: Result)
      modifies this
      ensures Does(Parsing.ParseFlowMappingKey(old(Value()), first), r)
    {
      hide Parsing.ParseNode;
      if tokens == [] {
        return Error;
      }
      if first {
        PushMarkHere();
        SkipToken();
      }
      if tokens == [] {
        return Error;
      }
      if tokens[0] != FlowMappingEndToken {
        if !first {
          if tokens[0] != FlowEntryToken {
            r := FailMarked();
            return;
          }
          SkipToken();
          if tokens == [] {
            return Error;
          }
        }
        if tokens[0] == KeyToken {
          SkipToken();
          if tokens == [] {
            return Error;
          }
          if tokens[0] != ValueToken && tokens[0] != FlowEntryToken && tokens[0] != FlowMappingEndToken {
            PushState(FlowMappingValueState);
            r := ParseNode(false, false);
          } else {
            state := FlowMappingValueState;
            r := Event(EMPTY_SCALAR);
          }
          return;
        }
        if tokens[0] != FlowMappingEndToken {
          PushState(FlowMappingEmptyValueState);
          r := ParseNode(false, false);
          return;
        }
      }
      SkipToken();
      r := FinishMarked(MappingEnd);
    }

    method ParseFlowMappingValue(empty: bool) returns (r: Result)
      modifies this
      ensures Does(Parsing.ParseFlowMappingValue(old(Value()), empty), r)
    {
      hide Parsing.ParseNode;
      if tokens == [] {
        return Error;
      }
      if empty {
        state := FlowMappingKeyState;
        return Event(EMPTY_SCALAR);
      }
      if tokens[0] == ValueToken {
        SkipToken();
        if tokens == [] {
          return Error;
        }
        if tokens[0] != FlowEntryToken && tokens[0] != FlowMappingEndToken {
          PushState(FlowMappingKeyState);
          r := ParseNode(false, false);
          return;
        }
      }
      state := FlowMappingKeyState;
      return Event(EMPTY_SCALAR);
    }

    /** The dispatcher on the current state. */
    method Step() returns (r: Result)
      requires state != EndState
      modifies this
      ensures Does(Parsing.Step(old(Value())), r)
    {
      hide Parsing.ParseNode, Parsing.ParseStreamStart, Parsing.ParseDocumentStart, Parsing.ParseDocumentContent,
           Parsing.ParseDocumentEnd, Parsing.ParseBlockSequenceEntry, Parsing.ParseIndentlessSequenceEntry,
           Parsing.ParseBlockMappingKey, Parsing.ParseBlockMappingValue, Parsing.ParseFlowSequenceEntry,
           Parsing.ParseFlowSequenceEntryMappingKey, Parsing.ParseFlowSequenceEntryMappingValue,
           Parsing.ParseFlowSequenceEntryMappingEnd, Parsing.ParseFlowMappingKey, Parsing.ParseFlowMappingValue;
      match state
      case StreamStartState => r := ParseStreamStart();
      case ImplicitDocumentStartState => r := ParseDocumentStart(true);
      case DocumentStartState => r := ParseDocumentStart(false);
      case DocumentContentState => r := ParseDocumentContent();
      case DocumentEndState => r := ParseDocumentEnd();
      case BlockNodeState => r := ParseNode(true, false);
      case BlockNodeOrIndentlessSequenceState => r := ParseNode(true, true);
      case FlowNodeState => r := ParseNode(false, false);
      case BlockSequenceFirstEntryState => r := ParseBlockSequenceEntry(true);
      case BlockSequenceEntryState => r := ParseBlockSequenceEntry(false);
      case IndentlessSequenceEntryState => r := ParseIndentlessSequenceEntry();
      case BlockMappingFirstKeyState => r := ParseBlockMappingKey(true);
      case BlockMappingKeyState => r := ParseBlockMappingKey(false);
      case BlockMappingValueState => r := ParseBlockMappingValue();
      case FlowSequenceFirstEntryState => r := ParseFlowSequenceEntry(true);
      case FlowSequenceEntryState => r := ParseFlowSequenceEntry(false);
      case FlowSequenceEntryMappingKeyState => r := ParseFlowSequenceEntryMappingKey();
      case FlowSequenceEntryMappingValueState => r := ParseFlowSequenceEntryMappingValue();
      case FlowSequenceEntryMappingEndState => r := ParseFlowSequenceEntryMappingEnd();
      case FlowMappingFirstKeyState => r := ParseFlowMappingKey(true);
      case FlowMappingKeyState => r := ParseFlowMappingKey(false);
      case FlowMappingValueState => r := ParseFlowMappingValue(false);
      case FlowMappingEmptyValueState => r := ParseFlowMappingValue(true);
    }
  }
}
