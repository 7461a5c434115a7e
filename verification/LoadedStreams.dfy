/**
  Loading what the parser produces: the composer's assertions about event types hold on every
  run, and every document it delivers is closed under its references.
 */
module LoadedStreams {
  import opened Options
  import opened Events
  import opened EventGrammar
  import opened Documents
  import opened Loading
  import Parsing
  import ParserRuns

  /** What loading documents one after another gives, up to the end or the first error. */
  datatype Load = Load(documents: seq<Document>, end: LoadEnd)

  datatype LoadEnd = AtStreamEnd | AtError | AtAbort

  function LoadDocuments(events: seq<Event>): Load
    decreases |events|
  {
    if events == [] then Load([], AtError)
    else if events[0] == StreamEnd then Load([], AtStreamEnd)
    else if !events[0].DocumentStart? then Load([], AtAbort)
    else
      match LoadDocument(events[1..])
      case Loaded(_, c, rest) => var more := LoadDocuments(rest); Load([c.nodes] + more.documents, more.end)
      case Failed => Load([], AtError)
      case Aborted => Load([], AtAbort)
  }

  function LoadStream(events: seq<Event>): Load {
    if events == [] then Load([], AtError)
    else if events[0] != StreamStart then Load([], AtAbort)
    else LoadDocuments(events[1..])
  }

  // ----- The event types

  predicate Accepted(frames: seq<Frame>, events: seq<Event>) {
    AcceptAll(Open(frames), events).Some?
  }

  /** A part of a document is passed: it is not an abort, and what is left goes on from `frames`. */
  predicate Passes(outcome: Outcome, frames: seq<Frame>, all: Option<Grammar>) {
    && outcome != Aborted
    && (outcome.Loaded? ==> AcceptAll(Open(frames), outcome.rest) == all)
  }

  predicate TakesNode(frames: seq<Frame>) {
    frames != [] && AfterNode(Top(frames)).Some?
  }

  function WithNode(frames: seq<Frame>): seq<Frame>
    requires TakesNode(frames)
  {
    Below(frames) + [AfterNode(Top(frames)).value]
  }

  lemma OneEvent(frames: seq<Frame>, events: seq<Event>)
    requires events != [] && Accepted(frames, events)
    ensures Accept(Open(frames), events[0]).Some?
    ensures AcceptAll(Open(frames), events) == AcceptAll(Accept(Open(frames), events[0]).value, events[1..])
  {
  }

  /** The next event is not the end of the collection on top. */
  predicate GoesOn(frames: seq<Frame>, events: seq<Event>)
    requires frames != []
  {
    && (events != [] && events[0] == SequenceEnd ==> Top(frames) != SequenceFrame)
    && (events != [] && events[0] == MappingEnd ==> Top(frames) != MappingFrame(false))
  }

  lemma {:induction false} NodePasses(frames: seq<Frame>, events: seq<Event>, c: Composed)
    requires TakesNode(frames) && Accepted(frames, events) && GoesOn(frames, events)
    ensures Passes(LoadNode(events, c), WithNode(frames), AcceptAll(Open(frames), events))
    decreases |events|, 0
  {
    hide AcceptAll;
    if events != [] {
      OneEvent(frames, events);
      var after := WithNode(frames);
      match events[0] {
        case SequenceStart(anchor, tag, _, style) =>
          var c' := Push(c, SequenceNode(LoadedTag(tag, SEQUENCE_TAG), [], style), anchor);
          assert Below(frames) + [AfterNode(Top(frames)).value, SequenceFrame] == after + [SequenceFrame];
          if c'.Some? { ItemsPass(after, events[1..], c'.value, |c.nodes| + 1); }
        case MappingStart(anchor, tag, _, style) =>
          var c' := Push(c, MappingNode(LoadedTag(tag, MAPPING_TAG), [], style), anchor);
          assert Below(frames) + [AfterNode(Top(frames)).value, MappingFrame(false)] == after + [MappingFrame(false)];
          if c'.Some? { PairsPass(after, events[1..], c'.value, |c.nodes| + 1); }
        case _ =>
      }
    }
  }

  lemma {:induction false} ItemsPass(frames: seq<Frame>, events: seq<Event>, c: Composed, index: nat)
    requires 1 <= index <= |c.nodes| && c.nodes[index - 1].SequenceNode?
    requires Accepted(frames + [SequenceFrame], events)
    ensures Passes(LoadItems(events, c, index), frames, AcceptAll(Open(frames + [SequenceFrame]), events))
    decreases |events|, 1
  {
    hide AcceptAll, LoadNode;
    if events != [] {
      var inside := frames + [SequenceFrame];
      OneEvent(inside, events);
      assert Below(inside) == frames;
      if events[0] != SequenceEnd {
        NodePasses(inside, events, c);
        assert WithNode(inside) == inside;
        var outcome := LoadNode(events, c);
        if outcome.Loaded? {
          ItemsPass(frames, outcome.rest, AppendItem(outcome.composed, index, outcome.index), index);
        }
      }
    }
  }

  lemma {:induction false} PairsPass(frames: seq<Frame>, events: seq<Event>, c: Composed, index: nat)
    requires 1 <= index <= |c.nodes| && c.nodes[index - 1].MappingNode?
    requires Accepted(frames + [MappingFrame(false)], events)
    ensures Passes(LoadPairs(events, c, index), frames, AcceptAll(Open(frames + [MappingFrame(false)]), events))
    decreases |events|, 1
  {
    hide AcceptAll, LoadNode;
    if events != [] {
      var atKey, atValue := frames + [MappingFrame(false)], frames + [MappingFrame(true)];
      OneEvent(atKey, events);
      assert Below(atKey) == frames && Below(atValue) == frames;
      if events[0] != MappingEnd {
        NodePasses(atKey, events, c);
        assert WithNode(atKey) == atValue && WithNode(atValue) == atKey;
        var key := LoadNode(events, c);
        if key.Loaded? {
          NodePasses(atValue, key.rest, key.composed);
          var value := LoadNode(key.rest, key.composed);
          if value.Loaded? {
            PairsPass(frames, value.rest, AppendPair(value.composed, index, (key.index, value.index)), index);
          }
        }
      }
    }
  }

  lemma DocumentPasses(events: seq<Event>)
    requires Accepted([StreamFrame, DocumentFrame(true)], events)
    ensures Passes(LoadDocument(events), [StreamFrame], AcceptAll(Open([StreamFrame, DocumentFrame(true)]), events))
  {
    hide AcceptAll, LoadNode;
    var frames := [StreamFrame, DocumentFrame(true)];
    NodePasses(frames, events, Composed([], []));
    assert WithNode(frames) == [StreamFrame, DocumentFrame(false)];
    var outcome := LoadNode(events, Composed([], []));
    if outcome.Loaded? && outcome.rest != [] {
      OneEvent(WithNode(frames), outcome.rest);
      assert Below(WithNode(frames)) == [StreamFrame];
    }
  }


  lemma {:induction false} DocumentsPass(events: seq<Event>)
    requires Accepted([StreamFrame], events)
    ensures LoadDocuments(events).end != AtAbort
    ensures LoadDocuments(events).end == AtStreamEnd ==> AcceptAll(Open([StreamFrame]), events) == Some(Ended)
    decreases |events|
  {
    hide AcceptAll, LoadDocument;
    if events != [] {
      OneEvent([StreamFrame], events);
      if events[0] == StreamEnd {
        EndedTakesNothing(events[1..]);
      } else {
        assert [StreamFrame] + [DocumentFrame(true)] == [StreamFrame, DocumentFrame(true)];
        DocumentPasses(events[1..]);
        var outcome := LoadDocument(events[1..]);
        if outcome.Loaded? {
          DocumentsPass(outcome.rest);
        }
      }
    }
  }

  lemma EndedTakesNothing(events: seq<Event>)
    requires AcceptAll(Ended, events).Some?
    ensures events == [] && AcceptAll(Ended, events) == Some(Ended)
  {
  }

  /** On a word of the grammar, whole or not, no assertion of the composer fails. */
  lemma LoadingNeverAborts(events: seq<Event>)
    requires AcceptAll(NotStarted, events).Some?
    ensures LoadStream(events).end != AtAbort
    ensures LoadStream(events).end == AtStreamEnd ==> AcceptAll(NotStarted, events) == Some(Ended)
  {
    hide LoadDocuments;
    if events != [] {
      DocumentsPass(events[1..]);
    }
  }

  /** Whatever the tokens, no assertion of the composer fails on what the parser makes of them. */
  lemma ParsedStreamsLoadWithoutAbort(tokens: seq<Parsing.Token>)
    ensures ParserRuns.Inv(Parsing.Start(tokens))
    ensures LoadStream(ParserRuns.RunAll(Parsing.Start(tokens)).events).end != AtAbort
  {
    hide ParserRuns.RunAll, LoadStream;
    ParserRuns.EveryRunIsWellFormed(tokens);
    LoadingNeverAborts(ParserRuns.RunAll(Parsing.Start(tokens)).events);
  }

  // ----- The references

  predicate AliasesBound(c: Composed) {
    forall k :: 0 <= k < |c.aliases| ==> IsIndex(c.nodes, c.aliases[k].index)
  }

  /** Everything that refers to a node refers to one that is there. */
  predicate Bound(c: Composed) {
    WellFormed(c.nodes) && AliasesBound(c)
  }

  predicate Binds(outcome: Outcome, c: Composed) {
    outcome.Loaded? ==>
      Bound(outcome.composed) && IsIndex(outcome.composed.nodes, outcome.index) && |outcome.composed.nodes| >= |c.nodes|
  }

  lemma FoundAliasIsBound(c: Composed, anchor: string)
    requires AliasesBound(c) && FindAlias(c.aliases, anchor).Some?
    ensures IsIndex(c.nodes, FindAlias(c.aliases, anchor).value)
    decreases |c.aliases|
  {
    if c.aliases[0].anchor != anchor {
      FoundAliasIsBound(c.(aliases := c.aliases[1..]), anchor);
    }
  }

  lemma PushBinds(c: Composed, node: Node, anchor: Option<string>)
    requires Bound(c) && Children(node) == []
    ensures var r := Push(c, node, anchor); r.Some? ==> Bound(r.value) && r.value.nodes == c.nodes + [node]
  {
    var r := Push(c, node, anchor);
    if r.Some? {
      forall k | 0 <= k < |r.value.nodes| ensures AllIndices(r.value.nodes, Children(r.value.nodes[k])) {
        if k < |c.nodes| { assert AllIndices(c.nodes, Children(c.nodes[k])); }
      }
    }
  }

  lemma FlattenAppend(pairs: seq<(nat, nat)>, pair: (nat, nat))
    ensures Flatten(pairs + [pair]) == Flatten(pairs) + [pair.0, pair.1]
  {
    if pairs == [] {
      assert pairs + [pair] == [pair];
      assert [pair][1..] == [];
    } else {
      assert (pairs + [pair])[1..] == pairs[1..] + [pair];
      FlattenAppend(pairs[1..], pair);
    }
  }

  /** Giving a node more children of the document keeps the document closed. */
  lemma MoreChildrenBind(c: Composed, index: nat, node: Node, more: seq<nat>)
    requires Bound(c) && IsIndex(c.nodes, index) && AllIndices(c.nodes, more)
    requires Children(node) == Children(c.nodes[index - 1]) + more
    ensures Bound(c.(nodes := c.nodes[index - 1 := node]))
  {
    var nodes := c.nodes[index - 1 := node];
    forall k | 0 <= k < |nodes| ensures AllIndices(nodes, Children(nodes[k])) {
      assert AllIndices(c.nodes, Children(c.nodes[k]));
    }
  }

  lemma {:induction false} NodeBinds(events: seq<Event>, c: Composed)
    requires Bound(c)
    ensures Binds(LoadNode(events, c), c)
    decreases |events|, 0
  {
    hide Bound, WellFormed;
    if events != [] {
      match events[0] {
        case AliasEvent(anchor) =>
          if anchor.Some? && FindAlias(c.aliases, anchor.value).Some? {
            AliasIsBound(c, anchor.value);
          }
        case ScalarEvent(anchor, tag, value, _, _, style) =>
          PushBinds(c, ScalarNode(LoadedTag(tag, SCALAR_TAG), value, style), anchor);
        case SequenceStart(anchor, tag, _, style) =>
          var node := SequenceNode(LoadedTag(tag, SEQUENCE_TAG), [], style);
          PushBinds(c, node, anchor);
          var c' := Push(c, node, anchor);
          if c'.Some? { ItemsBind(events[1..], c'.value, |c.nodes| + 1); }
        case MappingStart(anchor, tag, _, style) =>
          var node := MappingNode(LoadedTag(tag, MAPPING_TAG), [], style);
          PushBinds(c, node, anchor);
          var c' := Push(c, node, anchor);
          if c'.Some? { PairsBind(events[1..], c'.value, |c.nodes| + 1); }
        case _ =>
      }
    }
  }

  lemma AliasIsBound(c: Composed, anchor: string)
    requires Bound(c) && FindAlias(c.aliases, anchor).Some?
    ensures IsIndex(c.nodes, FindAlias(c.aliases, anchor).value)
  {
    FoundAliasIsBound(c, anchor);
  }

  lemma {:induction false} ItemsBind(events: seq<Event>, c: Composed, index: nat)
    requires 1 <= index <= |c.nodes| && c.nodes[index - 1].SequenceNode? && Bound(c)
    ensures Binds(LoadItems(events, c, index), c)
    decreases |events|, 1
  {
    hide Bound, LoadNode;
    if events != [] && events[0] != SequenceEnd {
      NodeBinds(events, c);
      var item := LoadNode(events, c);
      if item.Loaded? {
        var c' := AppendItem(item.composed, index, item.index);
        MoreChildrenBind(item.composed, index, c'.nodes[index - 1], [item.index]);
        ItemsBind(item.rest, c', index);
      }
    }
  }

  lemma {:induction false} PairsBind(events: seq<Event>, c: Composed, index: nat)
    requires 1 <= index <= |c.nodes| && c.nodes[index - 1].MappingNode? && Bound(c)
    ensures Binds(LoadPairs(events, c, index), c)
    decreases |events|, 1
  {
    hide Bound, LoadNode;
    if events != [] && events[0] != MappingEnd {
      NodeBinds(events, c);
      var key := LoadNode(events, c);
      if key.Loaded? {
        NodeBinds(key.rest, key.composed);
        var value := LoadNode(key.rest, key.composed);
        if value.Loaded? {
          var c' := AppendPair(value.composed, index, (key.index, value.index));
          FlattenAppend(value.composed.nodes[index - 1].pairs, (key.index, value.index));
          MoreChildrenBind(value.composed, index, c'.nodes[index - 1], [key.index, value.index]);
          PairsBind(value.rest, c', index);
        }
      }
    }
  }

  /** Every document loaded, from whatever events, refers only to nodes of its own. */
  lemma {:induction false} LoadedDocumentsAreClosed(events: seq<Event>)
    ensures forall k :: 0 <= k < |LoadDocuments(events).documents| ==> WellFormed(LoadDocuments(events).documents[k])
    decreases |events|
  {
    hide WellFormed, LoadNode;
    if events != [] && events[0].DocumentStart? {
      NothingBound();
      NodeBinds(events[1..], Composed([], []));
      var outcome := LoadDocument(events[1..]);
      if outcome.Loaded? {
        LoadedDocumentsAreClosed(outcome.rest);
      }
    }
  }

  lemma NothingBound()
    ensures Bound(Composed([], []))
  {
  }
}
