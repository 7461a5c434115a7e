/**
  The composer at work: a recursion that pushes nodes, fills collections in place and registers
  anchors, fed by one event after another.
 */
module Loader {
  import opened Options
  import opened Events
  import opened Documents
  import Loading

  /** The index of the loaded node; or the call failed, or an assertion did. */
  datatype Result = Index(value: nat) | Error | Abort

  class Loader {
    var events: seq<Event>  // what the parser will still deliver
    var nodes: seq<Node>
    var aliases: seq<Loading.AliasData>

    constructor (events: seq<Event>)
      ensures this.events == events && nodes == [] && aliases == []
    {
      this.events, nodes, aliases := events, [], [];
    }

    ghost function State(): Loading.Composed
      reads this
    {
      Loading.Composed(nodes, aliases)
    }

    /** What a call must do, according to the function that specifies it. */
    ghost predicate Does(outcome: Loading.Outcome, r: Result)
      reads this
    {
      match outcome
      case Loaded(index, c, rest) => r == Index(index) && State() == c && events == rest
      case Failed => r == Error
      case Aborted => r == Abort
    }

    method Parse() returns (event: Option<Event>)
      modifies this`events
      ensures old(events) == [] ==> event == None && events == []
      ensures old(events) != [] ==> event == Some(old(events)[0]) && events == old(events)[1..]
    {
      if events == [] {
        return None;
      }
      event, events := Some(events[0]), events[1..];
    }

    method RegisterAnchor(index: nat, anchor: Option<string>) returns (ok: bool)
      modifies this`aliases
      ensures var r := Loading.RegisterAnchor(old(State()), index, anchor);
        ok == r.Some? && (ok ==> State() == r.value)
    {
      if anchor == None {
        return true;
      }
      var k := 0;
      while k < |aliases|
        invariant 0 <= k <= |aliases|
        invariant Loading.FindAlias(aliases[k..], anchor.value) == Loading.FindAlias(aliases, anchor.value)
      {
        assert aliases[k..][1..] == aliases[k + 1..];
        if aliases[k].anchor == anchor.value {
          return false;
        }
        k := k + 1;
      }
      aliases := aliases + [Loading.AliasData(anchor.value, index)];
      return true;
    }

    method LoadAlias(anchor: string) returns (r: Option<nat>)
      ensures r == Loading.FindAlias(aliases, anchor)
    {
      var k := 0;
      while k < |aliases|
        invariant 0 <= k <= |aliases|
        invariant Loading.FindAlias(aliases[k..], anchor) == Loading.FindAlias(aliases, anchor)
      {
        assert aliases[k..][1..] == aliases[k + 1..];
        if aliases[k].anchor == anchor {
          return Some(aliases[k].index);
        }
        k := k + 1;
      }
      return None;
    }

    method LoadNode(first: Event) returns (r: Result)
      modifies this
      ensures |events| <= old(|events|) || !r.Index?
      ensures Does(Loading.LoadNode([first] + old(events), old(State())), r)
      decreases |events|, 1
    {
      ghost var all := [first] + events;
      assert all[1..] == events;
      match first {
        case AliasEvent(anchor) =>
          if anchor == None {
            return Abort;
          }
          var index := LoadAlias(anchor.value);
          return if index == None then Error else Index(index.value);
        case ScalarEvent(anchor, tag, value, _, _, style) =>
          nodes := nodes + [ScalarNode(Loading.LoadedTag(tag, SCALAR_TAG), value, style)];
          var ok := RegisterAnchor(|nodes|, anchor);
          return if ok then Index(|nodes|) else Error;
        case SequenceStart(anchor, tag, _, style) =>
          nodes := nodes + [SequenceNode(Loading.LoadedTag(tag, SEQUENCE_TAG), [], style)];
          var index := |nodes|;
          var ok := RegisterAnchor(index, anchor);
          if !ok {
            return Error;
          }
          r := LoadSequence(index);
        case MappingStart(anchor, tag, _, style) =>
          nodes := nodes + [MappingNode(Loading.LoadedTag(tag, MAPPING_TAG), [], style)];
          var index := |nodes|;
          var ok := RegisterAnchor(index, anchor);
          if !ok {
            return Error;
          }
          r := LoadMapping(index);
        case _ => return Abort;
      }
    }

    /** The loop over the items, behind the opening event. */
    method LoadSequence(index: nat) returns (r: Result)
      requires 1 <= index <= |nodes| && nodes[index - 1].SequenceNode?
      modifies this
      ensures |events| <= old(|events|) || !r.Index?
      ensures Does(Loading.LoadItems(old(events), old(State()), index), r)
      decreases |events|, 0
    {
      ghost var goal := Loading.LoadItems(events, State(), index);
      var event := Parse();
      if event == None {
        return Error;
      }
      assert [event.value] + events == old(events);
      while event.value != SequenceEnd
        invariant event.Some? && 1 <= index <= |nodes| && nodes[index - 1].SequenceNode?
        invariant |events| < old(|events|)
        invariant Loading.LoadItems([event.value] + events, State(), index) == goal
        decreases |events|
      {
        ghost var all := [event.value] + events;
        ghost var before := State();
        assert Loading.LoadItems(all, before, index) == match Loading.LoadNode(all, before) {
          case Loaded(item, c', rest) => Loading.LoadItems(rest, Loading.AppendItem(c', index, item), index)
          case other => other
        };
        var item := LoadNode(event.value);
        if !item.Index? {
          return item;
        }
        nodes := nodes[index - 1 := nodes[index - 1].(items := nodes[index - 1].items + [item.value])];
        ghost var rest := events;
        event := Parse();
        if event == None {
          return Error;
        }
        assert [event.value] + events == rest;
      }
      assert ([event.value] + events)[1..] == events;
      return Index(index);
    }

    /** The loop over the pairs, behind the opening event. */
    method LoadMapping(index: nat) returns (r: Result)
      requires 1 <= index <= |nodes| && nodes[index - 1].MappingNode?
      modifies this
      ensures |events| <= old(|events|) || !r.Index?
      ensures Does(Loading.LoadPairs(old(events), old(State()), index), r)
      decreases |events|, 0
    {
      ghost var goal := Loading.LoadPairs(events, State(), index);
      var event := Parse();
      if event == None {
        return Error;
      }
      assert [event.value] + events == old(events);
      while event.value != MappingEnd
        invariant event.Some? && 1 <= index <= |nodes| && nodes[index - 1].MappingNode?
        invariant |events| < old(|events|)
        invariant Loading.LoadPairs([event.value] + events, State(), index) == goal
        decreases |events|
      {
        ghost var all := [event.value] + events;
        var key := LoadNode(event.value);
        if !key.Index? {
          return key;
        }
        ghost var behindKey := events;
        event := Parse();
        if event == None {
          return Error;
        }
        assert [event.value] + events == behindKey;
        var value := LoadNode(event.value);
        if !value.Index? {
          return value;
        }
        nodes := nodes[index - 1 := nodes[index - 1].(pairs := nodes[index - 1].pairs + [(key.value, value.value)])];
        ghost var rest := events;
        event := Parse();
        if event == None {
          return Error;
        }
        assert [event.value] + events == rest;
      }
      assert ([event.value] + events)[1..] == events;
      return Index(index);
    }

    /** One document behind its start event, up to its end event. */
    method LoadDocument() returns (r: Result)
      requires nodes == [] && aliases == []
      modifies this
      ensures Does(Loading.LoadDocument(old(events)), r)
    {
      hide Loading.LoadNode;
      var first := Parse();
      if first == None {
        assert Loading.LoadNode(old(events), Loading.Composed([], [])) == Loading.Failed by { NothingLoads(); }
        return Error;
      }
      assert [first.value] + events == old(events);
      r := LoadNode(first.value);
      if r.Index? {
        var last := Parse();
        if last == None {
          return Error;
        }
        if !last.value.DocumentEnd? {
          return Abort;
        }
      }
    }

    static lemma NothingLoads()
      ensures Loading.LoadNode([], Loading.Composed([], [])) == Loading.Failed
    {
    }
  }
}
