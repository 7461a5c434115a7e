/**
  The emitter's lookahead is enough and bounded: what it decides with the events in its queue is
  what it would decide with the whole stream before it, the queue never holds more than four
  events, and it is empty behind every DOCUMENT-END.
 */
module EmitterQueue {
  import opened Options
  import opened Events
  import opened EventGrammar
  import opened Emitting

  // ----- The lookahead is enough

  /** An event that needs lookahead is not emitted before the next one is there. */
  lemma TwoAreThere(queue: seq<Event>)
    requires queue != [] && !NeedsMore(queue) && (queue[0].SequenceStart? || queue[0].MappingStart?)
    ensures |queue| >= 2
  {
    if |queue| == 1 {
      assert !Closes(1, queue[1..]);
    }
  }

  /** The queue and the whole of what is to come decide the same. */
  lemma QueueDecides(cfg: Config, queue: seq<Event>, all: seq<Event>)
    requires queue != [] && !NeedsMore(queue) && queue <= all
    ensures EmptySequenceAhead(queue) == EmptySequenceAhead(all)
    ensures EmptyMappingAhead(queue) == EmptyMappingAhead(all)
    ensures forall d :: SimpleKeyAhead(cfg, d, queue) == SimpleKeyAhead(cfg, d, all)
  {
    assert all[0] == queue[0];
    if queue[0].SequenceStart? || queue[0].MappingStart? {
      TwoAreThere(queue);
      assert all[1] == queue[1];
    }
  }

  lemma NodeDecides(cfg: Config, s: Emitter, queue: seq<Event>, all: seq<Event>, mapping: bool, simpleKey: bool)
    requires queue != [] && !NeedsMore(queue) && queue <= all
    ensures EmitNode(cfg, s, queue, mapping, simpleKey) == EmitNode(cfg, s, all, mapping, simpleKey)
  {
    hide EmptySequenceAhead, EmptyMappingAhead, NeedsMore;
    QueueDecides(cfg, queue, all);
    assert all[0] == queue[0];
  }

  /** A step with the queue is a step with the whole stream in view. */
  lemma LookaheadSuffices(cfg: Config, s: Emitter, queue: seq<Event>, all: seq<Event>)
    requires queue != [] && !NeedsMore(queue) && queue <= all
    ensures Process(cfg, s, queue) == Process(cfg, s, all)
  {
    hide EmitNode, SimpleKeyAhead, NeedsMore, EmitStreamStart, EmitDocumentStart, EmitDocumentEnd, OpenFlow, CloseFlow, CloseBlock,
         NextFlowItem, BeforeFlowKey, BeforeFlowValue, BeforeBlockItem, BeforeBlockKey, BeforeBlockValue, Deeper, PushState, AtRoot;
    QueueDecides(cfg, queue, all);
    assert all[0] == queue[0];
    forall t: Emitter, mapping: bool, simpleKey: bool
      ensures EmitNode(cfg, t, queue, mapping, simpleKey) == EmitNode(cfg, t, all, mapping, simpleKey)
    {
      NodeDecides(cfg, t, queue, all, mapping, simpleKey);
    }
  }

  /** Emitting from the queue does what emitting with everything in view does, as far as it gets. */
  lemma {:induction false} DrainFollows(cfg: Config, s: Emitter, queue: seq<Event>, more: seq<Event>)
    ensures match Drain(cfg, s, queue)
      case Queued(s', queue') => ProcessAll(cfg, s, queue + more) == ProcessAll(cfg, s', queue' + more)
      case Stopped(outcome) => ProcessAll(cfg, s, queue + more) == outcome && !outcome.Emitted?
    decreases |queue|
  {
    hide Process, NeedsMore;
    if !NeedsMore(queue) {
      assert queue != [] by { SomethingThere(queue); }
      LookaheadSuffices(cfg, s, queue, queue + more);
      assert (queue + more)[1..] == queue[1..] + more;
      if Process(cfg, s, queue).Emitted? {
        DrainFollows(cfg, Process(cfg, s, queue).emitter, queue[1..], more);
      }
    }
  }

  lemma NothingNeedsMore()
    ensures NeedsMore([])
  {
  }

  lemma SomethingThere(queue: seq<Event>)
    requires !NeedsMore(queue)
    ensures queue != []
  {
  }

  /** The emitter with its queue, over a whole word of events. */
  lemma {:induction false} EmitAllFollows(cfg: Config, s: Emitter, queue: seq<Event>, events: seq<Event>)
    ensures match EmitAll(cfg, s, queue, events)
      case Queued(s', queue') => ProcessAll(cfg, s, queue + events) == ProcessAll(cfg, s', queue')
      case Stopped(outcome) => ProcessAll(cfg, s, queue + events) == outcome && !outcome.Emitted?
    decreases |events|
  {
    hide Drain, ProcessAll;
    if events == [] {
      assert queue + events == queue;
    } else {
      DrainFollows(cfg, s, queue + [events[0]], events[1..]);
      assert queue + [events[0]] + events[1..] == queue + events;
      match Drain(cfg, s, queue + [events[0]]) {
        case Queued(s', queue') => EmitAllFollows(cfg, s', queue', events[1..]);
        case Stopped(outcome) =>
      }
    }
  }

  // ----- The size of the queue

  lemma NeedsFew(queue: seq<Event>)
    requires NeedsMore(queue)
    ensures |queue| <= 3
  {
  }

  lemma {:induction false} DrainLeavesFew(cfg: Config, s: Emitter, queue: seq<Event>)
    ensures Drain(cfg, s, queue).Queued? ==> NeedsMore(Drain(cfg, s, queue).queue) && |Drain(cfg, s, queue).queue| <= 3
    decreases |queue|
  {
    hide Process, NeedsMore;
    if NeedsMore(queue) {
      NeedsFew(queue);
    } else {
      SomethingThere(queue);
    }
    if !NeedsMore(queue) && Process(cfg, s, queue).Emitted? {
      DrainLeavesFew(cfg, Process(cfg, s, queue).emitter, queue[1..]);
    }
  }

  /** Between calls three events wait at most, so with the next one there are four at most. */
  lemma {:induction false} AtMostFourWait(cfg: Config, s: Emitter, queue: seq<Event>, events: seq<Event>)
    requires |queue| <= 3
    ensures EmitAll(cfg, s, queue, events).Queued? ==> |EmitAll(cfg, s, queue, events).queue| <= 3
    decreases |events|
  {
    hide Drain;
    if events != [] {
      DrainLeavesFew(cfg, s, queue + [events[0]]);
      match Drain(cfg, s, queue + [events[0]]) {
        case Queued(s', queue') => AtMostFourWait(cfg, s', queue', events[1..]);
        case Stopped(outcome) =>
      }
    }
  }

  // ----- Behind the end of a document

  /** The nesting depth of the grammar. */
  function DepthOf(g: Grammar): nat {
    match g
    case NotStarted => 0
    case Open(frames) => |frames|
    case Ended => 0
  }

  lemma DepthChanges(g: Grammar, e: Event)
    requires Accept(g, e).Some?
    ensures DepthOf(Accept(g, e).value) == DepthOf(g) + LevelChange(e)
      || (e == StreamEnd && Accept(g, e) == Some(Ended))
  {
  }

  /** If a word comes down to the depth where the counting began, the level gets to zero on the way. */
  lemma {:induction false} ComingDownCloses(g: Grammar, level: nat, events: seq<Event>)
    requires level > 0 && DepthOf(g) >= level && AcceptAll(g, events).Some? && AcceptAll(g, events).value.Open?
    requires DepthOf(AcceptAll(g, events).value) <= DepthOf(g) - level
    ensures Closes(level, events)
    decreases |events|
  {
    hide Accept;
    if events != [] {
      var g' := Accept(g, events[0]).value;
      DepthChanges(g, events[0]);
      if g' == Ended {
        EndedStays(events[1..]);
      } else if level + LevelChange(events[0]) != 0 {
        ComingDownCloses(g', level + LevelChange(events[0]), events[1..]);
      }
    }
  }

  lemma EndedStays(events: seq<Event>)
    ensures AcceptAll(Ended, events).Some? ==> AcceptAll(Ended, events) == Some(Ended)
  {
  }

  /** At the end of a document nothing is open but the stream. */
  predicate BetweenDocuments(g: Grammar) {
    g == Open([StreamFrame])
  }

  /** The head of a queue that comes from inside or from the start of a document, up to its end, needs nothing more. */
  lemma WholeDocumentNeedsNothing(g: Grammar, queue: seq<Event>)
    requires queue != [] && DepthOf(g) >= 1 && AcceptAll(g, queue).Some? && BetweenDocuments(AcceptAll(g, queue).value)
    ensures !NeedsMore(queue)
  {
    hide AcceptAll;
    if Lookahead(queue[0]) != None {
      OneAccepted(g, queue);
      DepthChanges(g, queue[0]);
      ComingDownCloses(Accept(g, queue[0]).value, 1, queue[1..]);
      HeadOpens(queue);
    }
  }

  lemma OneAccepted(g: Grammar, events: seq<Event>)
    requires events != [] && AcceptAll(g, events).Some?
    ensures Accept(g, events[0]).Some? && AcceptAll(Accept(g, events[0]).value, events[1..]) == AcceptAll(g, events)
  {
  }

  lemma HeadOpens(queue: seq<Event>)
    requires queue != [] && Lookahead(queue[0]) != None && Closes(1, queue[1..])
    ensures !NeedsMore(queue)
  {
    assert LevelChange(queue[0]) == 1;
  }

  /** When a document has ended, all its events have been emitted. */
  lemma {:induction false} NothingWaitsBehindDocuments(cfg: Config, s: Emitter, g: Grammar, queue: seq<Event>)
    requires DepthOf(g) >= 1 && AcceptAll(g, queue).Some? && BetweenDocuments(AcceptAll(g, queue).value)
    ensures Drain(cfg, s, queue).Queued? ==> Drain(cfg, s, queue).queue == []
    decreases |queue|
  {
    hide Process, NeedsMore, AcceptAll;
    NothingNeedsMore();
    if queue != [] {
      WholeDocumentNeedsNothing(g, queue);
      if Process(cfg, s, queue).Emitted? {
        OneAccepted(g, queue);
        var g' := Accept(g, queue[0]).value;
        DepthChanges(g, queue[0]);
        if DepthOf(g') >= 1 {
          NothingWaitsBehindDocuments(cfg, Process(cfg, s, queue).emitter, g', queue[1..]);
        } else {
          NoneOpen(g', queue[1..]);
        }
      }
    }
  }

  lemma NoneOpen(g: Grammar, events: seq<Event>)
    requires DepthOf(g) == 0 && g != NotStarted
    ensures AcceptAll(g, events).Some? && events != [] ==> !BetweenDocuments(AcceptAll(g, events).value)
    ensures events == [] ==> AcceptAll(g, events) == Some(g)
  {
  }
}
