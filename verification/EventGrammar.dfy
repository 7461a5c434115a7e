/**
  The grammar of event streams, as a recogniser with a stack of open frames: a stream of
  documents, each with one node; sequences of nodes; mappings in which keys and values
  alternate.
 */
module EventGrammar {
  import opened Options
  import opened Events

  datatype Frame =
    | StreamFrame
    | DocumentFrame(needsNode: bool)
    | SequenceFrame
    | MappingFrame(needsValue: bool)

  datatype Grammar = NotStarted | Open(frames: seq<Frame>) | Ended

  function Top(frames: seq<Frame>): Frame
    requires frames != []
  {
    frames[|frames| - 1]
  }

  function Below(frames: seq<Frame>): seq<Frame>
    requires frames != []
  {
    frames[..|frames| - 1]
  }

  /** A frame after one node in it; none if it takes no node. */
  function AfterNode(frame: Frame): Option<Frame> {
    match frame
    case StreamFrame => None
    case DocumentFrame(needsNode) => if needsNode then Some(DocumentFrame(false)) else None
    case SequenceFrame => Some(SequenceFrame)
    case MappingFrame(needsValue) => Some(MappingFrame(!needsValue))
  }

  /** The grammar after one more event; none if the event cannot come here. */
  function Accept(g: Grammar, e: Event): Option<Grammar> {
    match g
    case NotStarted => if e == StreamStart then Some(Open([StreamFrame])) else None
    case Ended => None
    case Open(frames) =>
      if frames == [] then None
      else
        var top, below := Top(frames), Below(frames);
        match e
        case StreamStart => None
        case StreamEnd => if top == StreamFrame then Some(Ended) else None
        case DocumentStart(_, _, _) => if top == StreamFrame then Some(Open(frames + [DocumentFrame(true)])) else None
        case DocumentEnd(_) => if top == DocumentFrame(false) then Some(Open(below)) else None
        case AliasEvent(anchor) =>
          if AfterNode(top) == None || anchor == None then None else Some(Open(below + [AfterNode(top).value]))
        case ScalarEvent(_, _, _, _, _, _) =>
          if AfterNode(top) == None then None else Some(Open(below + [AfterNode(top).value]))
        case SequenceStart(_, _, _, _) =>
          if AfterNode(top) == None then None else Some(Open(below + [AfterNode(top).value, SequenceFrame]))
        case MappingStart(_, _, _, _) =>
          if AfterNode(top) == None then None else Some(Open(below + [AfterNode(top).value, MappingFrame(false)]))
        case SequenceEnd => if top == SequenceFrame then Some(Open(below)) else None
        case MappingEnd => if top == MappingFrame(false) then Some(Open(below)) else None
  }

  /** The grammar after a whole word; none if one of its events cannot come where it does. */
  function AcceptAll(g: Grammar, events: seq<Event>): Option<Grammar>
    decreases |events|
  {
    if events == [] then Some(g)
    else
      match Accept(g, events[0])
      case None => None
      case Some(g') => AcceptAll(g', events[1..])
  }
}
