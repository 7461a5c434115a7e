/**
  A stream with one document: the tokens of a tree between the start and the end of the stream
  are parsed to the events of the tree as one implicit document, and nothing else.
 */
module ParsedDocuments {
  import opened Options
  import opened Events
  import opened Parsing
  import opened ParserRuns
  import opened ParserTrees

  /** What a part of a run emits comes first in the run. */
  lemma {:induction false} RunReaches(p: Parser, events: seq<Event>, q: Parser)
    requires Inv(p) && Reaches(p, events, q)
    ensures Inv(q) && RunAll(p) == Run(events + RunAll(q).events, RunAll(q).result)
    decreases |events|
  {
    hide Inv, Step, RunAll, GoodFrom, Spends, Position;
    if events == [] {
      assert [] + RunAll(q).events == RunAll(q).events;
    } else {
      RunStep(p);
      RunReaches(Step(p).parser, events[1..], q);
      assert [events[0]] + (events[1..] + RunAll(q).events) == events + RunAll(q).events;
    }
  }

  lemma RunStep(p: Parser)
    requires Inv(p) && p.state != EndState && Step(p).Emitted?
    ensures Inv(Step(p).parser)
    ensures var rest := RunAll(Step(p).parser); RunAll(p) == Run([Step(p).event] + rest.events, rest.result)
  {
    hide Inv, Step, Position;
    StepKeepsInv(p);
    StepSpends(p);
  }

  function DefaultDirectives(): seq<TagDirective> {
    [TagDirective("!", "!"), TagDirective("!!", "tag:yaml.org,2002:")]
  }

  /** The parser in front of the root of an implicit document. */
  function AtRoot(tokens: seq<Token>): Parser {
    Parser(BlockNodeState, [DocumentEndState], [], DefaultDirectives(), tokens, 1)
  }

  lemma ImplicitDocumentOpens(tokens: seq<Token>)
    requires tokens != [] && Starts(tokens[0], true, false)
    ensures Reaches(Start([StreamStartToken] + tokens), [StreamStart, DocumentStart(None, [], true)], AtRoot(tokens))
  {
    var p0 := Start([StreamStartToken] + tokens);
    SkipOne(p0, StreamStartToken, tokens);
    var p1 := In(At(p0, tokens), ImplicitDocumentStartState);
    assert AddDefaults([]) == DefaultDirectives() by { Defaults(); }
    assert [] + [DocumentEndState] == [DocumentEndState];
    assert Step(p1) == Emitted(DocumentStart(None, [], true), AtRoot(tokens));
    YieldsOne(DocumentStart(None, [], true), AtRoot(tokens));
    StepReaches(p1, [DocumentStart(None, [], true)], AtRoot(tokens));
    assert [StreamStart, DocumentStart(None, [], true)][1..] == [DocumentStart(None, [], true)];
  }

  lemma Defaults()
    ensures AddDefaults([]) == DefaultDirectives()
  {
    var bang := TagDirective("!", "!");
    assert AddDefault([], bang) == [bang];
    assert [bang][1..] == [];
    assert FindDirective([bang], "!!") == None;
  }

  lemma ImplicitDocumentEnds(p: Parser)
    requires p.state == DocumentEndState && p.tokens == [StreamEndToken] && Inv(p)
    ensures RunAll(p) == Run([DocumentEnd(true), StreamEnd], Complete)
  {
    StepKeepsInv(p);
    StepSpends(p);
    var q := p.(directives := [], state := DocumentStartState);
    assert Step(p) == Emitted(DocumentEnd(true), q);
    StepKeepsInv(q);
    StepSpends(q);
    var r := Skip(q).(state := EndState);
    assert Step(q) == Emitted(StreamEnd, r);
    assert RunAll(r) == Run([], Complete);
    assert RunAll(q) == Run([StreamEnd], Complete);
  }

  /** One document: the run of its tokens is its events, and complete. */
  lemma SingleDocumentParses(t: Tree)
    requires Fits(t, true, false, DefaultDirectives())
    ensures var p := Start([StreamStartToken] + Tokens(t) + [StreamEndToken]);
      && Inv(p)
      && RunAll(p) == Run([StreamStart, DocumentStart(None, [], true)] + EventsOf(t, DefaultDirectives())
                          + [DocumentEnd(true), StreamEnd], Complete)
  {
    hide Fits, Reaches, RunAll, TokensThen, EventsOf;
    var rest := [StreamEndToken];
    var tokens := Tokens(t) + rest;
    assert [StreamStartToken] + Tokens(t) + rest == [StreamStartToken] + tokens;
    var p := Start([StreamStartToken] + tokens);
    TokensThenMore(t, [], rest);
    assert [] + rest == rest;
    StartsWithNode(t, rest, true, false, DefaultDirectives());
    NotIndentless(t, true, DefaultDirectives());
    ImplicitDocumentOpens(tokens);
    RunReaches(p, [StreamStart, DocumentStart(None, [], true)], AtRoot(tokens));
    ParserInvertsLinearisation(t, AtRoot(tokens), rest, true, false);
    var end := Returned(AtRoot(tokens), rest);
    RunReaches(AtRoot(tokens), EventsOf(t, DefaultDirectives()), end);
    ImplicitDocumentEnds(end);
    var opening, inner, closing := [StreamStart, DocumentStart(None, [], true)], EventsOf(t, DefaultDirectives()), [DocumentEnd(true), StreamEnd];
    assert opening + (inner + closing) == opening + inner + closing;
  }
}
