/**
  The flow scalar scanner on one piece of written text: a letter, a space, a line break, an
  indent. The round trips of both quoted styles are made of these steps.
 */
module FlowPlaces {
  import opened Chars
  import opened Printing
  import opened LineBreaks
  import opened FlowScanner

  /** Where the scanner may be between two characters of the value. */
  datatype Place =
    | TextPlace
    | EscapePlace  // the backslash of an escaped space has been written
    | BlankPlace(leadingBlanks: bool, whitespaces: Text, leadingBreak: Text, trailingBreaks: Text)

  function Resume(single: bool, place: Place, input: Text, column: nat, value: Text): Scanned {
    match place
    case TextPlace => InText(single, input, column, value)
    case EscapePlace => InText(single, [BACKSLASH] + input, if column > 0 then column - 1 else 0, value)
    case BlankPlace(lb, ws, lead, trail) => InBlanks(single, input, column, value, lb, ws, lead, trail)
  }

  /** What the scanner has seen but not yet added to the value. */
  function Pending(place: Place): Text {
    match place
    case TextPlace => []
    case EscapePlace => []
    case BlankPlace(lb, ws, lead, trail) => Joined(lb, ws, lead, trail)
  }

  /** At a character that is neither blank nor the end, pending text joins the value. */
  lemma ResumeText(single: bool, place: Place, input: Text, column: nat, value: Text)
    requires !place.EscapePlace?
    requires !IsBlankZ(At(input, 0)) && (column > 0 || !IsDocumentIndicator(input))
    ensures Resume(single, place, input, column, value) == InText(single, input, column, value + Pending(place))
  {
    match place
    case TextPlace => assert value + [] == value;
    case BlankPlace(lb, ws, lead, trail) =>
      assert AtRound(single, input, column, value + Joined(lb, ws, lead, trail))
          == InText(single, input, column, value + Joined(lb, ws, lead, trail));
  }

  lemma TextReadsPlain(single: bool, c: Char, rest: Text, column: nat, value: Text)
    requires !IsBlankZ(c) && c != Quote(single) && (c == BACKSLASH ==> single)
    ensures InText(single, [c] + rest, column, value) == InText(single, rest, column + 1, value + [c])
  {
    assert ([c] + rest)[1..] == rest;
  }

  /** A space in text, or behind other spaces, stays pending. */
  lemma ReadsSpace(single: bool, place: Place, rest: Text, column: nat, value: Text) returns (place': Place)
    requires place.TextPlace? || (place.BlankPlace? && !place.leadingBlanks)
    ensures place'.BlankPlace? && !place'.leadingBlanks && Pending(place') == Pending(place) + [SPACE]
    ensures Resume(single, place, [SPACE] + rest, column, value) == Resume(single, place', rest, column + 1, value)
  {
    var input := [SPACE] + rest;
    assert input[1..] == rest;
    match place
    case TextPlace =>
      place' := BlankPlace(false, [SPACE], [], []);
      assert InText(single, input, column, value) == InBlanks(single, input, column, value, false, [], [], []);
      assert [] + [SPACE] == [SPACE];
    case BlankPlace(lb, ws, lead, trail) =>
      place' := BlankPlace(false, ws + [SPACE], lead, trail);
  }

  lemma SkipSpaces(single: bool, n: nat, rest: Text, column: nat, value: Text, lead: Text, trail: Text)
    ensures InBlanks(single, Repeat(SPACE, n) + rest, column, value, true, [], lead, trail)
         == InBlanks(single, rest, column + n, value, true, [], lead, trail)
    decreases n
  {
    var input := Repeat(SPACE, n) + rest;
    if n == 0 {
      assert input == rest;
    } else {
      assert input[1..] == Repeat(SPACE, n - 1) + rest;
      SkipSpaces(single, n - 1, rest, column + 1, value, lead, trail);
    }
  }

  /** A fold inside text leaves the scanner behind the indent of the next line, one space pending. */
  lemma TextReadsFold(single: bool, s: Settings, level: nat, rest: Text, column: nat, value: Text)
    requires s.lineBreak.CrBreak? ==> At(rest, 0) != LF
    ensures InText(single, BreakText(s.lineBreak) + Repeat(SPACE, level) + rest, column, value)
         == Resume(single, BlankPlace(true, [], [LF], []), rest, level, value)
  {
    var after := Repeat(SPACE, level) + rest;
    var input := BreakText(s.lineBreak) + after;
    assert BreakText(s.lineBreak) + Repeat(SPACE, level) + rest == input;
    ReadsBreakText(s, after);
    assert InText(single, input, column, value) == InBlanks(single, input, column, value, false, [], [], []);
    assert [] + [LF] == [LF];
    SkipSpaces(single, level, rest, 0, value, [LF], []);
  }
}
