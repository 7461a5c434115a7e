/**
  What is written for an anchor and for a tag (emitter.c, yaml_emitter_process_anchor and
  yaml_emitter_process_tag), and how the name of an anchor is read back.
 */
module NodeProperties {
  import opened Options
  import opened Chars
  import opened Printing
  import PlainScanner
  import Tags

  function Then(first: Ink, second: Ink): Ink {
    Ink(first.text + second.text, second.pen)
  }

  /** A word that is no indicator: the name of an anchor, the handle of a tag or the rest of it. */
  function WriteWord(text: Text, needWhitespace: bool, pen: Pen): Ink {
    WriteIndicator(text, needWhitespace, false, false, pen)
  }

  function WriteAnchor(anchor: Option<Text>, alias: bool, pen: Pen): Ink {
    match anchor
    case None => Ink([], pen)
    case Some(name) =>
      var indicator := WriteIndicator(if alias then [STAR] else [AMPERSAND], true, false, false, pen);
      Then(indicator, WriteWord(name, false, indicator.pen))
  }

  /** A handle and what is left of the tag, or all of it in the verbatim form. */
  function WriteTag(data: Option<Tags.TagData>, pen: Pen): Ink {
    match data
    case None => Ink([], pen)
    case Some(TagData(handle, suffix)) =>
      if handle.Some? then
        var start := WriteWord(handle.value, true, pen);
        Then(start, WriteWord(Tags.WriteContent(suffix), false, start.pen))
      else
        var start := WriteIndicator([EXCLAMATION, LESS], true, false, false, pen);
        var content := WriteWord(Tags.WriteContent(suffix), false, start.pen);
        Then(Then(start, content), WriteIndicator([GREATER], false, false, false, content.pen))
  }

  /** Scanning the name that was written for an anchor or alias gives it back, in front of what may end a name. */
  lemma AnchorRoundTrip(name: Text, alias: bool, pen: Pen, tail: Text)
    requires name != [] && Tags.AllAlpha(name) && PlainScanner.EndsName(At(tail, 0))
    ensures var gap := if pen.whitespace then 0 else 1;
      var ink := WriteAnchor(Some(name), alias, pen);
      && |ink.text| > gap
      && var input := ink.text[gap..] + tail;
      && PlainScanner.ScanName(input) == Some(|name|) && input[1..1 + |name|] == name && input[1 + |name|..] == tail
  {
    var gap := if pen.whitespace then 0 else 1;
    var input := WriteAnchor(Some(name), alias, pen).text[gap..] + tail;
    assert input == [if alias then STAR else AMPERSAND] + (name + tail);
    assert input[1..] == name + tail;
    Tags.AlphaLengthIs(name + tail, |name|);
    assert At(input, 1 + |name|) == At(tail, 0);
  }
}
