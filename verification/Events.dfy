/**
  The events that the parser produces, the emitter consumes, and the composer and the dumper
  translate to and from documents.
 */
module Events {
  import opened Options

  datatype TagDirective = TagDirective(handle: string, prefix: string)

  datatype Event =
    | StreamStart
    | StreamEnd
    | DocumentStart(version: Option<(nat, nat)>, directives: seq<TagDirective>, implicit: bool)
    | DocumentEnd(implicit: bool)
    | AliasEvent(anchor: Option<string>)
    | ScalarEvent(anchor: Option<string>, tag: Option<string>, value: string,
                  plainImplicit: bool, quotedImplicit: bool, style: nat)
    | SequenceStart(anchor: Option<string>, tag: Option<string>, implicit: bool, style: nat)
    | SequenceEnd
    | MappingStart(anchor: Option<string>, tag: Option<string>, implicit: bool, style: nat)
    | MappingEnd

  // ----- Tag directives

  function FindDirective(directives: seq<TagDirective>, handle: string): Option<string> {
    if directives == [] then None
    else if directives[0].handle == handle then Some(directives[0].prefix)
    else FindDirective(directives[1..], handle)
  }

  function AddDefault(directives: seq<TagDirective>, directive: TagDirective): seq<TagDirective> {
    if FindDirective(directives, directive.handle).Some? then directives else directives + [directive]
  }

  /** The directives of a document and the defaults it does not redefine. */
  function AddDefaults(directives: seq<TagDirective>): seq<TagDirective> {
    AddDefault(AddDefault(directives, TagDirective("!", "!")), TagDirective("!!", "tag:yaml.org,2002:"))
  }

  // The numbering of the scalar and collection styles.
  const PLAIN_STYLE: nat := 1
  const BLOCK_STYLE: nat := 1
  const FLOW_STYLE: nat := 2
}
