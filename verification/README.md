# The YAML processor and the configuration store

This project models the YAML 1.1 processor in `ppserver/src/config/yaml` and the hierarchical
configuration store above it in `ppserver/src/config`, and proves what they keep and what they
undo. One module stands for one part of the program; the file has the name of the module.

Where the program changes an object step by step, a class has the object's fields and its
methods the program's loops, each proved against a function of the old state; the laws are then
proved about those functions.

- **Scalars.** `ScalarAnalysis`, `AnalyzeScalar`, `DoubleQuoted`, `SingleQuoted`, `Plain`,
  `Literal`, `Folded` and `Printing` say what the emitter writes, `FlowScanner`, `BlockScanner`
  and `PlainScanner` what the scanner reads; `ScalarEmitter` and `ScalarScanner` are the objects
  at work. The five round trips are in `DoubleQuotedRoundTrip`, `SingleQuotedRoundTrip`,
  `PlainRoundTrip`, `LiteralRoundTrip` and `FoldedRoundTrip`, and `ScalarRoundTrip` joins them to
  the choice of the style. Characters are Unicode scalar values; `Utf8` ties them to octets, and
  `PortableOutput` takes the scalars on through writer and reader.
- **Document graphs.** `Documents`, `Dumping`, `DumpOrder` and `Dumper` are the two passes that
  serialize a graph, shared or cyclic; `Loading` and `Loader` rebuild it. `GraphRoundTrip`
  proves that nothing but the numbering changes, `LoadedStreams` that the composer's assertions
  hold.
- **Parser.** `Parsing` has the pushdown machine, `ParserMachine` the object. `EventGrammar` is
  an independent recogniser of event streams: `ParserRuns` proves every run against it.
  `ParserTrees` and `ParsedDocuments` prove that the machine inverts the linearisation of trees.
- **Scanner.** `TokenScanning` and `TokenFetcher` are simple keys, indentation and the token
  queue; `ScannerInvariants` and `ScannerRuns` prove what every run keeps, whatever the contents
  of tokens take of the input, `ContentReaches` that the scans of contents are such steps, and
  `ScannerAbort` that one assertion can fail. `TokenQueue` is the queue in its buffer.
- **Reader and writer.** `Encodings`, `Reading`, `ReaderRuns` and `ReaderBuffers`; `Writing` and
  `OutputBuffers`. UTF-8 is RFC 3629 section 3, UTF-16 is RFC 2781 sections 2.1 and 2.2.
- **Emitter machine.** `Emitting`, `EmitterMachine`, `EmitterQueue` for the bounded lookahead,
  `EmitterRuns` against the same event grammar, `EmitterLayout` against a printer of trees. What
  is written for an event is a parameter there; `Contents` and `NodeProperties` are what the
  program writes, and `WholeOutput` proves that all of it is read back in every encoding.
- **Tags.** `Tags` has analysis, escaping, scanning and resolution.
- **Configuration.** `ConfStore` and `ConfTree` are the store, `ConfLoading` and `ConfLoader` the
  translation of events into it, `ConfStreams` the way from the parser's tokens to the store,
  `TailQueue` the linked list its children hang on.

Pops from an empty stack and failed assertions are outcomes of their own, so that their absence
is something to prove. Where a comment of the program and its code disagree, the code is
modelled:

- scanner.c calls the assertion at line 1113 impossible. It fails where a flow collection is
  closed to the left of its block and a token that may be a key follows on the block's own
  column; `ScannerRuns.DispatchAborts` says exactly when.
- writer.c masks the last surrogate's high byte with eight bits instead of two (line 119).
  `Writing.SurrogatesDecodeIfBitsAreZero` says exactly which characters survive, and
  `WholeOutput` that the emitter never writes one that does not.
- parser.c skips the token behind the empty key of a single pair (lines 1028-1032). Where that
  is a colon without a value nothing is lost; else the value, the comma or the bracket is:
  `ParserTrees.KeylessPairParsesExactly`, for a first entry and for those behind a comma.
- emitter.c folds lines of a folded scalar that start with a space (lines 2315-2319), where the
  scanner keeps breaks: `FoldedRoundTrip.FoldedRoundTrip` says exactly which values change.
- emitter.c marks a document as open-ended behind a `+` hint (lines 2210 and 2220), but writing
  the hint takes the mark back at once; so only a plain scalar at the root leaves it.
- conf-yaml-loader.c looks a key up as it is but stores it with every `_` changed, except in
  two groups, and takes the items of a sequence directly in a sequence into the outer one (lines
  133-152 and 166-170): `ConfLoading.KeysAreMerged`, `ConfLoading.MergedKeys` and
  `ConfLoading.NestedSequencesAreFlattened`.

Many rows below name methods of the objects, above all the state functions in `ParserMachine` and
`EmitterMachine`. They are the in-place halves of the laws on runs: each equates the object after
the call with a function of the object before it, and the law is proved about that function.

## Model

| member | source | states |
|---|---|---|
| DoubleQuotedRoundTrip.DoubleQuotedRoundTrip | ppserver/src/config/yaml/emitter.c:2020-2174 | For every value, width, indent above 0, break style, `unicode` and `allow_breaks` setting and any following text: scanning what the double-quoted writer wrote gives the value, the column the writer ended in, and exactly the following text |
| DoubleQuotedRoundTrip.EscapeReadsBack | ppserver/src/config/yaml/scanner.c:3094-3263 | Every escape the writer can choose, short or hexadecimal, is decoded by the scanner to the character it was written for, and consumed completely |
| DoubleQuotedRoundTrip.FoldReadsBack | ppserver/src/config/yaml/emitter.c:2143-2159 | A space at which the writer breaks the line, with the backslash it adds before a further space, is read as one space |
| SingleQuotedRoundTrip.SingleQuotedRoundTrip | ppserver/src/config/yaml/emitter.c:1957-2018 | For every value the analysis allows in single quotes, followed by anything but a quote: scanning gives back the value (folds, break runs with NEL, U+2028 and U+2029, doubled quotes), the final column and the following text |
| LiteralRoundTrip.LiteralRoundTrip | ppserver/src/config/yaml/emitter.c:2234-2271 | For every value allowed in a block, at any parent indent, before the end of the stream or a less indented token: scanning header, hints and lines gives back the value, and stops where the next token starts |
| LiteralRoundTrip.HeaderReadsBack | ppserver/src/config/yaml/emitter.c:2176-2232 | The header with the hints of the writer is read as the chomping mode and the indentation the value needs |
| LiteralRoundTrip.ChompReadsBack | ppserver/src/config/yaml/scanner.c:2916-2923 | Where all characters are written, strip, clip or keep add exactly the breaks of the value that the scanner still holds back |
| PlainRoundTrip.PlainRoundTrip | ppserver/src/config/yaml/emitter.c:1897-1955 | For every value the analysis allows as plain text in a flow collection or a block, with folds at any width: the scan gives the value back and stops exactly in front of a colon and a blank, a flow indicator, the end, or a less indented line |
| FoldedRoundTrip.FoldedRoundTrip | ppserver/src/config/yaml/emitter.c:2273-2328 | For every value allowed in a block, at any parent indent, width and break style: header, doubled breaks and folds scan back to exactly the value if and only if no line that starts with a space is folded |
| FoldedRoundTrip.UnspacedFoldedRoundTrip | ppserver/src/config/yaml/emitter.c:2273-2328 | A value none of whose lines starts with a space is always read back |
| FoldedRoundTrip.SpacedLineIsMisread | ppserver/src/config/yaml/emitter.c:2315-2319 | An instance that is not: one line that starts with a space, and is folded |
| ScalarRoundTrip.QuotedScalarRoundTrip | ppserver/src/config/yaml/emitter.c:1178-1234 | Whatever style was asked for: if the selection ends in single or double quotes, scanning the output gives the value back; so the selection only takes single quotes where they can be undone |
| ScalarRoundTrip.LiteralScalarRoundTrip | ppserver/src/config/yaml/emitter.c:1178-1234 | Whatever style was asked for: if the selection ends in a literal, scanning the output gives the value back |
| ScalarRoundTrip.PlainScalarRoundTrip | ppserver/src/config/yaml/emitter.c:1178-1234 | Whatever style was asked for: if the selection ends in a plain scalar, scanning the output gives the value back, in flow collections and in blocks; an empty value is no text |
| ScalarRoundTrip.FoldedScalarRoundTrip | ppserver/src/config/yaml/emitter.c:1178-1234 | Whatever style was asked for: if the selection ends in a folded scalar, scanning the output gives the value back exactly if no line that starts with a space is folded |
| AnalyzeScalar.AnalyzeScalar | ppserver/src/config/yaml/emitter.c:1478-1672 | The loop with its flags computes the analysis defined by what occurs in the value and where: the empty case, document indicators, indicators, breaks, special characters, spaces and breaks at the ends or next to each other, and from them the five allowances |
| AnalyzeScalar.CheckIndicators | ppserver/src/config/yaml/emitter.c:1532-1577 | The flow and block flags of a turn are set exactly if the character is an indicator at its place |
| ScalarEmitter.Emitter.WriteIndent | ppserver/src/config/yaml/emitter.c:1765-1783 | Break and spaces exactly as needed to reach the indentation, and the new column and flags |
| ScalarEmitter.Emitter.WriteIndicator | ppserver/src/config/yaml/emitter.c:1785-1809 | The indicator with its space if one is needed, and the new column and flags |
| ScalarEmitter.Emitter.WriteEscape | ppserver/src/config/yaml/emitter.c:2038-2140 | The escape of one character: short letter, or x, u, U with two, four or eight digits |
| ScalarEmitter.Emitter.WriteHexDigits | ppserver/src/config/yaml/emitter.c:2135-2139 | The loop from the top digit down writes the upper-case hexadecimal form of fixed width |
| ScalarEmitter.Emitter.WriteDoubleQuotedScalar | ppserver/src/config/yaml/emitter.c:2020-2174 | Output, column and flags after the loop are those of the ink that the round trip is proved about |
| ScalarEmitter.Emitter.WriteSingleQuotedScalar | ppserver/src/config/yaml/emitter.c:1957-2018 | Output, column and flags after the loop are those of the ink that the round trip is proved about |
| ScalarEmitter.Emitter.WriteBlockScalarHints | ppserver/src/config/yaml/emitter.c:2176-2232 | The indentation hint exactly for a leading space or break, the chomping hint found by walking back from the end, and the column and flags behind them |
| ScalarEmitter.Emitter.WriteLiteralScalar | ppserver/src/config/yaml/emitter.c:2234-2271 | Output, column and flags after the loop are those of the ink that the round trip is proved about |
| ScalarEmitter.Emitter.WritePlainScalar | ppserver/src/config/yaml/emitter.c:1897-1955 | Output, column and flags after the loop over spaces, breaks and other characters, with its folds |
| ScalarEmitter.Emitter.WriteFoldedScalar | ppserver/src/config/yaml/emitter.c:2273-2328 | Header and lines with the doubled breaks found by looking past a run of breaks, and the folds at single spaces |
| ScalarEmitter.Emitter.ProcessAnchor | ppserver/src/config/yaml/emitter.c:1240-1252 | Indicator and name of an anchor or alias, nothing without one |
| ScalarEmitter.Emitter.ProcessTag | ppserver/src/config/yaml/emitter.c:1258-1287 | Handle and escaped suffix, or the escaped tag in the verbatim form |
| ScalarEmitter.Emitter.ProcessScalar | ppserver/src/config/yaml/emitter.c:1293-1326 | The value in each of the five styles |
| Contents.AcceptedScalarsHaveAStyle | ppserver/src/config/yaml/emitter.c:1678-1747 | Where anchor and tag are accepted, a style is found exactly for the scalars that the emitter accepts |
| ScalarEmitter.Emitter.IncreaseIndent | ppserver/src/config/yaml/emitter.c:402-417 | The old indent is pushed; the new one depends on it, on flow and on indentless |
| ScalarEmitter.Emitter.SelectScalarStyle | ppserver/src/config/yaml/emitter.c:1178-1234 | The chosen style, or the error for a scalar without tag and implicit flags, and whether the tag `!` has to be written |
| ScalarEmitter.Emitter.EmitScalar | ppserver/src/config/yaml/emitter.c:1018-1035 | Style selection, anchor, tag, raised indent, the value in whatever style was chosen, and the indent and its stack as before |
| ScalarScanner.Scanner.ReadLine | ppserver/src/config/yaml/scanner.c:531-567 | A break is consumed as one, CR LF too, and gives the normalised character; line and column follow |
| ScalarScanner.Scanner.Skip | ppserver/src/config/yaml/scanner.c:494-529 | Each call is at a character in front of the NUL, position and unread characters always being the whole input |
| ScalarScanner.Scanner.PeekHex | ppserver/src/config/yaml/scanner.c:3214-3228 | The digits ahead as a number, none if one is not hexadecimal; nothing is consumed |
| ScalarScanner.Scanner.ScanEscape | ppserver/src/config/yaml/scanner.c:3094-3263 | The escaped character and the exact number of characters consumed, or the error for an unknown escape, a wrong digit, a surrogate or a value too large |
| ScalarScanner.Scanner.ScanFlowScalar | ppserver/src/config/yaml/scanner.c:3011-3373 | Value and position after the nested loops are those of the scan that the round trips are proved about, errors included |
| ScalarScanner.Scanner.ScanFlowText | ppserver/src/config/yaml/scanner.c:3059-3273 | The loop over non-blank characters keeps the outcome of the whole scan and ends at a quote, a blank or an escaped break |
| ScalarScanner.Scanner.ScanFlowBlanks | ppserver/src/config/yaml/scanner.c:3284-3345 | The loop over blanks and breaks joins or folds them without changing the outcome of the whole scan, and consumes something |
| ScalarScanner.Scanner.ScanBlockHeader | ppserver/src/config/yaml/scanner.c:2752-2809 | Chomping and indentation indicators in either order; no result for the indicator 0 |
| ScalarScanner.Scanner.ScanBlockScalar | ppserver/src/config/yaml/scanner.c:2727-2942 | Value and position after the loops are those of the scan that the literal round trip is proved about, errors included |
| ScalarScanner.Scanner.ScanBlockBreaks | ppserver/src/config/yaml/scanner.c:2949-3005 | Indentation and empty lines: the level is found if it was not known, tabs are refused in the indentation, and the outcome of the whole scan is kept |
| ScalarScanner.Scanner.ScanPlainScalar | ppserver/src/config/yaml/scanner.c:3379-3569 | The nested loops leave value, position and the flag for simple keys as the specified scan of a plain scalar, its errors included |
| ScalarScanner.Scanner.ScanPlainText | ppserver/src/config/yaml/scanner.c:3419-3488 | The loop over non-blank characters joins what is pending and stops at a blank or where the scalar ends; the outcome of the whole scan stays the same |
| ScalarScanner.Scanner.ScanPlainBlanks | ppserver/src/config/yaml/scanner.c:3490-3547 | The loop over blanks and breaks makes progress and keeps the outcome of the whole scan, with the error for a tab in the indentation |
| ScalarScanner.Scanner.ScanAnchor | ppserver/src/config/yaml/scanner.c:2318-2378 | The name behind the indicator, and the error where it is empty or does not end as it must |
| NodeProperties.AnchorRoundTrip | ppserver/src/config/yaml/emitter.c:1240-1252 | The name written for an anchor or alias is scanned back whole, in front of anything that may end a name |
| Utf8.DecodeEncode | ppserver/src/config/yaml/reader.c:228-297 | Decoding the encoding of a scalar value, followed by anything, gives the value and its width |
| Utf8.EncodeDecode | ppserver/src/config/yaml/reader.c:228-297 | What is decoded was the only encoding of its value: overlong forms and surrogates are not accepted |
| Utf8.MacrosTestCharacters | ppserver/src/config/yaml/yaml_private.h:235-324 | On UTF-8 text the octet macros for printable, break, byte order mark and ASCII test exactly the character |
| GraphRoundTrip.GraphRoundTrip | ppserver/src/config/yaml/loader.c:164-431 | For every document graph, shared or cyclic: loading the dumped events gives exactly the nodes the root reaches, each once, renumbered in order of first visit, with every reference renumbered, up to the tags `!`; the following events are left |
| GraphRoundTrip.TagsAreKept | ppserver/src/config/yaml/loader.c:282-313 | The loaded tags are the dumped ones if and only if no node the root reaches is tagged `!` |
| DumpOrder.RootAnchors | ppserver/src/config/yaml/dumper.c:206-238 | Anchor ids differ, a node has one if and only if the second pass visits it more than once, so no alias is ever without an anchor |
| DumpOrder.DumpsReachableNodes | ppserver/src/config/yaml/dumper.c:263-294 | The second pass serializes exactly the nodes reachable from the root, each once, the root first |
| DumpOrder.NodeCounts | ppserver/src/config/yaml/dumper.c:206-238 | Both passes follow the same edges: the references counted by the first are the visits of the second |
| AnchorText.AnchorNamesDiffer | ppserver/src/config/yaml/dumper.c:247-257 | Different anchor ids have different texts, however many digits they need |
| Dumper.Dumper.AnchorNode | ppserver/src/config/yaml/dumper.c:206-238 | The recursion over the array of anchors counts visits and gives ids as specified, for cyclic graphs too |
| Dumper.Dumper.AnchorSequence | ppserver/src/config/yaml/dumper.c:217-222 | The first pass over the items of a sequence |
| Dumper.Dumper.AnchorMapping | ppserver/src/config/yaml/dumper.c:223-229 | The first pass over keys and values in turn |
| Dumper.Dumper.DumpNode | ppserver/src/config/yaml/dumper.c:263-294 | An alias for a node serialized before, else its events; which nodes are serialized changes accordingly |
| Dumper.Dumper.DumpSequence | ppserver/src/config/yaml/dumper.c:338-362 | The events of all items in order; the ids are not changed |
| Dumper.Dumper.DumpMapping | ppserver/src/config/yaml/dumper.c:368-393 | The events of all keys and values in order; the ids are not changed |
| Dumper.Dumper.DumpRoot | ppserver/src/config/yaml/dumper.c:111-160 | Both passes together emit the events the round trip is proved about |
| Loader.Loader.RegisterAnchor | ppserver/src/config/yaml/loader.c:224-253 | A new anchor is registered for its node, a duplicate is an error |
| Loader.Loader.LoadAlias | ppserver/src/config/yaml/loader.c:259-276 | The node of the anchor, or none |
| Loader.Loader.LoadNode | ppserver/src/config/yaml/loader.c:200-218 | Nodes, anchors, result and events left are those of the specified composer, its failures and failed assertion included |
| Loader.Loader.LoadSequence | ppserver/src/config/yaml/loader.c:319-370 | Items are pushed in place until the end event, as specified |
| Loader.Loader.LoadMapping | ppserver/src/config/yaml/loader.c:376-431 | Pairs are pushed in place until the end event, as specified |
| Loader.Loader.LoadDocument | ppserver/src/config/yaml/loader.c:164-194 | One document behind its start event, up to its end event |
| LoadedStreams.LoadingNeverAborts | ppserver/src/config/yaml/loader.c:164-218 | On every prefix of the event grammar the assertions on event types hold, and the end is reached only by a complete word |
| LoadedStreams.ParsedStreamsLoadWithoutAbort | ppserver/src/config/yaml/loader.c:66-112 | Whatever the tokens, loading what the parser makes of them never fails an assertion |
| LoadedStreams.LoadedDocumentsAreClosed | ppserver/src/config/yaml/loader.c:319-431 | Every loaded document, from whatever events, refers only to its own nodes |
| ParserRuns.EveryRunIsWellFormed | ppserver/src/config/yaml/parser.c:225-304 | For every token sequence: no stack underflows, at most three events per token and one more, the events are a prefix of the stream grammar with keys and values alternating, and a run that reaches the end of the stream is a complete word |
| ParserRuns.StepKeepsInv | ppserver/src/config/yaml/parser.c:225-304 | Every step of a reachable machine keeps the stacks in step with the open collections (no mark for indentless ones, no state for single pairs) and its event is the next one of the grammar |
| ParserRuns.StepSpends | ppserver/src/config/yaml/parser.c:225-304 | Every step lowers a bound computed from tokens left, states and the current state, also where no token is taken |
| ParserTrees.ParserInvertsLinearisation | ppserver/src/config/yaml/parser.c:528-1203 | For every tree of scalars, aliases and collections, keyless pairs included where the law holds, and any rest: from a node state the tokens of the tree give exactly its events, leave the rest, and the machine returns to the pushed state with both stacks as before |
| ParserTrees.NodeParses | ppserver/src/config/yaml/parser.c:528-717 | The same for a node that a state function parses in place |
| ParserTrees.MissingSingleKeyLosesTheValue | ppserver/src/config/yaml/parser.c:1012-1034 | Behind an empty key of a single pair with any value: the colon is skipped too, key and value come out empty, and the sequence then fails on the value |
| ParserTrees.KeylessPairParsesExactly | ppserver/src/config/yaml/parser.c:1012-1086 | Behind the start of its mapping, a single pair without a key, in front of whatever continues the sequence, gives its events and lets the sequence go on behind it if and only if it has a colon and no value |
| ParserTrees.FurtherKeylessPairParsesExactly | ppserver/src/config/yaml/parser.c:950-1086 | The same for an entry behind a comma, from the comma on |
| ParserTrees.FirstKeylessPairParsesExactly | ppserver/src/config/yaml/parser.c:950-1086 | The same for the first entry, as in `[? : value]`, from the bracket on |
| ParserTrees.TokensThenMore | ppserver/src/config/yaml/parser.c:528-1203 | The tokens of a tree are put in front of any rest unchanged |
| ParsedDocuments.SingleDocumentParses | ppserver/src/config/yaml/parser.c:312-497 | A whole stream with one bare document runs to its end and gives exactly start events, the events of the tree and end events |
| ParserMachine.Machine.ParseStreamStart | ppserver/src/config/yaml/parser.c:312-331 | The stream start event and the first document state, or the error |
| ParserMachine.Machine.ParseDocumentStart | ppserver/src/config/yaml/parser.c:341-431 | Implicit and explicit documents, directives, and the end of the stream |
| ParserMachine.Machine.ParseDocumentContent | ppserver/src/config/yaml/parser.c:439-459 | An empty document in front of a directive, an indicator or the end; else a node |
| ParserMachine.Machine.ParseDocumentEnd | ppserver/src/config/yaml/parser.c:469-497 | The end event, explicit or not; the directives are forgotten |
| ParserMachine.Machine.ProcessDirectives | ppserver/src/config/yaml/parser.c:1232-1334 | Version and tag directives with the errors for duplicates and other versions, and the defaults added |
| ParserMachine.Machine.AppendDefault | ppserver/src/config/yaml/parser.c:1340-1373 | A default directive is added only if its handle is new |
| ParserMachine.Machine.TakeProperties | ppserver/src/config/yaml/parser.c:552-592 | Anchor and tag in either order, each at most once |
| ParserMachine.Machine.Resolve | ppserver/src/config/yaml/parser.c:594-629 | Prefix of the handle and suffix, or no result for an unknown handle |
| ParserMachine.Machine.ParseNode | ppserver/src/config/yaml/parser.c:528-717 | Alias, properties and content, the empty node behind properties, or the error |
| ParserMachine.Machine.ParseBlockSequenceEntry | ppserver/src/config/yaml/parser.c:725-776 | An entry, an empty entry, or the end with its mark popped |
| ParserMachine.Machine.ParseIndentlessSequenceEntry | ppserver/src/config/yaml/parser.c:784-820 | An entry, an empty entry, or the end without a mark and without taking a token |
| ParserMachine.Machine.ParseBlockMappingKey | ppserver/src/config/yaml/parser.c:834-886 | A key, an empty key, or the end with its mark popped |
| ParserMachine.Machine.ParseBlockMappingValue | ppserver/src/config/yaml/parser.c:900-934 | A value or an empty one |
| ParserMachine.Machine.ParseFlowSequenceEntry | ppserver/src/config/yaml/parser.c:950-1004 | An entry behind its comma, the start of a single pair, or the end |
| ParserMachine.Machine.ParseFlowSequenceEntryMappingKey | ppserver/src/config/yaml/parser.c:1012-1034 | The key of a single pair; behind an empty one a token is skipped |
| ParserMachine.Machine.ParseFlowSequenceEntryMappingValue | ppserver/src/config/yaml/parser.c:1042-1065 | The value of a single pair or an empty one |
| ParserMachine.Machine.ParseFlowSequenceEntryMappingEnd | ppserver/src/config/yaml/parser.c:1073-1086 | The end event of a single pair |
| ParserMachine.Machine.ParseFlowMappingKey | ppserver/src/config/yaml/parser.c:1102-1165 | A key behind its comma, a lone key, or the end |
| ParserMachine.Machine.ParseFlowMappingValue | ppserver/src/config/yaml/parser.c:1173-1203 | A value or an empty one |
| ParserMachine.Machine.Step | ppserver/src/config/yaml/parser.c:225-304 | The dispatcher: fields and stacks change in place as the machine that all runs are proved about |
| ScannerRuns.SimpleKeyInsertion | ppserver/src/config/yaml/scanner.c:1681-1757 | At the colon of a simple key: KEY, and BLOCK-MAPPING-START if a block opens, go into the queue in front of the token the key starts with, on the line of the colon and at most 1024 characters back; every other possible key still names its token |
| ScannerRuns.KeysAreNear | ppserver/src/config/yaml/scanner.c:1055-1089 | After stale keys are dropped every possible key is on the current line and at most 1024 characters back |
| ScannerInvariants.FetchProgresses | ppserver/src/config/yaml/scanner.c:859-1048 | Every fetch from a reachable state keeps the invariant (a key per flow level and one more, possible keys rising inside the queue, indents rising from -1, starts minus ends of blocks equal to the depth of the indent stack) and consumes input or queues a stream token, never popping an empty stack |
| ScannerInvariants.InsertKeyKeepsCore | ppserver/src/config/yaml/scanner.c:1690-1715 | The retroactive insertion lands inside the queue and keeps the invariant once the key is used up |
| ScannerInvariants.RollKeepsCore | ppserver/src/config/yaml/scanner.c:1208-1247 | Opening a block pushes an indent and queues its start token, or does nothing; the invariant holds |
| ScannerInvariants.UnrollKeepsCore | ppserver/src/config/yaml/scanner.c:1256-1283 | Closing blocks queues one BLOCK-END per popped indent, only at the end of the queue, until the indent is at most the column |
| ScannerInvariants.RemoveKeepsCore | ppserver/src/config/yaml/scanner.c:1140-1161 | The top key is no longer possible and all else holds on; an error for a required one |
| ScannerInvariants.StaleKeepsCore | ppserver/src/config/yaml/scanner.c:1055-1089 | Dropping stale keys keeps the invariant |
| ScannerInvariants.FetchStreamEndSteps | ppserver/src/config/yaml/scanner.c:1327-1359 | The end of the stream closes all blocks, drops the keys and queues STREAM-END last |
| ScannerInvariants.ScanToNextMoves | ppserver/src/config/yaml/scanner.c:1917-1981 | White space and comments only move the mark forward; a new line in a block allows simple keys, else the flag is kept |
| ScannerRuns.FetchMoreSettles | ppserver/src/config/yaml/scanner.c:799-853 | When more tokens have been fetched there is a head that no possible key can still point to; the fetching ends |
| ScannerRuns.NothingIsFetchedBehindTheEnd | ppserver/src/config/yaml/scanner.c:799-853 | After STREAM-END is queued no token is fetched any more |
| ScannerRuns.DeliverKeepsInv | ppserver/src/config/yaml/scanner.c:741-775 | Handing over the head keeps the invariant, so key numbers are never below the tokens parsed |
| ScannerRuns.EveryScanIsBalanced | ppserver/src/config/yaml/scanner.c:741-853 | For every text and whatever its scalars span: the run ends without underflow after at most four tokens per character and eight more, and no prefix delivered closes more blocks than it opened |
| ScannerRuns.PositionIsConserved | ppserver/src/config/yaml/scanner.c:494-567 | At the end of every run the index of the mark and the unread characters add up to the input; a run that delivers STREAM-END has read every character and not the NUL behind them |
| ScannerRuns.InvIsWithin | ppserver/src/config/yaml/scanner.c:494-567 | The same in every reachable state |
| ContentReaches.ContentIsAReach | ppserver/src/config/yaml/scanner.c:1763-1910 | The scan of an anchor, alias, tag or scalar, with all it may refuse, is the step of the token machine for one of the lengths that the laws on runs allow: it ends where the content ends, and position and unread characters add up to the text |
| ContentReaches.ContentIsDispatched | ppserver/src/config/yaml/scanner.c:971-1040 | Where such a content starts, the dispatcher calls its fetcher |
| TokenFetcher.Fetcher.SkipOne | ppserver/src/config/yaml/scanner.c:494-498 | Every call is at a character of the input, so the NUL is never skipped |
| TokenFetcher.Fetcher.SkipBreak | ppserver/src/config/yaml/scanner.c:500-513 | Every call is at a line break; CR LF counts for two |
| ScannerRuns.StreamEndBalances | ppserver/src/config/yaml/scanner.c:1327-1359 | When STREAM-END is delivered it is the last token, and outside flow collections every block is closed |
| ScannerRuns.DispatchAborts | ppserver/src/config/yaml/scanner.c:1096-1134 | A fetch fails the assertion in save_simple_key if and only if a token that may be a key starts in a block at the indentation column where none is allowed |
| ScannerRuns.FetchAborts | ppserver/src/config/yaml/scanner.c:859-1048 | The same for a whole fetch from any reachable state: past white space, with stale keys dropped and deeper blocks closed |
| ScannerRuns.RightOfIndentIsSafe | ppserver/src/config/yaml/scanner.c:1113 | From a state to the right of the indentation the assertion holds |
| ScannerRuns.RightRunsDoNotAbort | ppserver/src/config/yaml/scanner.c:1113 | On every run whose scalars, anchors and flow ends stop to the right of the indentation the assertion never fails |
| ScannerAbort.TheAssertionCanFail | ppserver/src/config/yaml/scanner.c:1113 | A seven-character text on which the assertion, commented as impossible, does fail |
| TokenFetcher.Fetcher.StaleSimpleKeys | ppserver/src/config/yaml/scanner.c:1055-1089 | Keys on earlier lines or too far back are dropped, or the error for a required one: the object changes as the scanner state that all runs are proved about |
| TokenFetcher.Fetcher.SaveSimpleKey | ppserver/src/config/yaml/scanner.c:1096-1134 | The top key is replaced where keys are allowed; the assertion is an outcome: the object changes as the scanner state that all runs are proved about |
| TokenFetcher.Fetcher.RemoveSimpleKey | ppserver/src/config/yaml/scanner.c:1140-1161 | The top key is dropped, or the error: the object changes as the scanner state that all runs are proved about |
| TokenFetcher.Fetcher.RollTo | ppserver/src/config/yaml/scanner.c:1208-1247 | Indent, stack and queue; insertion at a number or at the end: the object changes as the scanner state that all runs are proved about |
| TokenFetcher.Fetcher.UnrollTo | ppserver/src/config/yaml/scanner.c:1256-1283 | Indent, stack and queue: the object changes as the scanner state that all runs are proved about |
| TokenFetcher.Fetcher.ScanToToken | ppserver/src/config/yaml/scanner.c:1917-1981 | Mark and flag behind white space, comments and breaks: the object changes as the scanner state that all runs are proved about |
| TokenFetcher.Fetcher.FetchEnd | ppserver/src/config/yaml/scanner.c:1327-1359 | The fetch of STREAM-END: the object changes as the scanner state that all runs are proved about |
| TokenFetcher.Fetcher.FetchDirectiveToken | ppserver/src/config/yaml/scanner.c:1365-1395 | The fetch of a directive of any length: the object changes as the scanner state that all runs are proved about |
| TokenFetcher.Fetcher.FetchDocumentToken | ppserver/src/config/yaml/scanner.c:1401-1440 | The fetch of a document indicator of three characters: the object changes as the scanner state that all runs are proved about |
| TokenFetcher.Fetcher.FetchFlowStartToken | ppserver/src/config/yaml/scanner.c:1446-1483 | A flow collection start: key saved, level and key stack raised: the object changes as the scanner state that all runs are proved about |
| TokenFetcher.Fetcher.FetchFlowEndToken | ppserver/src/config/yaml/scanner.c:1489-1526 | A flow collection end: key removed, level and key stack lowered: the object changes as the scanner state that all runs are proved about |
| TokenFetcher.Fetcher.FetchBlockEntryToken | ppserver/src/config/yaml/scanner.c:1567-1622 | A block entry, in its block where it may open one, or the error: the object changes as the scanner state that all runs are proved about |
| TokenFetcher.Fetcher.FetchKeyToken | ppserver/src/config/yaml/scanner.c:1628-1675 | An explicit key: the object changes as the scanner state that all runs are proved about |
| TokenFetcher.Fetcher.FetchValueToken | ppserver/src/config/yaml/scanner.c:1681-1757 | A value, of a simple key or not: the object changes as the scanner state that all runs are proved about |
| TokenFetcher.Fetcher.FetchKeyLikeToken | ppserver/src/config/yaml/scanner.c:1763-1818 | An anchor, alias, tag, flow or plain scalar of any length: the key is saved first: the object changes as the scanner state that all runs are proved about |
| TokenFetcher.Fetcher.FetchBlockScalarToken | ppserver/src/config/yaml/scanner.c:1824-1849 | A block scalar of any length: the key is removed first: the object changes as the scanner state that all runs are proved about |
| TokenFetcher.Fetcher.FetchNext | ppserver/src/config/yaml/scanner.c:859-1048 | One fetch, by the characters ahead: the object changes as the scanner state that all runs are proved about |
| TokenFetcher.Fetcher.FetchMoreTokens | ppserver/src/config/yaml/scanner.c:799-853 | Fetching until the head is settled: the object changes as the scanner state that all runs are proved about |
| TokenFetcher.Fetcher.HeadIsOpen | ppserver/src/config/yaml/scanner.c:816-831 | Whether a possible key still has the number of the head |
| TokenFetcher.Fetcher.Take | ppserver/src/config/yaml/scanner.c:741-775 | Head, queue and count after a delivery |
| TokenQueue.Queue.Extend | ppserver/src/config/yaml/api.c:135-163 | Doubling only when the window starts at the front, else moving it there; there is room and the contents stay |
| TokenQueue.Queue.Enqueue | ppserver/src/config/yaml/yaml_private.h:448-456 | The contents with the value at the end, whatever the window |
| TokenQueue.Queue.Dequeue | ppserver/src/config/yaml/yaml_private.h:457-459 | The head, and the contents without it |
| TokenQueue.Queue.Insert | ppserver/src/config/yaml/yaml_private.h:460-470 | The contents with the value at the index; what was behind moves up in place |
| ReaderRuns.ChunksDoNotMatter | ppserver/src/config/yaml/reader.c:141-464 | For every input that decodes, every way it is cut into chunks and every sequence of requests and takes: taken and unread characters together are a prefix of the one-shot decoding with one NUL, all of it at the end, and the NUL is taken only by a take behind the last character |
| ReaderRuns.ErrorsAreReal | ppserver/src/config/yaml/reader.c:141-464 | A reader error on any run means that the input does not decode |
| ReaderRuns.UpdateKeepsExpected | ppserver/src/config/yaml/reader.c:141-464 | A request keeps what is still to be delivered, and is met unless the input has ended |
| ReaderRuns.UpdateAppends | ppserver/src/config/yaml/reader.c:165-177 | A request only appends to the unread characters |
| ReaderRuns.DecodedTextHasNoNul | ppserver/src/config/yaml/reader.c:404-418 | The decoder lets no NUL through, so the one at the end is the only one |
| ReaderRuns.BufferNeverOverflows | ppserver/src/config/yaml/reader.c:165-205 | With requests of at most eight characters decoding never writes past the end of the buffer |
| Encodings.MoreBytes | ppserver/src/config/yaml/reader.c:204-418 | A character decoded, or refused, from the bytes there are is the same whatever bytes come behind |
| Encodings.MoreBytesDetectTheSame | ppserver/src/config/yaml/reader.c:50-87 | Three bytes decide the encoding |
| ReaderBuffers.BufferedReader.UpdateRawBuffer | ppserver/src/config/yaml/reader.c:93-132 | Unread raw bytes move to the front and the bytes of the next read come behind them |
| ReaderBuffers.BufferedReader.DetermineEncoding | ppserver/src/config/yaml/reader.c:50-87 | The encoding and the bytes behind a byte order mark, however few bytes each read gives |
| ReaderBuffers.BufferedReader.ReadUtf8 | ppserver/src/config/yaml/reader.c:228-297 | The character, the octets missing, or the error for a wrong lead, trail, length or value |
| ReaderBuffers.BufferedReader.ReadUtf16 | ppserver/src/config/yaml/reader.c:299-400 | The character from one unit or a surrogate pair in either byte order, the octets missing, or the error |
| ReaderBuffers.BufferedReader.Put | ppserver/src/config/yaml/reader.c:425-450 | The octets of the character at the end of the buffer |
| ReaderBuffers.BufferedReader.DecodeRawBuffer | ppserver/src/config/yaml/reader.c:190-451 | All whole characters decoded, growing the buffer at most by half as much again as the raw bytes |
| ReaderBuffers.BufferedReader.Update | ppserver/src/config/yaml/reader.c:141-464 | A request: the in-place buffers hold what the reader state specifies, one more NUL at the end of the input |
| ReaderBuffers.BufferedReader.Take | ppserver/src/config/yaml/scanner.c:494-529 | The character at the pointer, put together from as many octets as it has; the index goes up and the unread count down, so that both count the characters decoded so far |
| Writing.OutputIsReadBack | ppserver/src/config/yaml/writer.c:31-140 | In every encoding: reading the output gives the text if all its characters survive the recoding, and is an error if one does not |
| Writing.SurrogatesDecodeIfBitsAreZero | ppserver/src/config/yaml/writer.c:112-123 | A character above U+FFFF comes back exactly if bits 10 to 15 of its offset are zero, and is malformed else |
| Writing.OutputDecodesIfAllSurvive | ppserver/src/config/yaml/writer.c:31-140 | The same for the text behind the byte order mark |
| Writing.FlushPoints | ppserver/src/config/yaml/writer.c:31-140 | Where the output is flushed makes no difference |
| OutputBuffers.BufferedWriter.Put | ppserver/src/config/yaml/emitter.c:8-48 | A character goes in, flushing first when fewer than five octets are free; output and buffer together grow by its bytes |
| OutputBuffers.BufferedWriter.Flush | ppserver/src/config/yaml/writer.c:31-140 | The write handler gets the recoded buffer, which is empty then |
| OutputBuffers.BufferedWriter.RecodeBuffer | ppserver/src/config/yaml/writer.c:65-124 | Every character of the buffer as one unit or two; the raw buffer never overflows |
| PortableOutput.DoubleQuotedIsPortable | ppserver/src/config/yaml/emitter.c:2034-2036 | Between double quotes nothing above U+FFFF is written, whatever the value |
| PortableOutput.SingleQuotedIsPortable | ppserver/src/config/yaml/emitter.c:1579-1656 | A value allowed in single quotes has no character above U+FFFF |
| PortableOutput.LiteralIsPortable | ppserver/src/config/yaml/emitter.c:1579-1656 | A value allowed in a block has no character above U+FFFF |
| PortableOutput.PlainIsPortable | ppserver/src/config/yaml/emitter.c:1897-1955 | A value allowed plain is allowed in single quotes, and has no character above U+FFFF either |
| PortableOutput.FoldedIsPortable | ppserver/src/config/yaml/emitter.c:2273-2328 | What is written folded has no character above U+FFFF |
| PortableOutput.OthersAreDoubleQuoted | ppserver/src/config/yaml/emitter.c:1178-1234 | Whatever style was asked for: only a value without such characters is not double-quoted |
| PortableOutput.ScalarIsPortable | ppserver/src/config/yaml/emitter.c:1293-1326 | In whatever style is chosen nothing above U+FFFF is written |
| WholeOutput.TagContentIsPortable | ppserver/src/config/yaml/emitter.c:1849-1895 | Percent escapes leave nothing above U+FFFF in any tag or prefix |
| WholeOutput.AnchorIsPortable | ppserver/src/config/yaml/emitter.c:1399-1429 | Nor does an anchor that the analysis accepts |
| WholeOutput.ContentIsPortable | ppserver/src/config/yaml/emitter.c:1678-1747 | Whatever an accepted event holds: anchors, tags, values and directives are written without such characters |
| WholeOutput.ProcessKeepsClean | ppserver/src/config/yaml/emitter.c:423-488 | Every step of the machine keeps the output free of them, if what is written for events is |
| WholeOutput.OutputOfEveryWordIsReadBack | ppserver/src/config/yaml/writer.c:31-140 | For every sequence of events, as far as the emitter accepts it, and all settings: nothing above U+FFFF is ever buffered, and in every encoding the whole output is read back as what was written |
| PortableOutput.PortableTextIsReadBack | ppserver/src/config/yaml/writer.c:31-140 | Text without such characters is read back in all three encodings |
| PortableOutput.QuotedScalarThroughAnyEncoding | ppserver/src/config/yaml/emitter.c:1178-1234 | Emitter, writer, reader and scanner together: a quoted scalar comes back in every encoding, in front of whatever else the emitter may write |
| EmitterRuns.EveryWordIsHandled | ppserver/src/config/yaml/emitter.c:280-488 | For every sequence of valid events: the emitter fails exactly where the event grammar does, no stack underflows, and with at most three events waiting it is at the position of the grammar, with the flow level of the open flow collections and the indents of the open ones |
| EmitterRuns.ProcessAgrees | ppserver/src/config/yaml/emitter.c:423-488 | Every step of a reachable emitter accepts an event exactly if the grammar does, and keeps stacks and flow level in step with the open collections |
| EmitterRuns.ProcessAllAgrees | ppserver/src/config/yaml/emitter.c:423-488 | The same over whole words with all events in view |
| EmitterLayout.NodeIsPrinted | ppserver/src/config/yaml/emitter.c:969-1083 | The machine writes for every tree what a recursive printer without stacks writes, and comes back with states, indents and flow level as before |
| EmitterLayout.DocumentIsPrinted | ppserver/src/config/yaml/emitter.c:676-684 | The same from the start of a document to its end state |
| EmitterQueue.LookaheadSuffices | ppserver/src/config/yaml/emitter.c:308-357 | A step taken as soon as the queue is long enough is the step with the whole stream in view; so the checks for an empty collection and a simple key see enough |
| EmitterQueue.EmitAllFollows | ppserver/src/config/yaml/emitter.c:280-297 | The queueing emitter followed by its queue does what the emitter without a queue does |
| EmitterQueue.AtMostFourWait | ppserver/src/config/yaml/emitter.c:308-357 | Three events at most wait between calls, so four at most are ever queued |
| EmitterQueue.NothingWaitsBehindDocuments | ppserver/src/config/yaml/emitter.c:308-357 | After a document end no event waits |
| EmitterMachine.Machine.Emit | ppserver/src/config/yaml/emitter.c:280-297 | The event is queued and all that can be emitted is: state, stacks, levels and text change in place as the machine that all runs are proved about |
| EmitterMachine.Machine.NeedMoreEvents | ppserver/src/config/yaml/emitter.c:308-357 | Whether the head must wait: one, two or three more events unless all it opened is closed |
| EmitterMachine.Machine.Step | ppserver/src/config/yaml/emitter.c:423-488 | The dispatcher: state, stacks, levels and text change in place as the machine that all runs are proved about |
| EmitterMachine.Machine.EmitDocumentStart | ppserver/src/config/yaml/emitter.c:550-670 | The first or a further document, or the end of the stream, with the marker behind an open-ended document and the directives put in force: state, stacks, levels and text change in place as the machine that all runs are proved about |
| EmitterMachine.Machine.EmitDocumentEnd | ppserver/src/config/yaml/emitter.c:690-721 | The end of a document; its directives are dropped: state, stacks, levels and text change in place as the machine that all runs are proved about |
| EmitterMachine.Machine.EmitNode | ppserver/src/config/yaml/emitter.c:969-998 | Alias, scalar, or a collection in the flow or block state its style, level and emptiness ask for: state, stacks, levels and text change in place as the machine that all runs are proved about |
| EmitterMachine.Machine.EmitFlowSequenceItem | ppserver/src/config/yaml/emitter.c:728-771 | Bracket, comma, line change, and the end: state, stacks, levels and text change in place as the machine that all runs are proved about |
| EmitterMachine.Machine.EmitFlowMappingKey | ppserver/src/config/yaml/emitter.c:777-834 | Brace, comma, line change, simple or marked key, and the end: state, stacks, levels and text change in place as the machine that all runs are proved about |
| EmitterMachine.Machine.EmitFlowMappingValue | ppserver/src/config/yaml/emitter.c:840-859 | Colon and value: state, stacks, levels and text change in place as the machine that all runs are proved about |
| EmitterMachine.Machine.EmitBlockSequenceItem | ppserver/src/config/yaml/emitter.c:865-893 | Indent, dash and item, and the end; indentless under a key: state, stacks, levels and text change in place as the machine that all runs are proved about |
| EmitterMachine.Machine.EmitBlockMappingKey | ppserver/src/config/yaml/emitter.c:899-938 | Indent, simple or marked key, and the end: state, stacks, levels and text change in place as the machine that all runs are proved about |
| EmitterMachine.Machine.EmitBlockMappingValue | ppserver/src/config/yaml/emitter.c:944-963 | Colon and value: state, stacks, levels and text change in place as the machine that all runs are proved about |
| EmitterMachine.Machine.IncreaseIndent | ppserver/src/config/yaml/emitter.c:402-417 | Indent and stack: state, stacks, levels and text change in place as the machine that all runs are proved about |
| ConfStore.StoreIsAMap | ppserver/src/config/conf.c:133-196 | Over every run of setting and removing dotted names with a part from the empty store, the tree is the map that the same operations make, and with a path the map has all its prefixes |
| ConfStore.EveryPathHasAName | ppserver/src/config/conf.c:86-110 | Every path of non-empty parts without dots is what some name is split into, so the laws on names speak of all paths |
| ConfStore.NamesWithoutParts | ppserver/src/config/conf.c:86-110 | A name has no part exactly if it is nothing but dots |
| ConfStore.NextToken | ppserver/src/config/conf.c:93-108 | The next part of a name and the rest, as strtok_r gives them: one after another they are all parts |
| ConfStore.DoRefines | ppserver/src/config/conf.c:133-196 | One call with a name changes the tree as the map, and succeeds exactly if the map has no fixed value at its path, or has the path to remove |
| ConfStore.SetChanges | ppserver/src/config/conf.c:133-196 | Setting changes its own path and creates missing prefixes without a value; every other path is as before |
| ConfStore.DropChanges | ppserver/src/config/conf.c:447-475 | Removing deletes exactly the paths that continue the removed one |
| ConfStore.SetKeepsValid | ppserver/src/config/conf.c:133-196 | Siblings keep different names |
| ConfStore.FixedValuesStay | ppserver/src/config/conf.c:133-196 | A value that may not be overridden stays over every run that does not remove it or an ancestor |
| ConfStore.GetReturnsSet | ppserver/src/config/conf.c:214-225 | What was set is what is got |
| ConfTree.ConfNode.LookupChild | ppserver/src/config/conf.c:578-589 | The walk along the links finds the element with the first child of the name |
| ConfTree.ConfNode.Find | ppserver/src/config/conf.c:81-113 | The node object a dotted name leads to, part after part, none exactly if the tree has none |
| ConfTree.ConfNode.Set | ppserver/src/config/conf.c:133-196 | Given a dotted name, node objects and their linked lists change in place as the store; missing nodes are created |
| ConfTree.ConfNode.Get | ppserver/src/config/conf.c:214-225 | The value at a dotted name |
| ConfTree.ConfNode.Remove | ppserver/src/config/conf.c:463-475 | Given a dotted name, the subtree is taken out of its parent linked list in place, all else is kept |
| ConfTree.ConfNode.InsertTail | ppserver/src/config/conf.c:165-171 | A new child goes to the end of the linked list, and the node stands for the tree with it |
| ConfTree.ConfNode.RemoveChild | ppserver/src/config/conf.c:447-453 | A child is unlinked, and the node stands for the tree without it |
| TailQueue.TailQueue.InsertTail | ppserver/src/config/queue.h:372-378 | Written through the address of the last link, the links in both directions stand for the list with the element at the end |
| TailQueue.TailQueue.Remove | ppserver/src/config/queue.h:396-406 | Written through the address of the link to the element, first or not, the links stand for the list without it |
| TailQueue.TailQueue.ToSeq | ppserver/src/config/queue.h:344-348 | The walk visits every element in order |
| ConfLoading.PropertiesDoNotMatter | ppserver/src/config/conf-yaml-loader.c:77-208 | For every event sequence, node and state of the loop: with all anchors, tags, styles, implicit flags and tag directives removed the loader makes the same node, or fails the same, and leaves the same events |
| ConfLoading.DocumentIsLoaded | ppserver/src/config/conf-yaml-loader.c:77-208 | Every stream whose events, without their properties, are a document of version 1.1 with a mapping at its root loads to the denotation of the mapping |
| ConfLoading.MappingIsParsed | ppserver/src/config/conf-yaml-loader.c:77-208 | A recursive call takes the events of a mapping, whatever their properties, through its end, whatever comes behind, and makes the node what the mapping denotes |
| ConfLoading.ItemsAreParsed | ppserver/src/config/conf-yaml-loader.c:113-190 | The same for a sequence: items are named by their index, and those of a sequence directly inside go into the outer one |
| ConfLoading.ValueIsParsed | ppserver/src/config/conf-yaml-loader.c:156-190 | The value behind a key, whatever its properties, goes to the child of the key, and a key is expected again |
| ConfStreams.EventsAreOfPlainTree | ppserver/src/config/yaml/parser.c:528-1203 | The events of a parsed tree without aliases and with scalar keys are, but for their properties, those of the plain tree: block or flow, single pairs as mappings, missing nodes as empty scalars |
| ConfStreams.ConfigurationParses | ppserver/src/config/yaml/parser.c:312-497 | A stream with a version directive, tag directives and one document runs to its end and gives exactly start events, the events of the tree and end events |
| ConfStreams.ConfigurationIsLoaded | ppserver/src/config/conf-yaml-loader.c:77-208 | From tokens to the store: for all tag directives and every such tree with a mapping at its root, parsing is complete and loading its events makes the root what the plain mapping denotes |
| ConfStreams.UnversionedIsRefused | ppserver/src/config/conf-yaml-loader.c:94-112 | A stream with one bare document is parsed completely, but never loaded |
| ConfLoader.Loader.Parse | ppserver/src/config/conf-yaml-loader.c:77-208 | The event loop with its recursive calls changes the node objects in place as the specified call, takes the same events, and fails exactly where it does |
| ConfLoader.Loader.ParseInto | ppserver/src/config/conf-yaml-loader.c:166-189 | The recursive call on the object `node` points to, a child or the parent itself; the siblings stay as they are |
| ConfLoader.Loader.ParseItem | ppserver/src/config/conf-yaml-loader.c:174-184 | A mapping in a sequence: a new item named by the index, and what the call makes of it |
| ConfLoader.Loader.TakeScalar | ppserver/src/config/conf-yaml-loader.c:113-165 | A scalar as an item, a key or a value: objects, state and index change as specified |
| ConfLoader.Loader.FindOrAdd | ppserver/src/config/conf-yaml-loader.c:125-153 | The child object for a key, found by the key as it is or added under its changed name, and the note of the first key |
| ConfLoading.Mangle | ppserver/src/config/conf-yaml-loader.c:57-67 | Every underscore becomes a hyphen, nothing else changes |
| ConfLoading.MergedKeys | ppserver/src/config/conf-yaml-loader.c:133-153 | The child for a key has its name, and siblings keep different names, exactly under the conditions stated: the key is found, or it is stored under a name that is kept, or is new |
| ConfLoading.KeysAreMerged | ppserver/src/config/conf-yaml-loader.c:133-153 | A new key given twice is listed once if and only if it has no underscore or stands in a group whose names are kept |
| ConfLoading.MangledKeysAreNotMerged | ppserver/src/config/conf-yaml-loader.c:133-152 | An instance of a key that is listed twice: looked up as `a_b`, stored as `a-b` |
| ConfLoading.NestedSequencesAreFlattened | ppserver/src/config/conf-yaml-loader.c:166-170 | A sequence directly in a sequence, whatever it holds and whatever the properties of its events, at any index and in front of anything: its items go into the outer one, named from 0 again, and the outer index goes on as before |
| Tags.TagRoundTrip | ppserver/src/config/yaml/emitter.c:1435-1472 | For every non-empty tag and list of well-formed different handles: what is written, scanned as a tag and resolved under the same list, is the tag |
| Tags.NamedTagIsRead | ppserver/src/config/yaml/scanner.c:2429-2442 | A handle with two exclamation marks is read as one and the suffix behind it undoes the percent escapes |
| Tags.PrimaryTagIsRead | ppserver/src/config/yaml/scanner.c:2429-2468 | The handle of one exclamation mark is read as one, although what follows might have been a handle |
| Tags.VerbatimTagIsRead | ppserver/src/config/yaml/scanner.c:2397-2424 | A verbatim tag is read with an empty handle |
| Tags.ContentIsRead | ppserver/src/config/yaml/scanner.c:2566-2721 | Escaped text is read back as its octets, up to a character that cannot belong to a tag |
| Tags.WriteTagContent | ppserver/src/config/yaml/emitter.c:1849-1895 | The loop writes safe characters as they are and every octet of the others as an escape |
| Tags.ScanTagUri | ppserver/src/config/yaml/scanner.c:2566-2652 | The loop reads characters and escapes as the specified scan, its errors included |
| Tags.ScanUriEscapes | ppserver/src/config/yaml/scanner.c:2658-2721 | One character of escaped octets, with the errors for a wrong lead or trail |
| Tags.FindTagPrefix | ppserver/src/config/yaml/emitter.c:1451-1471 | The first directive whose prefix the tag properly starts with |

## Left out

- ScalarRoundTrip.QuotedScalarRoundTrip: a single-quoted scalar must not be followed by a quote, which would be read as part of it; the emitter always puts a break, a blank or an indicator there.
- PlainRoundTrip.PlainRoundTrip: in a block the scalar must not start left of the block's column and its further lines are right of it, as the emitter writes them; before a comment or blank lines nothing is said.
- LiteralRoundTrip.LiteralRoundTrip: what follows is the end of the stream or a less indented token, since more lines of the same indentation belong to the scalar.
- ParserTrees.ParserInvertsLinearisation: of the single pairs without a key the trees have those with a colon and no value, for the others the law is false; a node of properties only, and an indentless sequence, need a next token that shows their end.
- Writing.OutputIsReadBack: UTF-8 output gets no byte order mark, so a text that starts with U+FEFF loses it and is left out for that encoding.
- ScannerRuns.RightRunsDoNotAbort: gives a sufficient condition on runs; the exact condition for each fetch is `ScannerRuns.FetchAborts`.
- ScannerRuns.EveryScanIsBalanced: how many characters an anchor, tag, directive or scalar takes is a parameter of the run; `ContentReaches.ContentIsAReach` proves of all but directives that their scans are instances of it.
- TokenFetcher.Fetcher.FetchDirectiveToken: the directive is as long as that parameter says; its name and value are not scanned (yaml_parser_scan_directive).
- TokenFetcher.Fetcher.FetchKeyLikeToken: the anchor, tag or scalar is as long as that parameter says, here and in the next; the scans themselves are methods of `ScalarScanner.Scanner` and `Tags`.
- TokenFetcher.Fetcher.FetchBlockScalarToken: the scalar is as long as that parameter says.
- EmitterRuns.EveryWordIsHandled: holds for every configuration of contents, the program's own one being `Contents.Complete`; an alias without a name, which the program refuses in its analysis, is left out.
- ConfTree.ConfNode.Set: the walk down a name is a recursion where the program has a loop, and the parent pointer is the place in the walk.
- ConfTree.ConfNode.Remove: the walk goes down to the parent again, where the program follows the parent pointer of the node it found.
- ConfLoader.Loader.Parse: what is left in the nodes after a failed call is not stated. Aliases are ignored as in the program, and nodes loaded this way have no parent, so removing them with the program's ConfRemove is not modelled.
- ConfLoading.DocumentIsLoaded: a document with a mapping at its root, without aliases and with scalar keys; on other shapes the recursion is modelled but no denotation is given.
- ConfTree.ConfNode.Find: a name without parts gives the root, where the program passes the NULL from strtok_r on.
- TokenQueue.Queue.Insert: the fetchers hold their queue as a sequence; this queue in its buffer is proved to be one.
- The settings as the emitter normalises them at the start of the stream: they are taken as normal.
- Marks: parser marks are numbers of tokens, events carry none; the `offset` of the reader is not counted.
- Allocation failures, freeing, and the texts of error messages: an error is an outcome that ends the run.
- The capacity of string buffers (yaml_string_extend, yaml_string_join) and of the stacks (yaml_stack_extend): sequences are unbounded.
- yaml_check_utf8 and the functions of api.c that build events and documents: values are well-formed by their types.
- The width of integers: marks, token numbers and anchor ids do not wrap around, and index names are not cut to the loader's fixed length.
- File and string handlers, printing and ConfDump, and the warnings printed while loading: input is a list of chunks, output a sequence of bytes.
- ConfGetInt, ConfGetBool and the other conversions, ConfCreateContextBackup, and the rest of the repository (sockets, logging, threads): no further laws of this kind.
