# Machines, codecs and protocols of a vendored Go tree

This project models the hardest parts of a tree of Go packages and proves what they are meant to
keep. It covers four places: the YAML libraries (`gopkg.in/yaml.v2`, and the decoder of
`gopkg.in/yaml.v3`), the retry protocol of gRPC client streams, the connection, picker and server
state of gRPC, and three data structures of OpenCensus.

`dafny verify dfyconfig.toml` checks everything. There is one module to a file (`options.dfy`,
`bytes.dfy` and `powers.dfy` hold what the others share):

| file | models |
|---|---|
| `yaml_events.dfy` | the event language: documents as trees, their event sequences, and an automaton that accepts exactly those |
| `yaml_productions.dfy` | the parser's productions on values: tokens, states, what each production does or how it fails, the table of transitions they follow, and whole runs |
| `yaml_parser.dfy` | the parser: the pushdown machine with `states`, `marks` and a token queue, as it updates its fields |
| `yaml_composer.dfy` | the composer: events to node trees, with anchors and the nodes that aliases denote |
| `yaml_brackets.dfy` | the balance of brackets over a run of the parser, and why it never lacks a token |
| `yaml_syntax.dfy` | documents as they are written: what they mean, their tokens, and when they are sound |
| `yaml_token_printer.dfy` | what the parser and the composer read back from the tokens of such documents |
| `yaml_accepted.dfy` | the converse: whatever the parser accepts is written as such documents |
| `yaml_emitter.dfy` | the emitter's machine: event queue with lookahead, `states`, `indents`, `flow_level` |
| `yaml_bytes.dfy`, `yaml_quoted.dfy` | bytes, character classes, and quoted scalars on values: what is written, what is scanned |
| `yaml_quoted_texts.dfy`, `yaml_quoted_layout.dfy` | what any quoted text means, also one that no writer puts out, and how the writers lay out their lines |
| `yaml_writer.dfy`, `yaml_flow_scanner.dfy` | the writers of quoted scalars, the analysis before them, and the scanner of flow scalars, as they update their state |
| `yaml_scanner.dfy` | the compacting token queue, possible simple keys, indentation and flow levels |
| `yaml_scanner_laws.dfy` | what its tokens say about the layout of the text: blocks by their columns, and which tokens are keys |
| `yaml_reader.dfy` | the reader: detection of the encoding, decoding in chunks, the two buffers |
| `yaml_alias_budget.dfy` | the walk of the version 3 decoder over nodes with aliases, and its budget |
| `grpc_retry.dfy` | `clientStream` and `csAttempt`: one sender, any number of receivers, attempts that are replaced |
| `grpc_retry_policy.dfy` | the same protocol: what has to be the case for an attempt to be replaced, and for the stream to be committed |
| `grpc_retry_panics.dfy`, `grpc_retry_progress.dfy` | the same protocol: operations that meet a nil stream, and why retries end or need not |
| `grpc_conn.dfy`, `grpc_picker.dfy`, `grpc_server.dfy` | `addrConn`, `pickerWrapper`, and the server's table of connections |
| `span_store.dfy`, `tag_codec.dfy`, `span_id.dfy` | span buckets and the index by latency, the tag codec, the span ID generator |

Code that updates an object in place is a class here, with the same fields and loops; its methods are
proved against functions on values, and the laws are proved about those. Concurrent code is a step
relation whose actions are what one goroutine does while it holds the lock, or while it is away from
it; its laws are about every run. A method such as `ParseAll`, `ParseWhole`, `ComposePrinted`, `EmitAll`, `ScanAll`, `ReadAll`,
`Decode`, `Run`, `Report`, `Propagate` or `Issue` builds an object, drives it over an arbitrary input
and states the law for the whole run.

What the choices of the model are:

- A parser state is the production together with its `first`, `implicit` or `empty` flag. The states
  for a block node or indentless sequence and for a flow node are never entered, so the state machine
  has no case for them. Marks are indices of tokens.
- The scanner reads lexemes: each says what kind of token comes next, where it starts and ends, and
  whether its characters can be read. Its queue is a sequence; `TokenQueue` is the array behind it.
- The emitter's machine does not write text; the writers of quoted scalars do. Flushing the output
  buffer is not modelled.
- The reader's handler is a finite script of answers, each some bytes with "more", "end of file" or an
  error; an answer that does not fit is handed out in parts. `yaml_parser_update_buffer` is modelled
  for requests of up to eight characters, which is the most the scanner asks for.
- Bit masks and shifts are ranges, quotients and remainders of integers. Counters that wrap around do
  so explicitly.
- The alias ratio is a real number.
- A retry attempt is `alive` until a write on it has been refused. An operation on an attempt that
  has no stream dereferences nil in the code; in the model its thread then takes no further step.
- A composed node is known by the event that starts it, in place of its address.

Where the code departs from what its comments or its shape suggest:

- The comment beside the alias ratio (`gopkg.in/yaml.v3/decode.go:473`) says that 396,000 to 400,000
  decodes may come from aliases over the whole range. `AllowedAliasedBound` shows that the upper
  figure holds exactly up to 404,494 decodes and at 4,000,000, and `AllowedInTheMiddle` that 1,199,000
  are allowed at 2,200,000.
- A flow-sequence pair with an empty key consumes the token that shows it to be empty
  (`gopkg.in/yaml.v2/parserc.go:844-845`). `EmptyKeyRun` shows what follows from that for every list of
  tokens: behind `? :` a value is not read as one unless a second `:` stands before it, and neither the
  comma behind `?` nor the end of the sequence counts. So `[? : x]`, `[?, x]` and `[?]` are refused, while
  `[? : ]` and `[?,]` are read (`Examples`). `ParsePrinted` and `ComposePrinted` state the exact condition
  for whole streams: documents are read back exactly if their directives are fine, every tag has a
  declared handle, and every single pair with an empty key has its `:` and nothing behind it or is the
  last one before a comma that ends the sequence; otherwise they are refused with a syntax error. That
  `[?]` cannot recover further on is a matter of brackets: `LostNeverEnds` shows that a run that has lost
  the end of a sequence never comes to the end of the stream. In the other direction, `AcceptedExactly` shows
  that a run in which no such token is missing gets to the end of the stream exactly if the tokens are those
  of sound documents as they are written.
- Decoding tags from the wire may panic: a length for which the end of its field does not fit into a
  signed 64-bit number makes the code slice with an end before its start
  (`go.opencensus.io/tag/map_codec.go:127-135`). `TagCodec.PanicsExactly` states for every text when that
  happens, `TagCodec.OverflowPanics` that every length from two to the power of 63 on will do, and
  `NineBytesAndABit` is a text of twelve bytes.
- `is_bom` looks at the start of the buffer whatever its index (`gopkg.in/yaml.v2/yamlprivateh.go:81-83`),
  so a value that starts with a byte order mark is escaped throughout. It still comes back.
- A single-quoted scalar is read back exactly if no apostrophe follows it, whatever its value
  (`SingleQuotedRoundTrip`); `QuoteBehindQuote` is the shortest example.
- With an empty list of addresses `tryAllAddrs` returns neither an error nor an event, and waiting for
  that event panics (`google.golang.org/grpc/clientconn.go:1214`). The callers see to it that there is
  always an address (`google.golang.org/grpc/balancer_conn_wrappers.go:132`, `:207`); `NeverPanics` shows
  that this is enough, and `EmptyListEnds` what an update to an empty list does instead.
- An operation of a stream may dereference nil: when the opening of a new attempt is refused in a retry,
  or no transport is found for one, the operation that retried returns its error, but the next one, or
  one of another goroutine, runs on the attempt without a stream
  (`google.golang.org/grpc/stream.go:943`). `GrpcRetryPanics.PanicsExactly` states for every run when that happens,
  `PanicRun` and `UncommittedPanic` are runs in which it does, and `PanicReachable` shows that there are
  such runs for every configuration that buffers anything at all.
- RPCs that wait for a connection retry without bound before anything is written
  (`google.golang.org/grpc/stream.go:535-540`); `WaitsWithoutBound` constructs such runs, and the bounds
  are stated for fail-fast RPCs.
- `ReportSpansByLatency` returns nothing for a negative maximum, although a span that ended before it
  started may lie within it; `NegativeMaximum` gives one.

## Model

| member | source | states |
|---|---|---|
| `YamlEvents.CompleteLanguage` | gopkg.in/yaml.v2/decode.go:141-221 | the event automaton completes exactly on the event sequences of lists of well-formed documents, and has then rebuilt those documents |
| `YamlEvents.PrefixLanguage` | gopkg.in/yaml.v2/parserc.go:93-171 | the automaton accepts exactly the prefixes of such sequences |
| `YamlEvents.FeedConcat` | gopkg.in/yaml.v2/parserc.go:62-74 | events may be fed in any portions |
| `YamlEvents.FeedNode` | gopkg.in/yaml.v2/parserc.go:359-575 | the events of a well-formed node attach exactly that node |
| `YamlProductions.TransitionKeeps` | gopkg.in/yaml.v2/parserc.go:93-992 | every transition yields an event the automaton accepts, and afterwards `states` and `marks` again mirror the open collections, so that neither underflows |
| `YamlProductions.ProductionFollows` | gopkg.in/yaml.v2/parserc.go:93-992 | every production makes a transition of that table or fails; it consumes a token or spends credit kept for it, its event has the content of the tokens consumed, and the tag handles stay distinct |
| `YamlProductions.NodeMeans` | gopkg.in/yaml.v2/parserc.go:359-575 | a node that is read is a leaf that resumes the innermost continuation, or a collection that enters its first state with its token still at the head |
| `YamlProductions.OneRun` | gopkg.in/yaml.v2/parserc.go:93-171 | the machine is deterministic: two runs up to where it stops have the same events |
| `YamlProductions.RunFlags` | gopkg.in/yaml.v2/parserc.go:463-487 | in every run every scalar without a tag is implicit exactly if it is plain and quoted-implicit exactly if it is not; with a tag other than "!" it is neither; with "!" it is implicit if it has a value or a style of its own; and the tag of a collection is implicit exactly if there is none |
| `YamlProductions.TagMeans` | gopkg.in/yaml.v2/parserc.go:430-450 | a handle stands for the prefix that the document declares for it, "!" and "!!" if not declared for themselves and for the tags of YAML, and any other one is an error |
| `YamlBrackets.ProductionCounted` | gopkg.in/yaml.v2/parserc.go:93-992 | every step keeps the difference between the brackets consumed and the collections open, except where the end of a sequence shows an empty key and is lost; where the list ends with its one STREAM-END, no step lacks a token |
| `YamlBrackets.LostNeverEnds` | gopkg.in/yaml.v2/parserc.go:833-848 | over tokens with matching brackets, a run that has lost one that way never comes to the end of the stream |
| `YamlBrackets.NeverStarves` | gopkg.in/yaml.v2/parserc.go:93-171 | over any list that ends with its one STREAM-END, the machine stops only at the end of the stream or at a syntax error |
| `YamlSyntax.PropertiesBack` | gopkg.in/yaml.v2/parserc.go:384-450 | an anchor and a tag, in either order, are read back with the prefix of the tag's handle before its suffix, and are a syntax error exactly if the handle is not declared |
| `YamlSyntax.PrintedWhole` | gopkg.in/yaml.v2/parserc.go:93-171 | the tokens of any list of documents end with their one STREAM-END, and their brackets match |
| `YamlTokenPrinter.NodeSpells` | gopkg.in/yaml.v2/parserc.go:359-575 | a node as written, in whatever place it stands, is read as just its events with the stacks as before, or fails exactly if a tag in it does not resolve or a single pair in it with an empty key lacks its VALUE or has a value, unless it is a KEY alone before a comma that ends the sequence |
| `YamlTokenPrinter.PrintedGoes` | gopkg.in/yaml.v2/parserc.go:93-992 | the tokens of any list of documents are read as just their events, or fail, on that condition and that of their directives |
| `YamlTokenPrinter.FailingRun` | gopkg.in/yaml.v2/parserc.go:93-992 | such a failure is a syntax error before the end of the stream, for every run of the machine up to where it stops |
| `YamlTokenPrinter.ParsePrinted` | gopkg.in/yaml.v2/parserc.go:93-992 | parsing the tokens of any list of documents gives back exactly their events if all directives are fine, every tag resolves and every single pair with an empty key has its VALUE and no value, or is a KEY alone before a comma that ends the sequence; it is a syntax error otherwise |
| `YamlTokenPrinter.ComposePrinted` | gopkg.in/yaml.v2/decode.go:141-221 | composing the tokens of any list of documents gives back exactly those documents on that condition and if each alias has its anchor before it, and fails otherwise; if only an anchor is missing, that is the problem named |
| `YamlTokenPrinter.EmptyKeyRun` | gopkg.in/yaml.v2/parserc.go:833-848 | for every list of tokens: the token that shows an empty key of a single pair, whichever it is, is lost; a VALUE behind it is taken for the indicator of the value; otherwise the pair ends with an empty value and the next token has to be a comma or the end of the sequence |
| `YamlTokenPrinter.ReadsExactly` | gopkg.in/yaml.v2/parserc.go:93-992 | the same condition for every run of the machine up to where it stops |
| `YamlTokenPrinter.Examples` | gopkg.in/yaml.v2/parserc.go:833-873 | every run over `[? : x]`, `[?, x]` or `[?]` ends with a syntax error, and those over `[? : ]` and `[?,]` do not |
| `YamlTokenPrinter.DirectivesBack` | gopkg.in/yaml.v2/parserc.go:1013-1072 | a version and tag directives in any order are read back exactly if the version is 1.1 and no handle is declared twice, and are a syntax error otherwise |
| `YamlAccepted.NodeBack` | gopkg.in/yaml.v2/parserc.go:359-575 | from any run that goes through without missing a token: what was read as a node is the tokens of a node as it is written there, and the run goes on behind it with the stacks as before |
| `YamlAccepted.PagesBack` | gopkg.in/yaml.v2/parserc.go:198-331 | the same for all the documents to the end of the stream, with their directives, marks and ends |
| `YamlAccepted.AcceptedIsWritten` | gopkg.in/yaml.v2/parserc.go:93-992 | whatever list of tokens the parser reads to the end of the stream without missing a token behind the KEY of a single pair, it is the list of tokens of documents as they are written |
| `YamlAccepted.AcceptedExactly` | gopkg.in/yaml.v2/parserc.go:93-992 | a run that misses no token gets to the end of the stream exactly if the tokens are those of documents as they are written, with sound directives, tags and single pairs |
| `YamlAccepted.ParseWhole` | gopkg.in/yaml.v2/parserc.go:93-992 | parsing any list of tokens that ends with its STREAM-END finishes if these are written as sound documents, then with just their events, and otherwise only if a token is missed |
| `YamlParser.Parser.ParseStreamStart` | gopkg.in/yaml.v2/parserc.go:174-194 | the production on values: a STREAM-START and nothing else |
| `YamlParser.Parser.ParseDocumentStart` | gopkg.in/yaml.v2/parserc.go:198-278 | the production on values: an implicit start, an explicit one, or the end of the stream |
| `YamlParser.Parser.ParseExplicitDocumentStart` | gopkg.in/yaml.v2/parserc.go:234-263 | the production on values: directives, the indicator, or an error without one |
| `YamlParser.Parser.ParseDocumentContent` | gopkg.in/yaml.v2/parserc.go:282-300 | the production on values: an empty root in front of what cannot start one |
| `YamlParser.Parser.ParseDocumentEnd` | gopkg.in/yaml.v2/parserc.go:305-331 | the production on values; the tag directives are forgotten |
| `YamlParser.Parser.ParseProperties` | gopkg.in/yaml.v2/parserc.go:384-450 | exactly the anchor and the tag, in either order, and the place behind them, or the error |
| `YamlParser.Parser.ResolveTag` | gopkg.in/yaml.v2/parserc.go:430-450 | the tag is the prefix of its handle and its suffix; no tag for an undeclared handle |
| `YamlParser.Parser.ParseNode` | gopkg.in/yaml.v2/parserc.go:359-575 | exactly the node on values, whatever production it is read for, errors included |
| `YamlParser.Parser.ParseContent` | gopkg.in/yaml.v2/parserc.go:452-573 | what follows the properties, exactly as on values, which may be nothing if there are any; a scalar has the flags that `RunFlags` describes |
| `YamlParser.Parser.ParseBlockSequenceEntry` | gopkg.in/yaml.v2/parserc.go:579-627 | the production on values: an item, an empty one, the end, or an error |
| `YamlParser.Parser.ParseIndentlessSequenceEntry` | gopkg.in/yaml.v2/parserc.go:631-663 | the production on values: an item, an empty one, or the end without a token |
| `YamlParser.Parser.ParseBlockMappingKey` | gopkg.in/yaml.v2/parserc.go:675-726 | the production on values: a key, an empty one, the end, or an error |
| `YamlParser.Parser.ParseBlockMappingValue` | gopkg.in/yaml.v2/parserc.go:733-756 | the production on values: a value, or an empty one |
| `YamlParser.Parser.ParseFlowSequenceEntry` | gopkg.in/yaml.v2/parserc.go:770-827 | the production on values: an item behind its comma, a single pair, the end, or an error |
| `YamlParser.Parser.ParseFlowSequenceEntryMappingKey` | gopkg.in/yaml.v2/parserc.go:833-848 | the production on values; the token that shows an empty key is consumed |
| `YamlParser.Parser.ParseFlowSequenceEntryMappingValue` | gopkg.in/yaml.v2/parserc.go:854-873 | the production on values: a value, or an empty one |
| `YamlParser.Parser.ParseFlowSequenceEntryMappingEnd` | gopkg.in/yaml.v2/parserc.go:878-890 | the single pair ends without consuming a token, for which credit was kept |
| `YamlParser.Parser.ParseFlowMappingKey` | gopkg.in/yaml.v2/parserc.go:904-964 | the production on values: a key behind its comma, explicit or not, the end, or an error |
| `YamlParser.Parser.ParseFlowMappingValue` | gopkg.in/yaml.v2/parserc.go:970-992 | the production on values: a value, or an empty one |
| `YamlParser.Parser.ProcessDirectives` | gopkg.in/yaml.v2/parserc.go:1013-1072 | exactly the version and the tags declared, with the defaults added, or the error |
| `YamlParser.Parser.AppendTagDirective` | gopkg.in/yaml.v2/parserc.go:1075-1095 | appends unless the handle is taken, and fails on a duplicate exactly if duplicates are not allowed |
| `YamlParser.Parser.Skip` | gopkg.in/yaml.v2/parserc.go:54-59 | one token is consumed |
| `YamlParser.Parser.RunStateMachine` | gopkg.in/yaml.v2/parserc.go:93-170 | every state that can be reached has a production, and the step made is exactly its step on values |
| `YamlParser.Parser.Parse` | gopkg.in/yaml.v2/parserc.go:62-74 | keeps the whole invariant: the events so far are a prefix of the language, at most three per token consumed, with the same content as those tokens |
| `YamlParser.ParseAll` | gopkg.in/yaml.v2/parserc.go:93-992 | for every list of tokens the events are a prefix of the language, at most three per token; they are a whole stream exactly if parsing finishes without an error, and then have the content of the tokens consumed, in order; the flags of each scalar fit its tag and its style; events and error are those of the machine on values |
| `YamlComposer.Composer.Peek` | gopkg.in/yaml.v2/decode.go:101-109 | the next event is one that the position in the document allows |
| `YamlComposer.Composer.Expect` | gopkg.in/yaml.v2/decode.go:82-97 | consumes one event of the kind expected, or says which of the three ways to fail it was |
| `YamlComposer.Composer.ComposeScalar` | gopkg.in/yaml.v2/decode.go:191-199 | builds a leaf and registers it under its anchor |
| `YamlComposer.Composer.ComposeAlias` | gopkg.in/yaml.v2/decode.go:180-189 | builds an alias that denotes the node of its anchor, or fails exactly because its anchor is unknown |
| `YamlComposer.Composer.ComposeSequence` | gopkg.in/yaml.v2/decode.go:201-210 | builds the sequence whose events were consumed |
| `YamlComposer.Composer.ComposeMapping` | gopkg.in/yaml.v2/decode.go:212-221 | builds the mapping whose events were consumed, with keys and values in pairs |
| `YamlComposer.Composer.ComposeDocument` | gopkg.in/yaml.v2/decode.go:170-178 | builds the document whose events were consumed, with anchors of its own |
| `YamlComposer.Composer.Parse` | gopkg.in/yaml.v2/decode.go:141-160 | dispatches on the next event; the panic for an unknown event is never reached |
| `YamlComposer.ComposeAll` | gopkg.in/yaml.v2/decode.go:141-221 | without a failure the documents spell out the whole stream that was parsed, their content is that of the tokens consumed, and each alias denotes the latest node before it in its document with its anchor; otherwise the parser failed there, or an alias came before its anchor |
| `YamlComposer.AliasDenotes` | gopkg.in/yaml.v2/decode.go:180-189 | where all aliases resolve, each denotes the latest node with its anchor before it in its document |
| `YamlEmitter.TransitionKeeps` | gopkg.in/yaml.v2/emitterc.go:212-270 | every transition of the emitter follows the event automaton, and its `states` again mirror the open collections |
| `YamlEmitter.RefusesKeeps` | gopkg.in/yaml.v2/emitterc.go:212-270 | what a state of the emitter refuses, the automaton refuses too |
| `YamlEmitter.LevelIsDepth` | gopkg.in/yaml.v2/emitterc.go:137-171 | the level that the lookahead counts is the nesting depth |
| `YamlEmitter.NothingLeft` | gopkg.in/yaml.v2/emitterc.go:137-171 | at the end of a whole stream the lookahead never keeps an event in the queue |
| `YamlEmitter.NeedMoreMeans` | gopkg.in/yaml.v2/emitterc.go:137-171 | the emitter waits for one event behind a document start, two behind a sequence start and three behind a mapping start, unless the document or collection ends before that |
| `YamlEmitter.Emitter.NeedMoreEvents` | gopkg.in/yaml.v2/emitterc.go:137-171 | more events are needed exactly if the queue is empty, or short of its lookahead and not balanced |
| `YamlEmitter.Emitter.AppendTagDirective` | gopkg.in/yaml.v2/emitterc.go:174-194 | appends unless the handle is taken, and fails on a duplicate exactly if duplicates are not allowed |
| `YamlEmitter.Emitter.IncreaseIndent` | gopkg.in/yaml.v2/emitterc.go:197-209 | pushes the indentation; the new one is not negative |
| `YamlEmitter.Emitter.EmitStreamStart` | gopkg.in/yaml.v2/emitterc.go:273-309 | one transition, or a refusal; the indentation starts at -1, and goes by two unless it is set to between two and nine |
| `YamlEmitter.Emitter.EmitDocumentStart` | gopkg.in/yaml.v2/emitterc.go:312-423 | accepts a document start with valid directives or the end of the stream, and nothing else |
| `YamlEmitter.Emitter.EmitDocumentContent` | gopkg.in/yaml.v2/emitterc.go:426-429 | pushes the document's end and processes its root node |
| `YamlEmitter.Emitter.EmitDocumentEnd` | gopkg.in/yaml.v2/emitterc.go:432-454 | at the end of a document the stacks are empty, with indentation -1 and flow level 0 |
| `YamlEmitter.Emitter.EmitFlowSequenceItem` | gopkg.in/yaml.v2/emitterc.go:457-502 | one transition with balanced counts, or a refusal; the items are indented further |
| `YamlEmitter.Emitter.EmitFlowMappingKey` | gopkg.in/yaml.v2/emitterc.go:505-556 | one transition with balanced counts, or a refusal; the keys are indented further |
| `YamlEmitter.Emitter.EmitFlowMappingValue` | gopkg.in/yaml.v2/emitterc.go:559-576 | one transition with balanced counts, or a refusal |
| `YamlEmitter.Emitter.EmitBlockSequenceItem` | gopkg.in/yaml.v2/emitterc.go:579-600 | one transition with balanced counts, or a refusal; the items are indented further unless the sequence is in a mapping |
| `YamlEmitter.Emitter.EmitBlockMappingKey` | gopkg.in/yaml.v2/emitterc.go:603-628 | one transition with balanced counts, or a refusal; the keys are indented further |
| `YamlEmitter.Emitter.EmitBlockMappingValue` | gopkg.in/yaml.v2/emitterc.go:631-646 | one transition with balanced counts, or a refusal |
| `YamlEmitter.Emitter.EmitNode` | gopkg.in/yaml.v2/emitterc.go:649-738 | a leaf pops its continuation; a collection enters its first state, in flow style exactly inside a flow collection, in canonical form, on request, or if the next event ends it |
| `YamlEmitter.Emitter.EmitScalar` | gopkg.in/yaml.v2/emitterc.go:683-704 | a scalar is refused exactly if it has neither a tag nor a flag that lets it do without one |
| `YamlEmitter.Emitter.EmitSequenceStart` | gopkg.in/yaml.v2/emitterc.go:707-721 | flow style exactly inside a flow collection, in canonical form, on request, or if the next event ends the sequence; block style otherwise |
| `YamlEmitter.Emitter.EmitMappingStart` | gopkg.in/yaml.v2/emitterc.go:724-738 | the same for a mapping |
| `YamlEmitter.Emitter.AnalyzeAnchor` | gopkg.in/yaml.v2/emitterc.go:944-963 | accepts exactly the non-empty alphanumeric anchors |
| `YamlEmitter.Emitter.AnalyzeTagDirective` | gopkg.in/yaml.v2/emitterc.go:920-940 | accepts exactly the valid directives |
| `YamlEmitter.Emitter.AnalyzeEvent` | gopkg.in/yaml.v2/emitterc.go:1133-1186 | rejects an event exactly for its anchor or its lack of a tag |
| `YamlEmitter.Emitter.RunStateMachine` | gopkg.in/yaml.v2/emitterc.go:212-270 | one transition with `indents` and `flow_level` equal to the open collections, or a refusal |
| `YamlEmitter.Emitter.Handle` | gopkg.in/yaml.v2/emitterc.go:114-128 | an event is analysed and processed by one transition, in the style that is called for; a key is taken for a simple one exactly if it is short and on one line; the directives in force are those of the document and the defaults |
| `YamlEmitter.Emitter.Emit` | gopkg.in/yaml.v2/emitterc.go:114-128 | keeps the invariant and processes events until more are needed |
| `YamlEmitter.EmitAll` | gopkg.in/yaml.v2/emitterc.go:114-171 | the emitter processes a prefix of the event language, fails exactly at the first event that leaves it or is invalid in itself, and with valid events completes exactly on whole streams; every collection start on the way was taken in flow style exactly inside one that was, in canonical form, on request or if empty, and every key as a simple one exactly if it is an alias, a scalar of one line or an empty collection with no more than 128 characters in all, and not in canonical flow style |
| `YamlBytes.Classes` | gopkg.in/yaml.v2/yamlprivateh.go:19-173 | on the encoding of a character the byte classes agree with classes of characters |
| `YamlQuoted.DoubleQuotedRoundTrip` | gopkg.in/yaml.v2/emitterc.go:1429-1548 | every value, at every width, indentation and line break, is what scanning its double-quoted form returns, whatever follows |
| `YamlQuoted.SingleQuotedRoundTrip` | gopkg.in/yaml.v2/emitterc.go:1370-1427 | every value that the analysis admits, at every setting, is read back from its single-quoted form exactly if no further quote follows |
| `YamlQuoted.QuoteBehindQuote` | gopkg.in/yaml.v2/scannerc.go:2335-2343 | an example: with a quote behind it the empty value is an open scalar |
| `YamlQuoted.WordLeavesClosed` | gopkg.in/yaml.v2/scannerc.go:2335-2347 | what a single-quoted scalar leaves behind never starts with a quote |
| `YamlQuoted.EscapeReads` | gopkg.in/yaml.v2/scannerc.go:2358-2465 | the escape written for a character is read as that character |
| `YamlQuoted.ScanFold` | gopkg.in/yaml.v2/scannerc.go:2487-2540 | a line folded at a space reads back as one space |
| `YamlQuotedTexts.TextRead` | gopkg.in/yaml.v2/scannerc.go:2299-2545 | every text between quotes, made of plain characters, escapes from the table, codes of two, four or eight digits in any mixture of cases, doubled apostrophes, blanks, line breaks and escaped line breaks, is read as what it means, whatever follows |
| `YamlQuotedTexts.ScanText` | gopkg.in/yaml.v2/scannerc.go:2299-2545 | the same for the scanner with its buffer |
| `YamlQuotedTexts.UnknownRefused` | gopkg.in/yaml.v2/scannerc.go:2364-2413 | a character that stands for nothing behind a backslash is refused |
| `YamlQuotedTexts.DigitsRefused` | gopkg.in/yaml.v2/scannerc.go:2419-2434 | a code with too few digits, or with something else than digits, is refused |
| `YamlQuotedTexts.CodeRefused` | gopkg.in/yaml.v2/scannerc.go:2436-2441 | a code for a surrogate, or for a number beyond the last character, is refused |
| `YamlQuotedTexts.GapRefused` | gopkg.in/yaml.v2/scannerc.go:2306-2330 | a document indicator at the start of a line, or the end of the input, is refused inside quotes |
| `YamlQuotedTexts.OpenRefused` | gopkg.in/yaml.v2/scannerc.go:2325-2330 | a text without its right quote is refused |
| `YamlQuotedLayout.EscapeWritten` | gopkg.in/yaml.v2/emitterc.go:1460-1520 | an escape is the letter of the table for its character, or else the shortest code, with its digits in capitals |
| `YamlQuotedLayout.WordWritten` | gopkg.in/yaml.v2/emitterc.go:1429-1548 | in double quotes a word is written character by character, each as it is or as its escape |
| `YamlQuotedLayout.FoldedExactly` | gopkg.in/yaml.v2/emitterc.go:1521-1534 | in double quotes a single space behind a word is a line break and the indentation exactly if breaks are allowed and the word has gone beyond the width |
| `YamlQuotedLayout.MarkedWritten` | gopkg.in/yaml.v2/emitterc.go:1440-1458 | a value that starts with a byte order mark is escaped throughout |
| `YamlQuotedLayout.PlainWritten` | gopkg.in/yaml.v2/emitterc.go:1370-1427 | in single quotes a word is written as it is, with its apostrophes doubled |
| `YamlQuotedLayout.SingleFoldedExactly` | gopkg.in/yaml.v2/emitterc.go:1380-1394 | the same fold in single quotes |
| `YamlQuotedLayout.FeedWritten` | gopkg.in/yaml.v2/emitterc.go:1395-1407 | in single quotes a line feed between words is an empty line and the indentation |
| `YamlWriter.Writer.DecodeAt` | gopkg.in/yaml.v2/emitterc.go:1440-1458 | decodes the character that the value holds |
| `YamlWriter.Writer.WriteEscape` | gopkg.in/yaml.v2/emitterc.go:1460-1520 | writes the escape of a character |
| `YamlWriter.Writer.WriteIndent` | gopkg.in/yaml.v2/emitterc.go:1201-1219 | breaks the line unless the pen is there already, and indents |
| `YamlWriter.Writer.WriteDoubleQuoted` | gopkg.in/yaml.v2/emitterc.go:1429-1548 | appends the double-quoted form of the value |
| `YamlWriter.Writer.WriteSingleQuoted` | gopkg.in/yaml.v2/emitterc.go:1370-1427 | appends the single-quoted form of the value |
| `YamlWriter.Writer.AnalyzeScalar` | gopkg.in/yaml.v2/emitterc.go:984-1130 | single quotes are allowed exactly for printable values without a space next to a line break |
| `YamlWriter.QuoteAndScan` | gopkg.in/yaml.v2/emitterc.go:984-1130 | analysis, writer and scanner together give back the value and what follows, exactly unless single quotes are chosen and a quote follows; they are chosen exactly if wanted and allowed |
| `YamlFlowScanner.FlowScanner.ReadCode` | gopkg.in/yaml.v2/scannerc.go:2415-2436 | reads the number that so many hexadecimal digits stand for; what digits stand for, in either case, is said by `TextRead` |
| `YamlFlowScanner.FlowScanner.ReadEscape` | gopkg.in/yaml.v2/scannerc.go:2358-2465 | appends what the escape stands for, or fails exactly if it stands for nothing |
| `YamlFlowScanner.FlowScanner.ReadLine` | gopkg.in/yaml.v2/scannerc.go:538-568 | reads a line break in its normal form |
| `YamlFlowScanner.FlowScanner.ScanFlowScalar` | gopkg.in/yaml.v2/scannerc.go:2299-2552 | the loops compute the scan on values, with its failures |
| `YamlScanner.TokenQueue.Compact` | gopkg.in/yaml.v2/apic.go:7-18 | moving the tokens to the front changes nothing |
| `YamlScanner.TokenQueue.Insert` | gopkg.in/yaml.v2/apic.go:7-24 | the compacting queue behaves like insertion into a sequence |
| `YamlScanner.Scanner.StaleSimpleKeys` | gopkg.in/yaml.v2/scannerc.go:842-864 | drops exactly the keys that have fallen behind, and fails exactly if one of them is required |
| `YamlScanner.Scanner.SaveSimpleKey` | gopkg.in/yaml.v2/scannerc.go:867-891 | a key saved names the place behind the queue, above all other keys; fails exactly if it would replace a required one |
| `YamlScanner.Scanner.RemoveSimpleKey` | gopkg.in/yaml.v2/scannerc.go:894-907 | drops the key of the level, and fails exactly if it is required |
| `YamlScanner.Scanner.RollIndent` | gopkg.in/yaml.v2/scannerc.go:931-955 | opens a block, at the end of the queue or at the number given, exactly if the column is further in |
| `YamlScanner.Scanner.UnrollIndent` | gopkg.in/yaml.v2/scannerc.go:960-981 | leaves exactly the levels further in than the column, outside flow collections, with one BLOCK-END for each |
| `YamlScanner.Scanner.FetchStreamStart` | gopkg.in/yaml.v2/scannerc.go:984-1007 | starts with indentation -1, one level of keys and a STREAM-START |
| `YamlScanner.Scanner.FetchStreamEnd` | gopkg.in/yaml.v2/scannerc.go:1010-1038 | a STREAM-END at the start of a line; outside flow collections every block is closed and the counts are equal; fails exactly if a key is due |
| `YamlScanner.Scanner.FetchAtMargin` | gopkg.in/yaml.v2/scannerc.go:1041-1096 | directives and document indicators leave every block and then stand in the queue; fails exactly if a key is due or the directive cannot be read |
| `YamlScanner.Scanner.FetchFlowCollectionStart` | gopkg.in/yaml.v2/scannerc.go:1099-1127 | its token is appended; one flow level and one level of keys more |
| `YamlScanner.Scanner.FetchFlowCollectionEnd` | gopkg.in/yaml.v2/scannerc.go:1130-1159 | its token is appended; one level less, if there is one |
| `YamlScanner.Scanner.FetchFlowEntry` | gopkg.in/yaml.v2/scannerc.go:1162-1184 | its token is appended, and a key may follow; fails exactly if a key is due |
| `YamlScanner.Scanner.FetchBlockEntry` | gopkg.in/yaml.v2/scannerc.go:1187-1226 | a BLOCK-SEQUENCE-START where it opens a block, and its token; fails exactly if a key is due or, outside flow collections, an entry is not allowed |
| `YamlScanner.Scanner.FetchKey` | gopkg.in/yaml.v2/scannerc.go:1229-1265 | a BLOCK-MAPPING-START where it opens a block, and its token; fails exactly if a key is due or, outside flow collections, a key is not allowed |
| `YamlScanner.Scanner.FetchValue` | gopkg.in/yaml.v2/scannerc.go:1268-1330 | the late KEY, and BLOCK-MAPPING-START where it opens a block, go before the very token that started the key, which is in the queue; without a possible key the value opens a block itself, and fails exactly if it is not allowed to; no key is possible there any more, and one may follow exactly behind a complex key in a block |
| `YamlScanner.Scanner.FetchBlockScalar` | gopkg.in/yaml.v2/scannerc.go:1371-1387 | its token is appended, and a key may follow; fails exactly if a key is due or the scalar cannot be read |
| `YamlScanner.Scanner.FetchKeyable` | gopkg.in/yaml.v2/scannerc.go:1333-1426 | its token is appended, and the key saved becomes the key of that token; behind a plain scalar that has gone past a line break another key may follow; fails exactly if that would replace a required key or the token cannot be read |
| `YamlScanner.Scanner.FetchNextToken` | gopkg.in/yaml.v2/scannerc.go:665-840 | keeps the invariant, makes progress through the input, and adds to the visible tokens just what the lexeme shows |
| `YamlScanner.Scanner.FetchMoreTokens` | gopkg.in/yaml.v2/scannerc.go:626-662 | stops exactly when no possible key names the head of the queue |
| `YamlScanner.Scanner.Take` | gopkg.in/yaml.v2/parserc.go:54-59 | the token handed out is never overtaken by an insertion |
| `YamlScanner.InsertKeepsKeys` | gopkg.in/yaml.v2/scannerc.go:931-955 | an insertion at or above every key leaves each key on its token |
| `YamlScanner.NeverNegativeInsert` | gopkg.in/yaml.v2/scannerc.go:931-981 | no insertion makes a prefix end more blocks than it starts |
| `YamlScanner.VisibleKey` | gopkg.in/yaml.v2/scannerc.go:1268-1330 | the tokens inserted late do not change what is visible |
| `YamlScanner.ShownAtEnd` | gopkg.in/yaml.v2/scannerc.go:1010-1038 | at the first STREAM-END the tokens handed out show just the lexemes up to there |
| `YamlScanner.ScanAll` | gopkg.in/yaml.v2/scannerc.go:626-1038 | no prefix of the tokens ends more blocks than it starts; the stream ends with its one STREAM-END, and outside flow collections with every block closed; apart from block marks and keys the tokens are the lexemes up to the first end of the input, all of them, in their order and at their places; for lexemes in their places they are the start of what the run on values comes to |
| `YamlScannerLaws.RunLaid` | gopkg.in/yaml.v2/scannerc.go:867-1426 | in every run over lexemes in their places: the stack of indentations is the columns of the blocks open in the tokens, each possible key names a token that may start one, at its level, with nothing but the text of a key behind it, and the tokens are laid out by their columns |
| `YamlScannerLaws.ScanLayout` | gopkg.in/yaml.v2/scannerc.go:931-981 | the tokens handed out are laid out by columns: a block starts further in than the one around it and with the entry, key or value at its place, entries and keys stand just at the column of their block and other tokens no further out, a block ends before what is further out or at the margin, and document indicators stand outside all blocks |
| `YamlScannerLaws.RunNear` | gopkg.in/yaml.v2/scannerc.go:842-891 | in every run each KEY comes from a question mark at its place, or stands directly before a token at the same place whose VALUE is in the same flow collection, on the same line and within 1024 characters |
| `YamlScannerLaws.FoundLate` | gopkg.in/yaml.v2/scannerc.go:1268-1312 | conversely a text on one line, where a key may start, is a key if a colon follows within 1024 characters: its KEY stands before its first token, and a BLOCK-MAPPING-START before that exactly if the text is further in than its block |
| `YamlScannerLaws.MustBeKey` | gopkg.in/yaml.v2/scannerc.go:842-907 | such a text at the column of its block has to be a key: it is an error if anything but more of the text follows on its line, or if the line or the 1024 characters are over before the colon |
| `YamlScannerLaws.MayStartExactly` | gopkg.in/yaml.v2/scannerc.go:984-1007 | a key may start at the beginning, where the lexeme before lets it, and behind a line break outside flow collections |
| `YamlScannerLaws.AllowedExactly` | gopkg.in/yaml.v2/scannerc.go:1099-1426 | the lexemes behind which a key may start: those that open or separate, block scalars, plain scalars that have gone past a line break, and outside flow collections a question mark and a colon that made no key late |
| `YamlReader.DecodedExactly` | gopkg.in/yaml.v2/readerc.go:158-357 | decoding accepts exactly the UTF-8 or UTF-16 encodings of allowed characters, and inverts encoding |
| `YamlReader.TranscodedExactly` | gopkg.in/yaml.v2/readerc.go:16-53 | an input is read as a text exactly if the text has allowed characters only and the input is its little-endian UTF-16 behind FF FE, its big-endian UTF-16 behind FE FF, or its UTF-8 behind EF BB BF or without a mark |
| `YamlReader.AllowedMeans` | gopkg.in/yaml.v2/readerc.go:342-357 | not allowed are just the control characters other than tab, line feed, carriage return and next line, the surrogates, and the last two code points of the first plane |
| `YamlReader.Units` | gopkg.in/yaml.v2/readerc.go:254-336 | the bytes of a character in UTF-16 in both orders, with the surrogates that it is the sum of |
| `YamlReader.ControlRefused` | gopkg.in/yaml.v2/readerc.go:342-359 | a character that is not allowed is refused as such in every encoding |
| `YamlReader.Utf8Refused` | gopkg.in/yaml.v2/readerc.go:159-252 | a value in more bytes than it needs, a surrogate and a value beyond the last code point are refused in UTF-8 |
| `YamlReader.Utf16Refused` | gopkg.in/yaml.v2/readerc.go:254-336 | in UTF-16 a low surrogate comes only behind a high one, and a high one needs one |
| `YamlReader.ProblemForth` | gopkg.in/yaml.v2/readerc.go:148-393 | the problem named is that of what stands behind the allowed characters read so far |
| `YamlReader.ProblemBack` | gopkg.in/yaml.v2/readerc.go:148-393 | and whenever a problem is named, the input is such characters with that problem behind them |
| `YamlReader.Utf8Identity` | gopkg.in/yaml.v2/readerc.go:159-252 | for UTF-8 the transcoding is the identity behind the byte order mark |
| `YamlReader.NextStays` | gopkg.in/yaml.v2/readerc.go:195-203 | what has been decided about a character is not changed by more bytes |
| `YamlReader.Reader.DetermineEncoding` | gopkg.in/yaml.v2/readerc.go:25-53 | the encoding and the length of its mark are those of the whole input; which marks these are is said by `TranscodedExactly` |
| `YamlReader.Reader.UpdateRawBuffer` | gopkg.in/yaml.v2/readerc.go:56-89 | what is left and what is to come make up the same bytes as before |
| `YamlReader.Reader.DecodeUtf8` | gopkg.in/yaml.v2/readerc.go:159-252 | the loop over trailing octets computes the decoding on values, with its five errors |
| `YamlReader.Reader.DecodeUtf16` | gopkg.in/yaml.v2/readerc.go:254-336 | computes the decoding on values, with surrogate pairs and four errors |
| `YamlReader.Reader.Store` | gopkg.in/yaml.v2/readerc.go:364-389 | appends the UTF-8 encoding of a character |
| `YamlReader.Reader.DecodeRaw` | gopkg.in/yaml.v2/readerc.go:148-393 | moves every complete character, within the capacity, or reports the first problem of the input |
| `YamlReader.Reader.UpdateBuffer` | gopkg.in/yaml.v2/readerc.go:95-412 | the buffer gets as many characters as asked for, or all that are left and NULs; in any case as many bytes; no write leaves it |
| `YamlReader.Reader.Skip` | gopkg.in/yaml.v2/scannerc.go:491-496 | one character is skipped |
| `YamlReader.ReadAll` | gopkg.in/yaml.v2/readerc.go:25-412 | however the handler splits the input, the bytes seen are the UTF-8 encoding of its characters, which are those that it represents: little-endian UTF-16 behind FF FE, big-endian behind FE FF, and UTF-8 behind EF BB BF or without a mark; it is refused with its first problem exactly if it has one |
| `YamlAliasBudget.BudgetBound` | gopkg.in/yaml.v3/decode.go:479-486 | while the budget lasts, 100 times the nodes outside aliases bound all decodes, beyond 1000 |
| `YamlAliasBudget.ExcessiveExactly` | gopkg.in/yaml.v3/decode.go:452-486 | the budget in whole numbers: refused beyond 1000 decodes and 100 from aliases exactly if more than 99 in 100 come from aliases up to 400,000 decodes, more than one in ten from 4,000,000 on, and more than the line between the two in between |
| `YamlAliasBudget.PlainCost` | gopkg.in/yaml.v3/decode.go:479-517 | a tree without aliases and merges is met node by node, each once |
| `YamlAliasBudget.AllowedAliasedBound` | gopkg.in/yaml.v3/decode.go:463-477 | at most 400,000 decodes may come from aliases exactly up to 404,494 decodes and at 4,000,000 |
| `YamlAliasBudget.AllowedInTheMiddle` | gopkg.in/yaml.v3/decode.go:463-477 | at 2,200,000 decodes 1,199,000 may |
| `YamlAliasBudget.Decoder.Unmarshal` | gopkg.in/yaml.v3/decode.go:479-517 | terminates; outside aliases meets no more nodes than the tree has; with everything wanted meets exactly the nodes of the expansion |
| `YamlAliasBudget.Decoder.UnmarshalAlias` | gopkg.in/yaml.v3/decode.go:528-539 | expands an alias, and fails on one that is being expanded |
| `YamlAliasBudget.Decoder.UnmarshalSequence` | gopkg.in/yaml.v3/decode.go:724-760 | walks over the elements |
| `YamlAliasBudget.Decoder.UnmarshalMapping` | gopkg.in/yaml.v3/decode.go:762-831 | walks over the pairs |
| `YamlAliasBudget.Decoder.Merge` | gopkg.in/yaml.v3/decode.go:919-944 | merges a mapping or mappings, and fails on anything else |
| `YamlAliasBudget.Decode` | gopkg.in/yaml.v3/decode.go:479-539 | every document is decoded or refused within max(1000, 100 N + 100) + 1 decodes, of which at least one and at most N are outside aliases; with everything wanted the count is that of the full expansion, and it is refused only if there is none or if it asks for too much |
| `YamlAliasBudget.ExponentialExpansion` | gopkg.in/yaml.v3/decode.go:528-539 | a document of 3 k + 2 nodes whose expansion has more than two to the power of k |
| `GrpcRetry.StepKeeps` | google.golang.org/grpc/stream.go:509-750 | every action of any thread keeps the invariant |
| `GrpcRetry.StepStreams` | google.golang.org/grpc/stream.go:633-750 | every action keeps that an operation which has come back had a stream to run on, and that a new attempt is made only before commitment |
| `GrpcRetry.ExactDelivery` | google.golang.org/grpc/stream.go:633-750 | in every run, while uncommitted the buffer is what has completed; the current attempt has taken a prefix of that and, while alive, exactly that; a committed one has taken every send of the application, once, in order |
| `GrpcRetry.NeverReplaced` | google.golang.org/grpc/stream.go:525-545 | once committed with a stream an attempt is never replaced and never loses what it took |
| `GrpcRetry.VerdictMeans` | google.golang.org/grpc/stream.go:525-627 | a retry is free only without a stream, and otherwise uses up the first attempt or one of the policy's retries, before commitment |
| `GrpcRetryPolicy.VerdictExactly` | google.golang.org/grpc/stream.go:525-627 | the three reasons to retry, each with its exact condition: free, with no stream and nothing sent, for RPCs that wait; transparent, on the first attempt, with nothing sent or a stream that the server did not process; and counted, with a retryable status, no throttling, no cancellation, retries left and, if there was a stream, trailers only and a pushback that is absent or one delay; the last two only before the stream is committed or finished |
| `GrpcRetryPolicy.JudgeExactly` | google.golang.org/grpc/stream.go:525-648 | exactly then the attempt is replaced and the counters count which reason it was; otherwise the stream is committed and the operation ends |
| `GrpcRetryPolicy.RetriesJustified` | google.golang.org/grpc/stream.go:633-648 | in every run a thread comes to make a new attempt exactly by a verdict on the current one for which one of the three reasons holds |
| `GrpcRetryPolicy.Accounted` | google.golang.org/grpc/stream.go:525-648 | in every run the attempts made are one more than the retries decided; the counters count the free and the counted ones, and at most one was transparent |
| `GrpcRetryPolicy.SettleExactly` | google.golang.org/grpc/stream.go:657-685 | an operation on an attempt that was replaced starts again, one that has succeeded is over and buffered or committed, and any other is for the verdict |
| `GrpcRetryPolicy.BufferExactly` | google.golang.org/grpc/stream.go:739-750 | an operation that has succeeded is buffered exactly if the stream is not committed and the bytes fit; otherwise the stream is committed and the buffer dropped |
| `GrpcRetryPolicy.CommittedExactly` | google.golang.org/grpc/stream.go:509-523 | in every run the stream is committed exactly if it was told to be, finished or given up, an operation ended that has received an answer or no longer fits the buffer, or there was a verdict against a retry |
| `GrpcRetryPolicy.BufferFits` | google.golang.org/grpc/stream.go:739-750 | in every run, as long as the stream is not committed, what has completed fits into the buffer |
| `GrpcRetry.AttemptBound` | google.golang.org/grpc/service_config.go:341-344 | a fail-fast RPC retries at most MaxAttempts - 1 times and creates at most MaxAttempts + 1 attempts, at most 6 |
| `GrpcRetry.CallbacksOnce` | google.golang.org/grpc/stream.go:863-906 | `onCommit` runs at most once, `done` at most once for each attempt, and exactly once for all of them when the stream has finished |
| `GrpcRetryPanics.StrandedExactly` | google.golang.org/grpc/stream.go:633-648 | in every run the current attempt of an open stream is left without a stream exactly if an operation was refused there with an error other than io.EOF |
| `GrpcRetryPanics.PanicsExactly` | google.golang.org/grpc/stream.go:657-685 | in every run an operation dereferences a nil stream exactly if it entered the current attempt after that |
| `GrpcRetryPanics.PanicRun` | google.golang.org/grpc/stream.go:839-861 | a run that ends so, for every configuration that buffers |
| `GrpcRetryPanics.UncommittedPanic` | google.golang.org/grpc/stream.go:633-648 | another, without commitment, for RPCs that wait for a connection |
| `GrpcRetryPanics.PanicReachable` | google.golang.org/grpc/stream.go:739-750 | such runs exist exactly if anything is buffered at all |
| `GrpcRetryProgress.StepProgress` | google.golang.org/grpc/stream.go:633-685 | each step of a fail-fast RPC uses up an attempt or brings a thread closer to the end of its operation |
| `GrpcRetryProgress.RetriesEnd` | google.golang.org/grpc/stream.go:633-685 | so the nested retry loops end |
| `GrpcRetryProgress.WaitsWithoutBound` | google.golang.org/grpc/stream.go:525-545 | without fail-fast there are runs with any number of attempts |
| `GrpcConn.StepKeeps` | google.golang.org/grpc/clientconn.go:1132-1311 | every action keeps the invariant |
| `GrpcConn.StartedOnce` | google.golang.org/grpc/clientconn.go:828-846 | at most one `resetTransport` is ever started |
| `GrpcConn.ReadyHasTransport` | google.golang.org/grpc/clientconn.go:1430-1448 | ready exactly if there is a transport to hand out; the goroutine waits for just that one, or knows that it is down |
| `GrpcConn.ShutdownAbsorbs` | google.golang.org/grpc/clientconn.go:1453-1490 | once shut down, always shut down, and without a transport |
| `GrpcConn.NeverIdleAgain` | google.golang.org/grpc/clientconn.go:828-846 | a connection never goes back to idle |
| `GrpcConn.NeverPanics` | google.golang.org/grpc/clientconn.go:1203-1214 | there is always an address to dial, so that the goroutine never waits for a nil event |
| `GrpcConn.EmptyListEnds` | google.golang.org/grpc/balancer_conn_wrappers.go:204-210 | an update to an empty list shuts the connection down for good |
| `GrpcConn.ShutdownExactly` | google.golang.org/grpc/clientconn.go:1453-1490 | in every run the connection is shut down exactly if it was torn down or given an empty list |
| `GrpcConn.IdleExactly` | google.golang.org/grpc/clientconn.go:828-846 | in every run it is idle exactly if it was neither connected nor torn down, and its goroutine was started exactly if it was connected before it was torn down |
| `GrpcConn.TransportStep` | google.golang.org/grpc/clientconn.go:1132-1214 | the transport in use is the last one dialed that came back before a shutdown, until its goroutine starts over |
| `GrpcConn.ReadyStep` | google.golang.org/grpc/clientconn.go:1286-1415 | it becomes ready exactly with a transport that needs no health check or by the word of the health check of the transport in use, and stays so until told otherwise, started over or called back |
| `GrpcConn.FailureStep` | google.golang.org/grpc/clientconn.go:1155-1185 | it fails for a while exactly when every address has failed or the health check says so |
| `GrpcConn.AddrsStep` | google.golang.org/grpc/clientconn.go:863-905 | the addresses are those of the last update taken; one for a connection in use is taken only with the address in use among them |
| `GrpcConn.DialStep` | google.golang.org/grpc/clientconn.go:1232-1266 | a try comes to that transport, the next address, or a failure with none left |
| `GrpcConn.TurnStep` | google.golang.org/grpc/clientconn.go:1132-1214 | a turn starts with every address, serves a transport until that has called back, backs off when none works, and ends for good only by a shutdown |
| `GrpcConn.DeadIsNoticed` | google.golang.org/grpc/clientconn.go:1270-1311 | in every run a transport that has called back can be given up and then is, and at the callback the connection ceases to be ready |
| `GrpcPicker.StepKeeps` | google.golang.org/grpc/picker_wrapper.go:47-177 | every action keeps the invariant |
| `GrpcPicker.NoDoubleClose` | google.golang.org/grpc/picker_wrapper.go:47-58 | no channel is closed twice |
| `GrpcPicker.TriedOnce` | google.golang.org/grpc/picker_wrapper.go:84-166 | a pick calls each picker at most once |
| `GrpcPicker.NothingMissed` | google.golang.org/grpc/picker_wrapper.go:84-166 | a blocked pick can wake up, or waits on the current open channel with no picker or one that it has called |
| `GrpcPicker.EveryoneWakes` | google.golang.org/grpc/picker_wrapper.go:47-58 | an update or a close lets every blocked pick go on |
| `GrpcPicker.StaysClosed` | google.golang.org/grpc/picker_wrapper.go:169-177 | a closed wrapper stays closed and nobody picks any more |
| `GrpcPicker.PickerExactly` | google.golang.org/grpc/picker_wrapper.go:47-58 | in every run the wrapper is closed exactly if `close` was called, and the picker in use is that of the last update before, if it brought one |
| `GrpcPicker.RoundExactly` | google.golang.org/grpc/picker_wrapper.go:84-128 | in every run a round of a pick ends when the wrapper is closed, blocks without a picker or with one that it has called, and otherwise calls the current one |
| `GrpcPicker.CallStep` | google.golang.org/grpc/picker_wrapper.go:97-166 | nobody else moves a pick: it goes on when its channel is closed, ends with its context, and behind the picker ends or starts over |
| `GrpcServer.EmptyTable` | google.golang.org/grpc/server.go:1774-1776 | the table that `GracefulStop` waits for is empty exactly if no transport is left |
| `GrpcServer.StepKeeps` | google.golang.org/grpc/server.go:1014-1050 | every action keeps the accounts, and nobody sleeps through what it waits for |
| `GrpcServer.TableIsLive` | google.golang.org/grpc/server.go:1014-1050 | in every run no address has an empty set, and the table holds just the transports accepted and not removed, all drained while draining |
| `GrpcServer.NothingForgotten` | google.golang.org/grpc/server.go:1694-1734 | in every run, without a table each accepted transport was removed or handed to `Stop`, and without a `Stop` removed |
| `GrpcServer.NothingMissed` | google.golang.org/grpc/server.go:1774-1776 | in every run a call of `GracefulStop` sleeps only while a transport is tracked, and when none is, every call can go on and is over with its next step |
| `GrpcServer.OverMeansStopped` | google.golang.org/grpc/server.go:1740-1783 | in every run a call of `GracefulStop` that is over has left nothing behind |
| `GrpcServer.EveryOfferAnswered` | google.golang.org/grpc/server.go:1014-1033 | in every run each transport offered was accepted or closed at once, and what was accepted is closed only by `Stop` and drained only by `GracefulStop` |
| `GrpcServer.StoppedExactly` | google.golang.org/grpc/server.go:1694-1734 | in every run the server is stopped exactly if `Stop` was called |
| `GrpcServer.DrainExactly` | google.golang.org/grpc/server.go:1740-1766 | in every run it drains exactly if a call of `GracefulStop` has found a table |
| `GrpcServer.AcceptedExactly` | google.golang.org/grpc/server.go:1014-1033 | in every run a transport is accepted exactly if it was offered while there was a table |
| `GrpcServer.RemovedExactly` | google.golang.org/grpc/server.go:1035-1050 | in every run a transport is removed exactly if that was asked for |
| `GrpcServer.TableGone` | google.golang.org/grpc/server.go:1694-1783 | in every run the table is gone exactly if `Stop` was called or a call of `GracefulStop` found nothing left |
| `GrpcServer.Server.AddConn` | google.golang.org/grpc/server.go:1014-1033 | tracks, drains or closes a new transport, as the action on values says |
| `GrpcServer.Server.RemoveConn` | google.golang.org/grpc/server.go:1035-1050 | forgets a transport, and its address with the last one, and wakes who waits, as the action on values says |
| `GrpcServer.Server.StopLocked` | google.golang.org/grpc/server.go:1694-1734 | takes the table, hands what was live to be closed and wakes who waits, as the action on values says |
| `GrpcServer.Server.GracefulStopBegins` | google.golang.org/grpc/server.go:1740-1766 | drains what is live and whatever comes, as the action on values says |
| `GrpcServer.Server.GracefulStopChecks` | google.golang.org/grpc/server.go:1768-1783 | sleeps while a transport is tracked and otherwise ends, as the action on values says |
| `GrpcServer.Run` | google.golang.org/grpc/server.go:1694-1783 | the server under any list of actions comes to what they come to on values; the table holds just what is live, drained while draining, and without a table each accepted transport was removed or handed to `Stop`; nobody sleeps without a live transport |
| `SpanStore.Bucket.Add` | go.opencensus.io/trace/spanbucket.go:52-67 | the list gets the span and loses its oldest one beyond the capacity, unless it ends too soon |
| `SpanStore.Bucket.SpanAt` | go.opencensus.io/trace/spanbucket.go:77-85 | the circular index reads the list in its order |
| `SpanStore.Bucket.Size` | go.opencensus.io/trace/spanbucket.go:69-74 | the length of the list |
| `SpanStore.Bucket.Resize` | go.opencensus.io/trace/spanbucket.go:88-106 | keeps the most recent spans that fit |
| `SpanStore.HoldsMostRecent` | go.opencensus.io/trace/spanbucket.go:52-106 | a bucket holds the most recent of the spans that it accepted, however it was resized |
| `SpanStore.AcceptedExactly` | go.opencensus.io/trace/spanbucket.go:52-67 | after any run a span is accepted exactly if the bucket has room for any and it ends a second or more behind the last one accepted, or for the first one not before the epoch |
| `SpanStore.KeepsAll` | go.opencensus.io/trace/spanbucket.go:52-67 | without resizings the bucket holds just as many of the last spans accepted as fit |
| `SpanStore.ResizedKeeps` | go.opencensus.io/trace/spanbucket.go:88-106 | and behind a resizing as many of them as fit into both sizes |
| `SpanStore.Collect` | go.opencensus.io/trace/spanbucket.go:52-106 | after any adds and resizings the list is the most recent spans accepted, with end times a sample period apart |
| `SpanStore.LatencyBucket` | go.opencensus.io/trace/spanbucket.go:109-115 | the range that holds the latency |
| `SpanStore.NothingSkipped` | go.opencensus.io/trace/spanstore.go:146-179 | a bucket skipped for its bounds holds no span within them |
| `SpanStore.FilteredExactly` | go.opencensus.io/trace/spanstore.go:146-179 | a span is let through exactly if it took no less than the minimum and no more than the maximum, of which zero is none |
| `SpanStore.Store.Finished` | go.opencensus.io/trace/spanstore.go:282-306 | a successful span goes to the bucket of its latency, and no other bucket changes |
| `SpanStore.Store.Resize` | go.opencensus.io/trace/spanstore.go:261-271 | resizes every bucket |
| `SpanStore.Store.ReportSpansByLatency` | go.opencensus.io/trace/spanstore.go:146-179 | the pruned report is the plain filter over all buckets, for a maximum that is not negative, and empty otherwise |
| `SpanStore.Report` | go.opencensus.io/trace/spanstore.go:146-179 | the same after any run, over what each bucket retains on its own |
| `SpanStore.NegativeMaximum` | go.opencensus.io/trace/spanstore.go:146-179 | a span within negative bounds that is not reported |
| `TagCodec.LengthBack` | go.opencensus.io/tag/map_codec.go:119-136 | every length of 64 bits is read back exactly, whatever follows it |
| `TagCodec.RoundTrip` | go.opencensus.io/tag/map_codec.go:164-239 | decoding gives back just the tags that propagate, in whatever order the map was walked, exactly if their keys and values are valid; otherwise it fails |
| `TagCodec.WireFormat` | go.opencensus.io/tag/map_codec.go:164-180 | a tag with unlimited propagation is on the wire as the version, its type, and its key and value behind their lengths; any other is not |
| `TagCodec.ShortLengths` | go.opencensus.io/tag/map_codec.go:65-81 | a length below 128 is one byte, and one below 16384 two, the lower seven bits first and marked |
| `TagCodec.Encoder.GrowIfRequired` | go.opencensus.io/tag/map_codec.go:146-152 | there is room, and nothing written is lost |
| `TagCodec.Encoder.PutUvarint` | go.opencensus.io/tag/map_codec.go:65-81 | writes the varint within ten bytes |
| `TagCodec.Encoder.WriteBytesWithVarintLen` | go.opencensus.io/tag/map_codec.go:65-81 | appends the length and the bytes |
| `TagCodec.Encoder.ReadBytesWithVarintLen` | go.opencensus.io/tag/map_codec.go:119-136 | reads a field, or says why there is none, or panics for a length that overflows |
| `TagCodec.Encode` | go.opencensus.io/tag/map_codec.go:164-180 | computes the encoding on values |
| `TagCodec.Decode` | go.opencensus.io/tag/map_codec.go:183-239 | computes the decoding on values, with its errors and its panic |
| `TagCodec.Propagate` | go.opencensus.io/tag/map_codec.go:164-239 | encoding and decoding with the buffers gives just the unlimited part, exactly if it is valid |
| `TagCodec.PanicsExactly` | go.opencensus.io/tag/map_codec.go:119-239 | for every text: decoding panics exactly if, behind a chain of whole tags, the key or the value of a tag has a length that takes its end past the signed 64-bit numbers |
| `TagCodec.SucceedsExactly` | go.opencensus.io/tag/map_codec.go:183-239 | for every text: decoding succeeds exactly if the text is empty or such a chain of whole and valid tags up to its end |
| `TagCodec.OverflowPanics` | go.opencensus.io/tag/map_codec.go:119-136 | a first key with any length from two to the power of 63 on is a panic, whatever follows |
| `TagCodec.NineBytesAndABit` | go.opencensus.io/tag/map_codec.go:127-135 | with the largest length, a text of twelve bytes panics |
| `SpanId.MadeOdd` | go.opencensus.io/trace/trace.go:546-546 | the increment is odd, and otherwise as drawn |
| `SpanId.NeverTheSame` | go.opencensus.io/trace/trace.go:577-585 | fewer than two to the power of 64 additions apart the counter is never the same |
| `SpanId.Generator.NewSpanId` | go.opencensus.io/trace/trace.go:577-585 | an ID that is not zero, after at most two additions |
| `SpanId.Issue` | go.opencensus.io/trace/trace.go:577-585 | up to two to the power of 64 less one IDs: the values of the counter from its start and increment in their order, without zeros, and no two the same |
| `SpanId.InterleavedCalls` | go.opencensus.io/trace/trace.go:577-585 | calls that interleave get different IDs, in at most two additions each, and only one of them needs two |
| `SpanId.BytesDiffer` | go.opencensus.io/trace/trace.go:577-585 | different IDs have different bytes |
| `SpanId.LittleEndian` | go.opencensus.io/trace/trace.go:577-585 | the least significant byte comes first |

## Left out

- Transports, dialing, TLS, resolvers, balancers, channelz, statistics, binary logs and tracing: what they answer is part of an action.
- `SendMsg` after `CloseSend`, message preparation and size limits: they refuse a call before the protocol starts.
- Backoff times, throttling tokens and deadlines: only whether they let a retry through.
- Client listeners of the server (`s.lis`) and its worker goroutines.
- Error buckets and the set of active spans of the store, and its summaries: they would add easy members beside the index by latency.
- Plain, literal and folded scalars: their text depends on its surroundings, so there is no general round trip.
- The characters of block scalars, anchors, tags and directives in the scanner: lexemes stand for them.
- The text that the emitter's machine writes, except for quoted scalars.
- Conversion of scalars to Go values, and custom unmarshalers.
- `yaml.v2` key sorting: its order is not transitive.
- `ini.v1`, and packages of options and configuration.
- YamlTokenPrinter.ComposePrinted: is about the tokens of written documents; which other lists are refused is said by `ParseWhole` for the parser.
- YamlAccepted.ParseWhole: is about anchors with a name and tags with a handle or a suffix, which is what the scanner makes; for runs in which a token is missed behind the KEY of a single pair, `EmptyKeyRun` says what becomes of it.
- YamlScannerLaws.ScanLayout: is about lexemes one behind the other, with directives and document indicators at the margin, which is where the scanner looks for them.
- YamlScanner.ScanAll: is about inputs that never come back from their end, which is how the reader behaves.
- YamlReader.Reader.UpdateBuffer: is about requests of up to eight characters.
- YamlAliasBudget.Decoder.Unmarshal: bounds the nodes that are met from above unless everything is wanted, because what is wanted depends on the Go value.
- YamlEmitter.Emitter.EmitBlockSequenceItem: leaves open whether a sequence in a mapping is indented, because that depends on the text written so far.
- YamlWriter.Writer.AnalyzeScalar: leaves out what the analysis says about plain and block scalars.
- SpanStore.Store.Finished: files spans without an error only; those with one go to buckets of the same kind, one for each code.
- SpanStore.Store.Resize: resizes the buckets by latency only.
- `Context` of a client stream, which dereferences the stream of the current attempt as well.
