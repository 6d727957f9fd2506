# StatsD / DogStatsD line mapper

A Dafny model of `DefaultMetricMapper`, the part of the Statful StatsD
exporter that turns a batch of raw StatsD lines (with the DogStatsD `#tag`
extension) into metric events. The model covers the whole per-line pipeline:
- `validLine` cuts a line at its first `:`.
- `validLineMetadata` splits the metadata on `|` and checks that there are two to four components.
- The value is parsed, and an unparsable value leaves it at 0.
- The optional `@` (sampling factor) and `#` (tag block) components are scanned.
- `parseDogStatsDTags` decodes a tag block.
- `escapeString` sanitises names, tag keys and tag values.
- `buildEvent` builds the event.

It also covers the batch driver `map`, with its pluggable `processable`
filter and `process` transform.

Every self-metric the mapper sends to its optional Statful client is kept as a
`Diagnostic` in a log. A mapper without a client sends nothing.

Layout, one module per component:

- `wrappers.dfy`: `Option` and `Result`, which stand in for Java nulls and exceptions.
- `java_strings.dfy`: Java's `indexOf`, `split(sep, 2)`, `split(sep)` and `replace`.
- `sanitizer.dfy`: `escapeString`.
- `domain.dfy`: events, diagnostics, the exception classes and the platform and processor parameters.
- `tags.dfy`: `parseDogStatsDTags`, including `Collectors.toMap`.
- `line_parser.dfy`: `validLine`, `validLineMetadata`, `isNullOrEmpty` and `buildEvent`, plus `ParseLine`, the specification of `processLine`.
- `batch.dfy`: `MapBatch`, the specification of `map`.
- `mapper.dfy`: the `DefaultMetricMapper` class. Its methods `ProcessLine` and `Map` are written step by step, like the Java, and are proved to compute `ParseLine` and `MapBatch`.
- `tags_examples.dfy` and `line_examples.dfy`: worked examples on concrete lines.

Where the documented design and the code differ, the model follows the code:

- `map` calls `validLine` inside its `processable` filter, outside the `try` of `processLine`. So a line that is empty, has no `:` or has an empty name aborts the whole batch. The batch then returns nothing and sends one `batch_error`. There is no per-line `invalid_lines` for it. For example, a batch holding only `bad.metric|c` sends only `batch_error`.
- Tag values are sanitised like keys, so `#a,b:2` decodes to `{b: digit_2}`.
- A sampling factor that fails to parse keeps the previous factor. That is 1 only when no earlier `@` component parsed.
- Two tag items of one block whose keys sanitise to the same string make `Collectors.toMap` throw. The line then yields no event and sends `invalid_lines`. Across different blocks, `putAll` lets the later block win.
- The Java stream is lazy, so the lines before an aborting line have already sent their self-metrics when `batch_error` is sent.

## Model

| member | source | states |
|---|---|---|
| Sanitizer.Escape | src/main/java/com/statful/mapper/DefaultMetricMapper.java:237-248 | the result has only characters of `[A-Za-z0-9_.]` and never starts with a digit; it is 6 longer (with prefix `digit_`) exactly when the input starts with a digit, else the same length; empty only for empty input |
| Sanitizer.EscapeCharacters | src/main/java/com/statful/mapper/DefaultMetricMapper.java:240-246 | the input ends the output character by character: each legal character is kept in place and each illegal one becomes `_` |
| Sanitizer.EscapeFixedPoint | src/main/java/com/statful/mapper/DefaultMetricMapper.java:237-248 | the sanitiser leaves a name unchanged exactly when it is already canonical (legal characters, no leading digit) |
| Sanitizer.EscapeIdempotent | src/main/java/com/statful/mapper/DefaultMetricMapper.java:237-248 | sanitising twice equals sanitising once |
| Sanitizer.EscapeDigitLed | src/main/java/com/statful/mapper/DefaultMetricMapper.java:240-243 | a legal name that starts with a digit only gains the `digit_` prefix |
| Sanitizer.DigitNameExample | src/main/java/com/statful/mapper/DefaultMetricMapper.java:240-243 | `1abc` becomes `digit_1abc` |
| Sanitizer.IllegalCharactersExample | src/main/java/com/statful/mapper/DefaultMetricMapper.java:245-246 | `foo bar!` becomes `foo_bar_` |
| JavaStrings.SplitFirst | src/main/java/com/statful/mapper/DefaultMetricMapper.java:179 | `split(sep, 2)`: with no separator the whole string is the only piece; otherwise two pieces around the first separator, the second possibly empty |
| JavaStrings.IndexOf | src/main/java/com/statful/mapper/DefaultMetricMapper.java:179 | the position of the first occurrence of the separator, or -1 exactly when it is absent; no earlier character is the separator |
| JavaStrings.SplitFirstOf | src/main/java/com/statful/mapper/DefaultMetricMapper.java:219 | a string built around its first separator splits back into its two halves |
| JavaStrings.Split | src/main/java/com/statful/mapper/DefaultMetricMapper.java:197 | `split(sep)`: a string without the separator (the empty string included) is the only piece; no piece holds the separator; no pieces only when the string is all separators; the last piece of a non-empty string is non-empty |
| JavaStrings.Pieces | src/main/java/com/statful/mapper/DefaultMetricMapper.java:197 | cutting at every separator gives at least one separator-free piece, and the pieces joined with the separator give back the string |
| JavaStrings.SplitOfJoin | src/main/java/com/statful/mapper/DefaultMetricMapper.java:197 | separator-free pieces whose last is non-empty, joined with the separator, split back to the same pieces |
| JavaStrings.SplitLosesOnlyTrailingSeparators | src/main/java/com/statful/mapper/DefaultMetricMapper.java:215 | the kept pieces, joined back, are a prefix of the input followed only by separators |
| JavaStrings.PiecesOfJoin | src/main/java/com/statful/mapper/DefaultMetricMapper.java:197 | cutting at every separator inverts joining separator-free pieces |
| JavaStrings.RemoveAll | src/main/java/com/statful/mapper/DefaultMetricMapper.java:219 | `replace("#", "")` leaves no `#` and never lengthens the item |
| JavaStrings.RemoveAllAppend | src/main/java/com/statful/mapper/DefaultMetricMapper.java:219 | removing `#` from a concatenation removes it from each part, so every other character keeps its order |
| JavaStrings.RemoveAllKeepsOthers | src/main/java/com/statful/mapper/DefaultMetricMapper.java:219 | apart from `#`, every character is kept exactly as often |
| JavaStrings.RemoveAbsent | src/main/java/com/statful/mapper/DefaultMetricMapper.java:219 | an item without `#` is unchanged |
| Tags.TagItem | src/main/java/com/statful/mapper/DefaultMetricMapper.java:218-225 | an item is dropped exactly when its `#`-free text has no `:` or ends at its first `:`; a kept item is that text cut at its first `:`, with a non-empty value |
| Tags.TagItemOf | src/main/java/com/statful/mapper/DefaultMetricMapper.java:219-225 | an item whose `#`-free text is `k:v`, `k` without `:` and `v` non-empty, yields `(k, v)` |
| Tags.DecodeItem | src/main/java/com/statful/mapper/DefaultMetricMapper.java:217-228 | a kept item's key and value are canonical and the value is non-empty |
| Tags.SomesMembers | src/main/java/com/statful/mapper/DefaultMetricMapper.java:227 | the filter keeps a pair exactly when some item produced it |
| Tags.ToMap | src/main/java/com/statful/mapper/DefaultMetricMapper.java:228 | `Collectors.toMap` can fail only with IllegalStateException |
| Tags.ToMapContents | src/main/java/com/statful/mapper/DefaultMetricMapper.java:228 | `toMap` succeeds exactly when the keys are distinct, and then the map holds every pair and nothing else |
| Tags.ParseDogStatsDTags | src/main/java/com/statful/mapper/DefaultMetricMapper.java:212-229 | decoding a tag block can fail only with the IllegalStateException of `Collectors.toMap` |
| Tags.TagsDecodeIffDistinctKeys | src/main/java/com/statful/mapper/DefaultMetricMapper.java:212-229 | a tag block decodes exactly when no two kept items share a sanitised key |
| Tags.TagsAreSanitized | src/main/java/com/statful/mapper/DefaultMetricMapper.java:228 | every decoded key and value is canonical and every value is non-empty |
| Tags.TagsComeFromItems | src/main/java/com/statful/mapper/DefaultMetricMapper.java:215-228 | a decoded block maps `k` to `v` exactly when some item decodes to the sanitised pair `(k, v)` |
| Tags.EmptyKeyIsKept | src/main/java/com/statful/mapper/DefaultMetricMapper.java:221 | an item `:v` is kept with the empty key |
| Tags.DropPlainItem | src/main/java/com/statful/mapper/DefaultMetricMapper.java:221-224 | an item without `:` is dropped |
| Tags.CollidingItemsFail | src/main/java/com/statful/mapper/DefaultMetricMapper.java:228 | a two-item block whose two kept items have the same sanitised key throws IllegalStateException (the general case is `TagsDecodeIffDistinctKeys`) |
| Tags.DroppedFirstItem | src/main/java/com/statful/mapper/DefaultMetricMapper.java:221-227 | a block whose first item is dropped holds only the second pair |
| Tags.TwoFixedItems | src/main/java/com/statful/mapper/DefaultMetricMapper.java:215-228 | two well-formed items with distinct, already canonical keys and values decode to a two-entry map |
| TagsExamples.TwoTagsExample | src/main/java/com/statful/mapper/DefaultMetricMapper.java:66 | `#tag:tag_value,another_tag:tag_value` decodes to `{tag: tag_value, another_tag: tag_value}` |
| TagsExamples.CollidingKeysExample | src/main/java/com/statful/mapper/DefaultMetricMapper.java:228 | `#a b:1,a_b:2` throws IllegalStateException, because both keys sanitise to `a_b` |
| TagsExamples.DroppedItemExample | src/main/java/com/statful/mapper/DefaultMetricMapper.java:219-228 | `#a,b:2` drops `a` and decodes to `{b: digit_2}` |
| LineParser.ValidLine | src/main/java/com/statful/mapper/DefaultMetricMapper.java:176-186 | accepts exactly the lines with a `:` that do not start with `:`; the name is the `:`-free text before the first `:` and the metadata is everything after it; an empty line fails with IllegalArgumentException, any other rejected line with InvalidStatsDLineException |
| LineParser.ValidLineOf | src/main/java/com/statful/mapper/DefaultMetricMapper.java:179-185 | a non-empty `:`-free name, `:` and any metadata (which may hold `:`) validate back to the two halves |
| LineParser.ValidLineMetadata | src/main/java/com/statful/mapper/DefaultMetricMapper.java:194-204 | metadata is accepted exactly when it is non-empty and `split("\\|")` gives two to four components, and then the components are exactly that split: `|`-free, the last non-empty; empty metadata fails with IllegalArgumentException, any other rejected metadata with MalformedMetricComponentException |
| LineParser.ValidLineMetadataOf | src/main/java/com/statful/mapper/DefaultMetricMapper.java:197-203 | two to four `|`-free components with a non-empty last one are accepted unchanged |
| LineParser.TrailingSeparatorDropped | src/main/java/com/statful/mapper/DefaultMetricMapper.java:197-203 | trailing `|`s are dropped before counting: `a|b|` gives the two components `a` and `b`, so `320|ms|` is accepted |
| LineParser.OnlySeparatorsRejected | src/main/java/com/statful/mapper/DefaultMetricMapper.java:197-203 | `|||` splits into no components and fails with MalformedMetricComponentException |
| LineParser.OnlySeparatorsSplit | src/main/java/com/statful/mapper/DefaultMetricMapper.java:197 | `split("\\|")` of a non-empty run of `|` is empty |
| LineParser.MetadataRejoins | src/main/java/com/statful/mapper/DefaultMetricMapper.java:197 | the accepted components, joined with `|`, are the metadata up to trailing `|`s |
| LineParser.BuildEvent | src/main/java/com/statful/mapper/DefaultMetricMapper.java:260-274 | succeeds exactly when the name and type are non-empty and the type is a MetricType, with an event of exactly the given fields; otherwise IllegalArgumentException or UnknownMetricTypeException |
| LineParser.NonEmptyComponents | src/main/java/com/statful/mapper/DefaultMetricMapper.java:102-114 | the filter keeps at most all components, each kept one non-empty, and a string is kept exactly when it is a non-empty component |
| LineParser.NonEmptyComponentsAppend | src/main/java/com/statful/mapper/DefaultMetricMapper.java:102-114 | the filter distributes over concatenation, so the kept components keep their order |
| LineParser.NonEmptyComponentsOne | src/main/java/com/statful/mapper/DefaultMetricMapper.java:102-114 | one component is kept exactly when it is non-empty |
| LineParser.EmptyCount | src/main/java/com/statful/mapper/DefaultMetricMapper.java:103-111 | the number of dropped components, one malformed_value each; kept plus dropped is all |
| LineParser.ParseValue | src/main/java/com/statful/mapper/DefaultMetricMapper.java:87-97 | the value is the parsed number, or 0 with exactly one malformed_value when `parseFloat` throws; nothing is sent when it parses |
| LineParser.Classify | src/main/java/com/statful/mapper/DefaultMetricMapper.java:117-144 | a component goes to the sampling-factor branch exactly when it starts with `@` and to the tag branch exactly when it starts with `#` |
| LineParser.ComponentStep | src/main/java/com/statful/mapper/DefaultMetricMapper.java:117-144 | one pass of the `switch`: an aborted loop stays as it is; the loop aborts exactly when a tag block fails; at most two self-metrics are appended; the factor changes only on an `@` that parses and the tags only on a `#` block, merged with `putAll` |
| LineParser.RunComponents | src/main/java/com/statful/mapper/DefaultMetricMapper.java:116-145 | a loop that finishes started from a running state |
| LineParser.ScanCompletesIffTagsDecode | src/main/java/com/statful/mapper/DefaultMetricMapper.java:136-138 | the component loop finishes exactly when every `#` component decodes; otherwise it stops with a decoding exception |
| LineParser.ScanAbortIsFinal | src/main/java/com/statful/mapper/DefaultMetricMapper.java:116-145 | once a tag block has thrown, later components are never looked at |
| LineParser.SamplingIsLastFactor | src/main/java/com/statful/mapper/DefaultMetricMapper.java:88-135 | after the loop the sampling factor is the last `@` value that parsed, or the starting 1 |
| LineParser.TagsAreMergedBlocks | src/main/java/com/statful/mapper/DefaultMetricMapper.java:85-138 | after the loop the tags are the decoded blocks merged in order with `putAll` |
| LineParser.TagUnionKeys | src/main/java/com/statful/mapper/DefaultMetricMapper.java:137 | a key is present exactly when some decoded block holds it |
| LineParser.LaterTagBlockWins | src/main/java/com/statful/mapper/DefaultMetricMapper.java:137 | a key takes its value from the last block that holds it |
| LineParser.MergedTagsAreSanitized | src/main/java/com/statful/mapper/DefaultMetricMapper.java:137 | merging sanitised blocks gives sanitised tags |
| LineParser.ScanDiagsAppendOnly | src/main/java/com/statful/mapper/DefaultMetricMapper.java:116-145 | the loop only appends self-metrics, at most two per component |
| LineParser.ScanDiagKinds | src/main/java/com/statful/mapper/DefaultMetricMapper.java:118-143 | the loop sends only metadata_errors self-metrics |
| LineParser.ScanDiagCounts | src/main/java/com/statful/mapper/DefaultMetricMapper.java:118-143 | a loop that finishes sends one unknown_metadata_component_type per unrecognised component, one invalid_sample_factor per `@` whose number fails to parse, one illegal_metric_type per `@` when the type is unknown (none when known), and nothing else |
| LineParser.StepDiagCounts | src/main/java/com/statful/mapper/DefaultMetricMapper.java:118-143 | the self-metrics one pass adds, counted kind by kind |
| LineParser.UnrecognisedCount | src/main/java/com/statful/mapper/DefaultMetricMapper.java:139-143 | counts the components of the `default` branch; zero exactly when there are none |
| LineParser.SampleCount | src/main/java/com/statful/mapper/DefaultMetricMapper.java:118-135 | counts the `@` components; zero exactly when there are none |
| LineParser.BadFactorCount | src/main/java/com/statful/mapper/DefaultMetricMapper.java:126-133 | counts the `@` components whose number fails to parse; never more than the `@` components |
| LineParser.ParseComponents | src/main/java/com/statful/mapper/DefaultMetricMapper.java:83-158 | once the metadata is split, a line yields at most one event and at least one self-metric, and yields an event exactly when its last self-metric is valid_lines |
| LineParser.ParseLine | src/main/java/com/statful/mapper/DefaultMetricMapper.java:70-167 | `processLine` yields at most one event and sends at least one self-metric; it yields an event exactly when the last self-metric is valid_lines, and only for a line that passes both validations |
| LineParser.Rejected | src/main/java/com/statful/mapper/DefaultMetricMapper.java:159-166 | a line a validation rejects with `e` yields no event and exactly one invalid_lines tagged with `e`, which is not valid_lines |
| LineParser.InvalidLineReported | src/main/java/com/statful/mapper/DefaultMetricMapper.java:159-166 | a line that `validLine` or `validLineMetadata` rejects yields nothing and sends exactly one invalid_lines, tagged with the exception |
| LineParser.EventFields | src/main/java/com/statful/mapper/DefaultMetricMapper.java:74-152 | an event carries the sanitised non-empty name, a known type token, the parsed value (0 if unparsable), the last parsed sampling factor (1 if none) and the blocks merged in order, all sanitised |
| LineParser.RecoverableErrorsKeepEvent | src/main/java/com/statful/mapper/DefaultMetricMapper.java:87-158 | a line yields its event exactly when it passes both validations, every tag block decodes and the type is non-empty and known; bad values, bad or misplaced sampling factors, empty and unknown components never stop it |
| LineParser.TagBlocksDecodeOfText | src/main/java/com/statful/mapper/DefaultMetricMapper.java:136-138 | the loop's blocks decode exactly when every `#` component of the text decodes |
| LineParser.LineDiagnosticsBounded | src/main/java/com/statful/mapper/DefaultMetricMapper.java:90-114 | a line sends at most six self-metrics; the bad-value one and the empty-component ones come first |
| LineParser.ComponentsDiags | src/main/java/com/statful/mapper/DefaultMetricMapper.java:148-163 | the self-metrics are the pre-loop ones, the loop's, and one verdict: invalid_lines with the tag block's exception, valid_lines or illegal_event |
| LineParser.ScanFailsWithIllegalState | src/main/java/com/statful/mapper/DefaultMetricMapper.java:159-163 | a line aborted in the loop is reported as invalid_lines tagged IllegalStateException |
| LineParser.LineDiagKinds | src/main/java/com/statful/mapper/DefaultMetricMapper.java:159-163 | a line never sends batch_error; a line past `validLine` never sends invalid_lines tagged InvalidStatsDLineException |
| LineParser.TwoComponents | src/main/java/com/statful/mapper/DefaultMetricMapper.java:83-158 | value and type only: an event with sampling factor 1 and no tags when the type is known, else illegal_event |
| LineParser.SimpleLine | src/main/java/com/statful/mapper/DefaultMetricMapper.java:74-152 | `name:value|type` yields one event with the sanitised name, the parsed value or 0, sampling factor 1 and no tags when the type is known, else illegal_event |
| LineParser.SampledTaggedLine | src/main/java/com/statful/mapper/DefaultMetricMapper.java:74-152 | `name:value|type|@rate|#tags` with a known type and a decodable block yields one event with the rate (1 if unparsable) and the decoded tags |
| LineExamples.GlorkExample | src/main/java/com/statful/mapper/DefaultMetricMapper.java:66 | `glork:320|ms|@0.1|#tag:tag_value,another_tag:tag_value` yields one `ms` event with value 320, rate 0.1 and two tags, and sends only valid_lines |
| LineExamples.DigitNameLineExample | src/main/java/com/statful/mapper/DefaultMetricMapper.java:241-242 | `3users.online:5|c` yields one counter named `digit_3users.online` with rate 1 and no tags |
| Batch.ProcessEach | src/main/java/com/statful/mapper/DefaultMetricMapper.java:47-48 | `process` over a line's events succeeds exactly when no call throws, and then gives each event's image in order |
| Batch.LineStep | src/main/java/com/statful/mapper/DefaultMetricMapper.java:45-48 | a line that fails `validLine` fails the batch with nothing sent; a line `processable` declines contributes nothing; a completed line contributes at most one event; a line sends self-metrics only when it passed `validLine` and `processable` accepted it, and then exactly those of `processLine` |
| Batch.MapBatch | src/main/java/com/statful/mapper/DefaultMetricMapper.java:38-60 | an empty batch returns and sends nothing; a failed batch returns nothing and sends batch_error last |
| Batch.SequenceAppend | src/main/java/com/statful/mapper/DefaultMetricMapper.java:44-50 | the stream over a concatenation is the stream over the first part followed by the rest |
| Batch.AbortIffSomeLineAborts | src/main/java/com/statful/mapper/DefaultMetricMapper.java:43-59 | the batch fails exactly when some line's `validLine`, `processable` or `process` throws |
| Batch.InvalidLineAbortsBatch | src/main/java/com/statful/mapper/DefaultMetricMapper.java:45 | a line that fails `validLine` fails the whole batch: nothing is returned and batch_error is the last self-metric |
| Batch.BatchErrorIffAborted | src/main/java/com/statful/mapper/DefaultMetricMapper.java:52-59 | batch_error is sent exactly when the batch fails, and then exactly once, as the last self-metric, with nothing returned |
| Batch.InvalidStatsDLineNeverReported | src/main/java/com/statful/mapper/DefaultMetricMapper.java:45-46 | invalid_lines is never tagged InvalidStatsDLineException, because `validLine` has already passed |
| Batch.SelfMetricsBounded | src/main/java/com/statful/mapper/DefaultMetricMapper.java:44-50 | a batch returns at most one event per line and sends at most six self-metrics per line plus one |
| Batch.EventlessLineIsTransparent | src/main/java/com/statful/mapper/DefaultMetricMapper.java:44-50 | a line that yields and sends nothing can be removed from a batch without changing anything |
| Batch.SkippedLineIsSilent | src/main/java/com/statful/mapper/DefaultMetricMapper.java:45 | a line whose raw name `processable` declines is as if absent: no events and no self-metrics |
| Batch.AbortedPrefixIsFinal | src/main/java/com/statful/mapper/DefaultMetricMapper.java:44-59 | once a prefix of the batch has failed, later lines change nothing |
| Batch.CompletedSequenceEvents | src/main/java/com/statful/mapper/DefaultMetricMapper.java:49-50 | a completed stream returns its lines' events concatenated in order, and every line completed |
| Batch.CompletedSequenceDiags | src/main/java/com/statful/mapper/DefaultMetricMapper.java:44-50 | a completed stream sends its lines' self-metrics concatenated in order |
| Batch.CompletedLineStep | src/main/java/com/statful/mapper/DefaultMetricMapper.java:45-48 | a line that does not fail the batch passed `validLine` and `processable`; it contributes `process` of `processLine`'s events when accepted, nothing when declined |
| Batch.BatchIsConcatenation | src/main/java/com/statful/mapper/DefaultMetricMapper.java:44-50 | `map` over a completed batch returns the in-order concatenation of every line's events and sends the in-order concatenation of every line's self-metrics |
| Batch.LineFailureIsolated | src/main/java/com/statful/mapper/DefaultMetricMapper.java:159-166 | a line whose failure `processLine` catches leaves the events of the other lines unchanged |
| Batch.MalformedMetadataIsolated | src/main/java/com/statful/mapper/DefaultMetricMapper.java:194-204 | a line with rejected metadata contributes no event and exactly one invalid_lines, and leaves the other lines' events unchanged |
| Batch.LineWithoutColonAborts | src/main/java/com/statful/mapper/DefaultMetricMapper.java:179-183 | a one-line batch without `:` returns nothing and sends only batch_error |
| Batch.MissingColonExample | src/main/java/com/statful/mapper/DefaultMetricMapper.java:45 | `bad.metric|c` returns nothing and sends only batch_error |
| Mapper.DefaultMetricMapper.constructor | src/main/java/com/statful/mapper/DefaultMetricMapper.java:29-31 | a new mapper holds its processor and has no client and no self-metrics |
| Mapper.DefaultMetricMapper.SetStatfulClient | src/main/java/com/statful/mapper/DefaultMetricMapper.java:33-35 | sets or clears the client |
| Mapper.DefaultMetricMapper.Record | src/main/java/com/statful/mapper/DefaultMetricMapper.java:94-96 | a self-metric reaches the log only when a client is set |
| Mapper.DefaultMetricMapper.ParseValueOf | src/main/java/com/statful/mapper/DefaultMetricMapper.java:87-97 | the parsed value, or 0 with one malformed_value |
| Mapper.DefaultMetricMapper.FilterComponents | src/main/java/com/statful/mapper/DefaultMetricMapper.java:102-114 | the loop keeps the non-empty components and sends one malformed_value per empty one |
| Mapper.DefaultMetricMapper.ScanComponent | src/main/java/com/statful/mapper/DefaultMetricMapper.java:117-144 | one pass of the `switch` updates the factor, tags and self-metrics as one step of the specification does |
| Mapper.DefaultMetricMapper.ScanComponents | src/main/java/com/statful/mapper/DefaultMetricMapper.java:116-145 | the `for` loop computes the specified factor, tags and self-metrics, or stops at the first tag block that throws |
| Mapper.DefaultMetricMapper.ProcessLine | src/main/java/com/statful/mapper/DefaultMetricMapper.java:70-167 | returns the events of `ParseLine` and appends its self-metrics when a client is set |
| Mapper.DefaultMetricMapper.ProcessEvents | src/main/java/com/statful/mapper/DefaultMetricMapper.java:47-48 | applies `process` to each event in order, or reports that a call threw |
| Mapper.DefaultMetricMapper.MapLine | src/main/java/com/statful/mapper/DefaultMetricMapper.java:45-48 | one line through the filter, `processLine` and `process`, as the line step of the specification |
| Mapper.DefaultMetricMapper.Map | src/main/java/com/statful/mapper/DefaultMetricMapper.java:38-60 | returns the events of `MapBatch` and appends its self-metrics, ending with batch_error on failure; a mapper without a client records nothing |

## Left out

- `Float.parseFloat` and IEEE single precision are not modelled. Parsing is a parameter of type `string -> Option<real>`, where `None` means NumberFormatException. Values and sample rates are reals, with no rounding.
- The `MetricType` enumeration is not modelled. It is a parameter: a set of type tokens. The check at line 119 and `MetricType.fromString` at line 267 are assumed to accept the same tokens. An event keeps its type token.
- `DefaultEvent` and its builder are not modelled. An event is a plain datatype holding the five fields passed to the builder.
- `MappingProcessor` is an external policy. `processable` and `process` are function parameters, and `None` means the call throws.
- The Statful client is not modelled beyond a flag saying whether it is set. Each `send` becomes a `Diagnostic` appended to the mapper's log. Gauge and counter values, and the order of `.with().tag(...)`, are not kept.
- The mapper's logger calls are not modelled. They only log.
- Java `null` inputs (`Objects.requireNonNull`) are not modelled. Dafny strings are never null.
- Strings are sequences of characters. UTF-16 surrogate pairs and regex engine internals are not modelled.
- Concurrent use of one mapper from the TCP and UDP listeners is not modelled.
- `Main.java`, `MetricsSender.java` and the transports are bootstrap, send and I/O code outside the mapper. They are not part of this model.
- Unexpected runtime exceptions (out of memory, a `process` that returns null) are not modelled beyond `processable` and `process` throwing.
