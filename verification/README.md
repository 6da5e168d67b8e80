# Verified model of the translation, routing and storage core

A Dafny project beside the proxy's Go code. It models the parts of the proxy where a mistake
would be hard to see by reading one function, and proves what they do on every input, every
run and every interleaving. `dafny verify dfyconfig.toml` checks all of it.

## What is modelled

**Stream translators.** `SSEStream` (Anthropic events to OpenAI chunks), `ReverseSSEStream`
(the other way), the two Gemini translators, `ResponsesSSEToAnthropicSSE`, the canonical
converters of the non-streaming path, and the synthesizers that write a whole response as a
stream. Each `data:` payload is a value (`StreamTypes`); a line that does not parse, or that
no branch handles, is a value of its own. Every translator has a specification, one event at
a time, and a class or method with the loop and the variables of the source that is proved to
write exactly what the specification says. `Bracketing` says what an Anthropic client may
rely on; `StreamTypes` says what a receiver of chunks assembles. The theorems are about
these observers, not about the translators' bodies.

**Fallback chains.** The four passes of `buildResolvedChains` as methods of a class whose
fields are the source's maps, against the graph of fallback edges and a recursive meaning
(`FallbackChains`), and `FindModel` on the result.

**Dump codec and importer.** The SQL literals and lines of a dump, printer against parser,
over byte strings (`SqlLiterals`, `DumpLines`, `DumpRoundTrip`); and the importer as a state
machine of a submitter and workers, one step between any two uses of the lock, the channel or
the barrier (`ImportPool`, `ImportBarrier`, `ImportOutcome`).

**Admission control.** The token bucket with idle eviction, over real numbers and a monotone
clock; the limiter that adds a limit per key, for requests one after the other (`KeyRateLimiter`,
`KeyRateBounds`) and with its lookups and requests interleaved step by step, each clock
reading and each lock a step of its own (`LateReadings`, `KeyRateSteps` and the modules on it); the three-state circuit breaker as a function of its history; the fallback pipeline
with the breakers it consults, which other requests may use meanwhile (`FallbackPipeline`,
`PipelineEffects`); and the cache with a TTL
that the allowlist and the key limiter look into, as interleaved lock-sized steps (`TtlCache`).

**Log writer.** Callers of `Log`, the writer's loop and the caller of `Close` as interleaved
steps over a bounded channel.

**SQL text.** LIKE escaping against the LIKE predicate of section 8.5 of ISO/IEC 9075-2:2003,
the startup rewrite of provider names, the cost filter with its arguments and what it selects
from the tables (`CostFilter`, `CostQuery`), and the rebinding of placeholders. **Budget periods** in a zone with a fixed offset.

## What was found

Where a promise does not hold without a condition, the exact condition is a theorem:

- `ReverseSSEStream` writes a well-bracketed stream only for a [DONE] after a chunk with
  nothing but silent lines after it, which can be told from the lines
  (`ReverseBracketing.WellBracketedExactly`).
- Streaming and non-streaming agree on tool calls and finish even where blocks overlap. On the
  text they agree, whatever the texts of the deltas are, exactly where no text comes to a block
  after a block started later has got some, and none to a block of an unknown kind
  (`StreamAgreement.TextsAgreeExactly`).
- An untouched tool input is `{}` on the non-streaming path and empty on the streaming one; a
  nil input is `null` when synthesized and `{}` when not; text of a block of an unknown kind
  is streamed but dropped without streaming (`StreamAgreement`, `StreamSynth`).
- The streamed reasoning leaves out all thinking after the first text block and runs several
  thinking blocks together, which without streaming are all kept with empty lines between them
  (`StreamReasoning.ReasoningAgreesExactly`).
- A tool call id that ends in `__ggts` or `__ggts_` loses the thought signature it is given, as
  does one that holds the marker already; the ids of the translators do neither
  (`ToolCallIDs.SignatureRoundTripExactly`).
- Gemini calls of one function are merged into one tool call and their JSON texts run
  together (`GeminiStreams.CallsKeptExactly`).
- A replayed Responses stream skips a block index after a tool call and opens an index twice
  for a message with two text parts (`ResponsesSynth.WellBracketedExactly`). Function calls
  leave no trace in it and the stop reason is always end_turn.
- An empty blob is written as `X''`, which the reader does not accept as a blob, and one malformed token
  makes the reader slice out of range (`SqlLiterals`). A row whose statement reaches 10 MiB is
  exported but stops the import (`DumpRoundTrip.TableRoundTrip`).
- The importer keeps the column list of the row with which a table begins, so a row of the same
  table that lists other columns goes in under the wrong ones
  (`ImportBarrier.ColumnsAreTheRowsExactly`).
- Eviction of idle buckets can be noticed exactly when burst > rate * idleTTL (`RateBounds`).
- A limit per key starts afresh with a full bucket whenever the key is fetched again. For
  requests one after the other it bounds a window with a refetch only if it is one request a TTL
  (`KeyRateBounds.OwnLimitBoundsExactly`). Lookups that interleave do more: two calls of a cold
  key both fetch, and at one instant the key gets a burst and one request more
  (`KeyRateExactly.ColdRace`). Over all interleavings the bound of one token bucket is sure if
  and only if idle buckets are kept until they are full, no limiter of the key is replaced in the
  window, none is ever replaced while a call holds it, and no call waits for the limiter's lock
  after it has read the clock (`KeyRateExactly.KeyBoundedExactly`); and a limiter is replaced at
  nothing but a refetch by the request times exactly if no two calls of the key fetch at once
  and none stalls for more than nine TTLs (`KeyRateSweep.RefetchesExactly`).
- A call reads the clock before it gets a limiter's lock, so a reading can set back when a bucket
  was last seen. A bucket can then be evicted before it is full, exactly if an empty one takes
  longer to fill than an idle one is kept, less the longest wait (`LateReadings.EvictedFullExactly`).
- A probe granted by a breaker stays in flight, and the breaker denies everything until the
  outcome of another request is recorded, if the probe's attempt ends before anything is sent,
  or if the provider's own name differs from its configured one. A call of the
  pipeline can write two responses or none (`FallbackPipeline`). The program itself does not
  reach all of these inputs. Every client takes its name from the configuration entry under
  which it is filed (internal/app/providers.go:46, 128-180), so a provider with another name
  exists only at the function. Startup refuses a direct model whose provider is unknown
  (internal/app/runtime.go:55-60), so a missing provider is met only for an entry which
  that check passes over (internal/store/sqlite.go:148) and the resolver accepts
  (internal/config/config.go:380-392): one with an upstream model but no provider, or a
  wildcard with no provider or with fallbacks. The comment in `executeFallbackChain`
  speaks only of all entries being skipped; the code, which the model follows, also leaves
  the client without a response when the entries after a failed attempt are skipped.
- The comment at lines 116-120 of the breaker says the branch should not be taken; it never
  is (`CircuitBreaker.GrantedByHistory`).
- The sweep of stale entries, in the allowlist cache and in the key limiter, can be noticed
  exactly if a call may stall for more than nine TTLs (`TtlRaces`, `KeyRateSweep`), and an
  invalidation can be undone by a fetch under way (`TtlRaces`).
- The startup rewrite of provider names is not idempotent, and does not stop at the first
  matching rule, exactly where rules are chained (`ProviderRewrites.FirstRuleWinsExactly`).
- Rebinding changes a query with a dollar sign or a placeholder that runs into a digit; the
  cost filters have neither (`Rebinding`, `CostFilter`).

## Model

| member | source | states |
|---|---|---|
| AnthropicToOpenAI.SSEStream.Stream | internal/translate/stream_anthropic.go:32-221 | the streaming loop, with its flags and maps, writes exactly the chunks of the event-by-event translation |
| AnthropicToOpenAI.RunAppend | internal/translate/stream_anthropic.go:52-213 | translating a stream in two pieces, the second from the state the first leaves, is translating the whole |
| OpenAIToAnthropic.ReverseSSEStream.Stream | internal/translate/stream_anthropic.go:229-561 | the reverse loop, with its block counters, tool map and finish flag, writes exactly the events of the line-by-line translation |
| OpenAIToAnthropic.SortedBlocks | internal/translate/stream_anthropic.go:275-296 | collecting the tool blocks from the map, in whatever order, and sorting them gives the order in which they were opened |
| Bracketing.Meaning | internal/translate/stream_anthropic.go:257-548 | what the acceptor of event streams accepts: message_start first, indices 0,1,2,... each started and stopped exactly once, every delta between the start of a block of its kind and that block's stop, message_delta and message_stop last and nowhere else |
| ReverseBracketing.ReverseIsWellBracketed | internal/translate/stream_anthropic.go:257-548 | every chunk sequence with at least one parsed chunk and one terminal [DONE] becomes a well-bracketed stream, whatever texts, reasoning, refusals and tool deltas it mixes |
| ReverseBracketing.WellBracketedExactly | internal/translate/stream_anthropic.go:257-548 | for every sequence of lines at all: the output is well bracketed if and only if some [DONE] has a chunk before it and every line after it is silent, by a condition on the lines alone: no [DONE], no text or refusal, reasoning only if closed before, tool deltas only of indices seen before and without arguments |
| ReverseBracketing.SilentRun | internal/translate/stream_anthropic.go:324-548 | after message_start, lines write nothing if and only if each is silent by that condition |
| ReverseBracketing.LinesRemembered | internal/translate/stream_anthropic.go:324-548 | what the translator remembers for it, the tool indices seen and whether the reasoning is closed, is read off the lines |
| ReverseBracketing.SecondDoneSpoils | internal/translate/stream_anthropic.go:257-329 | the failing input: a second [DONE] spoils a stream that would have come out well bracketed |
| StreamRoundTrip.RunDelivered | internal/translate/stream_anthropic.go:32-561 | the two translators keep step over any lines: same text, tools renumbered, reasoning only until text begins |
| StreamRoundTrip.RoundTrip | internal/translate/stream_anthropic.go:32-561 | chunks to events and back: same text (content and refusal in arrival order), the n-th distinct tool index becomes n with its id, name and concatenated arguments, reasoning up to and including the first chunk with text or refusal, finish tool_calls exactly when it was that, one message id |
| ReverseOrder.StoppedByKind | internal/translate/stream_anthropic.go:256-298 | the blocks of any stream with one [DONE] at its end are stopped by kind: the thinking block, then the text block, then the tool blocks in the order in which they were started |
| StreamRoundTrip.StreamEnds | internal/translate/stream_anthropic.go:300-329 | what the Anthropic client is told, for all lines before a [DONE]: first message_start with the first chunk's id without its prefix, last message_delta with "tool_use" if the last non-empty finish reason is "tool_calls" and "end_turn" otherwise, then message_stop |
| StreamTypes.DeltaRead | internal/translate/stream_anthropic.go:397-445 | the parts of a content are read in order, those without text as nothing, and reasoning before reasoning_content |
| Canonical.AnthropicResponseToCanonical | internal/translate/canonical_anthropic.go:355-388 | the loop over the blocks collects text, thinking and tool_use blocks in order and drops the rest |
| Canonical.CanonicalToOpenAIResponse | internal/translate/canonical_openai.go:581-633 | the loop collects texts, thinking, the last refusal and the calls; an unknown stop reason passes through raw |
| Canonical.NonStreamingMeaning | internal/translate/canonical_openai.go:581-633 | the non-streaming translation in terms of the response's own blocks: the id after "chatcmpl-"; its text blocks in order, no content exactly if there is none; its thinking blocks in order with an empty line between them, no reasoning if there is none; one call per tool_use block; no refusal; each stop reason's finish reason by name, an unknown one as it is |
| StreamAgreement.FinishesAgree | internal/translate/helpers.go:139-157 | the stop-reason map of the streaming path equals the two maps of the non-streaming path composed, for every string and for a missing one |
| StreamAgreement.StreamingAgrees | internal/translate/stream_anthropic.go:72-213 | for every well-formed event stream, its blocks overlapping or not: SSEStream's chunks carry the tool blocks of the stream in order, each with the JSON deltas of its own block joined; the non-streaming translation of the replayed message has the same calls with the same arguments, but the empty object where a block has no JSON text; the finish is the same; and where texts come in turn, so is the text if and only if no block of an unknown kind carries text |
| StreamAgreement.TextsAgreeExactly | internal/translate/stream_anthropic.go:137-180 | the two paths carry the same text for every choice of the texts of the deltas, empty ones staying empty, if and only if no text comes to a block after a block started later has got some, and none to a block of an unknown kind |
| TextOrder.InTurnAgree | internal/translate/stream_anthropic.go:137-180 | pieces of text that come in turn, joined as they come, are the same as joined block by block |
| StreamAgreement.BracketedIsWellFormed | internal/translate/stream_anthropic.go:72-213 | every well-bracketed stream is well formed, so the agreement covers the streams of the translators to Anthropic |
| StreamAgreement.OverlapReorders | internal/translate/stream_anthropic.go:137-180 | a stream with two blocks of text open at once, whose text comes in another order on the two paths |
| StreamReasoning.ReasoningAgreesExactly | internal/translate/stream_anthropic.go:93-150 | for every well-formed event stream: all chunks carry the id of the non-streaming message; their reasoning is the thinking before the first text block; and it is the reasoning of the non-streaming message if and only if there is at most one thinking block and none of its thinking comes after the start of a text block |
| StreamSynth.SynthesizeAnthropicSSE | internal/proxy/stream_synth.go:18-151 | the loop over the content writes start, one delta and stop for each block |
| StreamSynth.SynthesizedStream | internal/proxy/stream_synth.go:66-151 | for every response the events are a well-formed stream, its texts in turn, that spells the same response out again, a nil input becoming null and a thinking block losing its text |
| StreamSynth.SynthesizedAgrees | internal/proxy/stream_synth.go:66-151 | for every response, synthesized and then streamed, or translated directly: same calls, ids, names and finish; same arguments of a call if and only if its input is not nil; same text if and only if no block of an unknown kind carries text |
| GeminiTranslators.ToAnthropicStream.Stream | internal/translate/stream_gemini.go:33-229 | the scanner loop writes exactly the events of the part-by-part translation, the stops in block order |
| GeminiTranslators.ToOpenAIStream.Stream | internal/translate/stream_gemini.go:237-373 | the scanner loop writes exactly the chunks of the part-by-part translation |
| GeminiAgreement.RunFollows | internal/translate/stream_gemini.go:53-226 | the Anthropic events of any lines are those that ReverseSSEStream makes of the OpenAI chunks of the same lines |
| GeminiMeaning.RunConveyed | internal/translate/stream_gemini.go:252-350 | what the chunks convey against the content of the lines: all text parts, and one tool call for each function name |
| GeminiMeaning.RunFinishKnown | internal/translate/stream_gemini.go:98-112 | the finish variables of both loops after any lines follow from the last non-empty finish reason and the calls seen |
| GeminiMeaning.AnthropicStream | internal/translate/stream_gemini.go:53-226 | the stop reason depends only on the last non-empty finish reason of the stream and on whether any function was called; nothing is written if no line parses |
| GeminiStreams.GeminiIsWellBracketed | internal/translate/stream_gemini.go:53-226 | for all inputs the Anthropic stream is well bracketed, or empty if no line parses |
| GeminiStreams.BothPathsAgree | internal/translate/stream_gemini.go:33-373 | Gemini to OpenAI directly and by way of Anthropic events tell a receiver the same text, finish and calls, with ids that differ only in their prefix |
| GeminiStreams.MergeKeepsArguments | internal/translate/stream_gemini.go:140-176 | merging the calls of one function loses no argument text and moves none to another function |
| GeminiStreams.CallsKeptExactly | internal/translate/stream_gemini.go:311-347 | every call arrives as a call of its own if and only if no two calls name the same function; otherwise their argument texts run together |
| GeminiSignatures.SignaturesKept | internal/translate/stream_gemini.go:311-347 | the tool calls of the chunk stream are the functions in the order of their first calls; each id gives back its number and the thought signature of that first call; no two are the same |
| ToolCallIDs.Base64RoundTrip | internal/provider/gemini/types.go:132-152 | every byte string is read back from its unpadded base64 form in the URL alphabet |
| ToolCallIDs.SignatureRoundTripExactly | internal/provider/gemini/types.go:120-153 | for every id and signature, decoding the encoded id gives both back if and only if: with a signature, the id is not empty, holds no marker and does not end in "__ggts" or "__ggts_"; without one, the id does not look signed already |
| ToolCallIDs.SixDigitsRead | internal/translate/stream_gemini.go:327 | the number in an id has at least six digits and reads back as the number |
| ToolCallIDs.StreamIdsRead | internal/translate/stream_gemini.go:144 | the ids that the translators make always bring a signature back, and ids of different numbers differ whatever the signatures |
| ResponsesToAnthropic.ResponsesStream.Stream | internal/translate/stream_responses.go:726-986 | the scanner loop with its openBlocks map writes exactly the events of the event-by-event translation |
| ResponsesToAnthropic.OpenBlocksAreUnmatchedStarts | internal/translate/stream_responses.go:739-942 | after any input openBlocks is the set of indices with an unmatched start; no index is opened while open, no delta or stop goes to a closed one |
| ResponsesToAnthropic.KindsFitExactly | internal/translate/stream_responses.go:820-905 | every delta fits its block's kind if and only if no text arrives for an index whose open block, by the input alone, is of the other kind |
| ResponsesToAnthropic.DeliveredAtItsIndex | internal/translate/stream_responses.go:766-986 | for any input and any index the text deltas spell out the output text that arrived for it, and the thinking deltas the summaries of its reasoning; apart from the blocks there is one message_start, for the first response.created, with its id without the prefix, and a stop for each response.completed, always end_turn |
| ResponsesSynth.SynthesizeResponsesSSE | internal/proxy/stream_synth.go:308-438 | the loops over items and parts write exactly these events |
| ResponsesSynth.ReplayedAtItsIndex | internal/proxy/stream_synth.go:357-438 | replayed as Anthropic events, each output index carries exactly the output_text of its message, is opened once for each part and stopped as often |
| ResponsesSynth.SynthesizedAt | internal/proxy/stream_synth.go:308-473 | the synthesized stream announces and closes each message and function call once, at its place in the output, and nothing else; its replay is framed by one message_start with the response's id, "gemini" for none, and one stop |
| ResponsesSynth.WellBracketedExactly | internal/proxy/stream_synth.go:357-438 | the replay is a well-bracketed stream if and only if the output begins with items of one output_text part each and all later items have none |
| FallbackChains.RankedHasNoCycle | internal/config/config.go:406-453 | where a rank falls along every fallback edge there is no cycle |
| FallbackChains.MeaningIndependent | internal/config/config.go:455-511 | the recursive meaning of a name does not depend on the ranking its recursion follows |
| FallbackChains.ChainsNotEmpty | internal/config/config.go:455-511 | every chain of an accepted model list is non-empty |
| FallbackChains.TargetsAreReached | internal/config/config.go:455-511 | a chain holds exactly the targets that some path of fallbacks leads to |
| FallbackChains.SafeExactly | internal/config/config.go:188-202 | which suffixes are refused, on the characters: one with ?, # or a backslash, or with a stretch between slashes that is empty, "." or ".." |
| FallbackChains.WildcardExactly | internal/config/config.go:680-693 | a name resolves to the provider and metadata of the first entry "p/*" with name == p + "/" + suffix for a harmless suffix, and that suffix is the model asked for; otherwise to nothing |
| FallbackResolver.Resolver.constructor | internal/config/config.go:351-359 | the name index holds, for each name, its last non-wildcard entry |
| FallbackResolver.Resolver.DetectCycle | internal/config/config.go:406-453 | terminates as unmarked names run out; the names being visited are the current path; a reported path is a real cycle; without an error the finished names are ranked |
| FallbackResolver.Resolver.CycleAt | internal/config/config.go:416-425 | a name being visited is found on the path, so the fallback error is never reached |
| FallbackResolver.Resolver.CheckCycles | internal/config/config.go:439-453 | no error means every listed name is ranked; an error carries a real cycle |
| FallbackResolver.Resolver.Flatten | internal/config/config.go:455-497 | terminates on the rank, never fails, returns the recursive meaning, and keeps every memoised chain equal to its meaning and the fallbacks of every name in the table in it |
| FallbackResolver.TableLaid | internal/config/config.go:455-511 | the table read off itself, for every listed name: of a direct entry the one target with its provider, model and metadata; of a virtual one the chains the table holds for its fallbacks one after the other, that of the i-th at the sum of the lengths of those before it, and nothing more |
| FallbackResolver.Resolver.BuildResolvedChains | internal/config/config.go:349-511 | an error is returned if and only if some entry is of both kinds or neither, some fallback is undefined, or the fallbacks have a cycle, each with its own error, which names the first offending entry, the first undefined fallback or a real cycle; otherwise every listed name has its chain, laid out as TableLaid says |
| FallbackResolver.FoundAfterBuild | internal/config/config.go:658-696 | FindModel on the built table: the meaning of a listed name, the first matching wildcard's provider and model for any other name, memoised or not (a memoised one without metadata), and not found exactly otherwise |
| FallbackResolver.FoundNotEmpty | internal/config/config.go:658-696 | whatever FindModel finds is a non-empty chain |
| FallbackResolver.FoundWithoutTable | internal/config/config.go:665-696 | FindModel without a table: the first entry of the name as it stands; otherwise the first wildcard entry it fits; an error exactly if it fits none |
| SqlLiterals.ValueRoundTrip | internal/store/export.go:549-713 | printing a value and reading its literal gives it back, a bool as 0 or 1, if and only if it is not the empty blob |
| SqlLiterals.PanicsExactly | internal/store/export.go:558-567 | the literal reader fails to return on exactly one token, where the two ends of the text form share a quote |
| SqlLiterals.IntRoundTrip | internal/store/export.go:575-578 | every 64-bit integer is read back from its decimal form, the smallest included |
| SqlLiterals.HexRoundTrip | internal/store/export.go:558-574 | every byte string is read back from its hexadecimal form |
| SqlLiterals.DoubledReadBack | internal/store/export.go:554-557 | undoing the doubled quotes gives the text back, whatever quotes it holds |
| DumpLines.SplitSQLValues | internal/store/export.go:511-545 | the index loop with its depth, quote flag and start splits like the recursive definition |
| DumpLines.SplitJoined | internal/store/export.go:511-545 | the joined literals of a row split into these literals, whatever commas, quotes and parentheses they hold |
| DumpLines.ParseInsertLine | internal/store/export.go:469-507 | a line parses if and only if it is a statement with a table, a column text and a value text, with or without its semicolon; the result is then that table, the trimmed parts of the column text and the tokens of the value text |
| DumpRoundTrip.StatementRoundTrip | internal/store/export.go:469-507 | a printed statement parses into its table, its columns and its literals in order |
| DumpRoundTrip.RowRoundTrip | internal/store/export.go:640-674 | a row decodes to its values in order if and only if it holds no empty blob |
| DumpRoundTrip.StatementOneLine | internal/store/export.go:702-713 | every printed statement is one line |
| DumpRoundTrip.WriteTableSQL | internal/store/export.go:640-674 | the loop writes one statement a row, each with its newline |
| DumpRoundTrip.TableRoundTrip | internal/store/export.go:246-713 | the text of a table, scanned into lines, trimmed, parsed and decoded, gives every row back under its table and columns if and only if no row holds an empty blob and no statement, by a length counted from the row, is as long as the scanner's 10 MiB |
| DumpRoundTrip.TableScanned | internal/store/export.go:246-251 | the scanner reads the statements before the first that is too long, in order, and fails exactly if there is one |
| DumpRoundTrip.LargeValueStops | internal/store/export.go:246-251 | a text of 10 MiB or a blob of 5 MiB in any row is exported but stops the import |
| DumpRoundTrip.ElevenMebibytes | internal/store/export.go:246-251 | such a row: one text of 11 MiB |
| DumpLines.StatementWritten | internal/store/export.go:640-711 | a row as SQLite reads it: INSERT OR IGNORE with table, columns and the literals of its values, each kind of literal spelled out |
| ImportBarrier.EarlierGroupsFirst | internal/store/export.go:141-233 | in every interleaving of submitter and workers, once a job of a table group is submitted all jobs of earlier groups are finished and committed exactly once |
| ImportOutcome.OtherTablesFirst | internal/store/export.go:335-355 | the barrier by tables: once a batch of another table is submitted, the batches before it are finished and committed exactly once |
| ImportBarrier.BatchesAreTheRows | internal/store/export.go:302-400 | at every moment the batches and the pending rows concatenate to the rows read, each under its table, its group and the columns with which the group begins, each batch of 1 to 100 rows, none committed twice |
| ImportOutcome.RowsAreTheLines | internal/store/export.go:323-393 | row by row: the k-th row that is submitted or pending is the k-th line's, and goes into that line's table |
| ImportOutcome.BatchesAreFull | internal/store/export.go:383-392 | a batch holds one to a hundred rows, and a hundred unless it is the last of its table group |
| ImportBarrier.ColumnsAreTheRowsExactly | internal/store/export.go:318-337 | at every moment each row read so far is to go in under the columns it lists if and only if no row lists other columns than the row of the same table just before it |
| ImportBarrier.ReturnMeansDone | internal/store/export.go:402-439 | when the importer returns, nothing is left in the channel or with a worker; without an error the file held rows only, and each was committed exactly once |
| ImportOutcome.SucceedsExactly | internal/store/export.go:402-439 | on every interleaving that returns, the importer returns without an error if and only if every line is a row, the read at the end of the file does not fail, and every batch that a worker tries commits |
| ImportOutcome.NoneAfterFailure | internal/store/export.go:205-220 | once a failed batch is recorded no further one is submitted, except one that the submitter was about to send |
| ImportOutcome.HeldUpExactly | internal/store/export.go:158-231 | as many workers as asked for, at least one, and a channel of twice as many jobs; until it returns the submitter is held up exactly when it has a job to send and the channel is full, or when it waits at the barrier or for the pool to stop and some job is unfinished |
| ImportBarrier.NeverStuck | internal/store/export.go:141-233 | full channel, barrier and final wait never block for good: until the return some step is possible |
| ImportBarrier.RunsEnd | internal/store/export.go:141-430 | every run ends within a bound known at its start |
| RateLimiter.New | internal/ratelimit/limiter.go:28-46 | whatever is configured, the rate, burst and idle time are positive |
| RateLimiter.Limiter.CleanupLocked | internal/ratelimit/limiter.go:89-96 | the loop over the map deletes exactly the idle buckets |
| RateLimiter.Limiter.Allow | internal/ratelimit/limiter.go:49-87 | the method's step on its fields is the step of the specification |
| RateLimiter.UseByLevel | internal/ratelimit/limiter.go:49-87 | a call is admitted if and only if the level of its bucket is at least one, takes one, and leaves all other levels |
| RateBounds.TokensInRange | internal/ratelimit/limiter.go:49-87 | over every run tokens stay between zero and the burst |
| RateBounds.WindowBound | internal/ratelimit/limiter.go:49-96 | in any window of any run a bucket admits at most burst plus what the rate yields in it, when an empty bucket fills within the idle time |
| RateBounds.MinuteBound | internal/ratelimit/limiter.go:29-45 | by the numbers a limiter is made with: in any minute at most the burst and the requests per minute, if idle buckets are kept long enough, which without an idle time of its own means burst <= 15 * perMinute |
| RateBounds.UnsetMeans | internal/ratelimit/limiter.go:29-37 | what missing settings stand for: one request a minute, a burst of one, 15 minutes |
| RateBounds.SweptExactly | internal/ratelimit/limiter.go:59-96 | a bucket leaves the table at a call of another key if and only if it has been idle longer than the idle time and the last sweep is a minute or more ago |
| RateBounds.TableIsRecent | internal/ratelimit/limiter.go:59-96 | after any calls the table holds only buckets seen within the idle time and one minute |
| RateBounds.AnonymousShare | internal/ratelimit/limiter.go:49-52 | a client without an address shares the bucket of "unknown", every other one has its own |
| RateBounds.SpacedNeverDenied | internal/ratelimit/limiter.go:49-87 | calls of a key at least 1/rate apart are never denied, with any idle time and any other traffic |
| RateBounds.EvictionInvisibleExactly | internal/ratelimit/limiter.go:89-96 | the limiter answers every run like one that never evicts if and only if burst <= rate * idleTTL |
| KeyRateLimiter.KeyAwareRateLimiter.Allow | internal/proxy/key_rate_limiter.go:51-64 | global limiter first, then the key's cached or fetched one, with the whole new state |
| KeyRateLimiter.KeyAwareRateLimiter.EvictStaleLocked | internal/proxy/key_rate_limiter.go:107-119 | the sweep runs at most every five TTLs and deletes exactly the entries older than ten |
| KeyRateLimiter.RefetchedExactly | internal/proxy/key_rate_limiter.go:70-103 | a key's limit is fetched again exactly when its entry is missing or a TTL old, the TTL being the one the limiter was made with, or 30 seconds |
| KeyRateLimiter.KeySweptExactly | internal/proxy/key_rate_limiter.go:107-119 | the entry of another key leaves the table exactly at a fetch when it is older than ten TTLs and the last sweep is five TTLs or more ago |
| KeyRateLimiter.PassedTheGlobal | internal/proxy/key_rate_limiter.go:51-64 | on every run, what passes both limiters has passed the global one alone |
| KeyRateLimiter.GlobalWindowBound | internal/proxy/key_rate_limiter.go:51-64 | the window bound of the global limiter holds for both together |
| KeyRateLimiter.StaleEntryAdmits | internal/proxy/key_rate_limiter.go:66-103 | at a stale entry the key gets a new full bucket, so only the global limiter can deny then |
| KeyRateBounds.OwnTimesDecide | internal/proxy/key_rate_limiter.go:51-103 | for requests one after the other, what is admitted of a key is what its own limiter makes of the times at which the key passes the global limiter, whatever other keys do |
| KeyRateBounds.OwnWindowBound | internal/proxy/key_rate_limiter.go:66-103 | for requests one after the other, in any window the key's own limit admits at most burst + rate * length, and one more burst for each refetch, counted from the request times |
| KeyRateBounds.DoubleBurst | internal/proxy/key_rate_limiter.go:66-103 | for every limit and TTL, in a window as short as wanted around a refetch, the key gets a whole burst after a burst less one token, or after another whole one if the token is back by then |
| KeyRateBounds.OwnLimitBoundsExactly | internal/proxy/key_rate_limiter.go:51-103 | for requests one after the other: allowing some number of refetches in a window, the key's own limit bounds all windows of all runs if and only if eviction within the TTL stays hidden and either no refetch is allowed or the limit is one request a TTL |
| KeyRateRaces.LimitersMadeBound | internal/proxy/key_rate_limiter.go:66-103 | in every interleaving of lookups, fetches, puts, clock readings and locks of the limiters held, and every window of it, a key gets at most burst + rate * (wait + length) from each of its limiters in use when the window begins or made in it, `wait` being the longest time between a call's reading and its lock, if idle buckets are kept for the wait longer than they take to fill |
| KeyRateRaces.EveryRunBounded | internal/proxy/key_rate_limiter.go:66-103 | likewise, and only from those that calls of the key ask in the window |
| KeyRateRaces.WindowBound | internal/proxy/key_rate_limiter.go:66-103 | in every interleaving in which no limiter of the key is put while another call still holds one: in any window at most burst + rate * (wait + length), and burst + rate * wait more for each limiter replaced in it |
| KeyRateExactly.BurstsExactly | internal/proxy/key_rate_limiter.go:66-103 | over all interleavings burst + rate * length, and one more burst for each limiter replaced, bounds all windows if and only if idle buckets are kept until they are full, no limiter is ever replaced while a call holds one, and no call waits between reading the clock and a limiter's lock |
| KeyRateExactly.KeyBoundedExactly | internal/proxy/key_rate_limiter.go:66-103 | over all interleavings the bound of a single bucket, burst + rate * length, holds if and only if idle buckets are kept until they are full, no limiter of the key is replaced in the window, none is ever replaced while a call holds one, and no call waits between reading the clock and a limiter's lock |
| KeyRateExactly.WaitingBreaks | internal/ratelimit/limiter.go:49-87 | for any longer wait, however little longer, a run of one limiter with one request more than the bound |
| LateReadings.AdmitPays | internal/ratelimit/limiter.go:49-96 | one call of the limiter with a reading up to the wait old: an admission is paid for by the level of the bucket at the earliest time a reading can still have, eviction by the call included |
| LateReadings.EvictedFullExactly | internal/ratelimit/limiter.go:55-96 | on all runs in which calls wait at most so long for the lock, every bucket evicted is full by the evicting call's reading, if and only if burst <= rate * (idleTTL - wait) |
| KeyRateExactly.ColdRace | internal/proxy/key_rate_limiter.go:66-103 | the cold-key race, for every limit: two calls miss and fetch at once, no call holds a limiter when the other one is put, and at one instant the key gets a burst and one more |
| KeyRateSweep.RefetchesExactly | internal/proxy/key_rate_limiter.go:66-103 | over all interleavings a limiter is replaced only a TTL or more after the fetch of the one before it, by the clock readings of the calls, if and only if no two calls of the key are between miss and put at once and no call stalls for more than nine TTLs before looking |
| KeyRateSweep.SweepUnnoticedExactly | internal/proxy/key_rate_limiter.go:107-119 | the sweep changes no limiter and no answer, on every interleaving in which no call stalls for more than a given time before looking, if and only if that time is at most nine TTLs |
| KeyRateSweep.StalledCallAdmitted | internal/proxy/key_rate_limiter.go:66-119 | for any longer time, however little longer, a run in which a request is admitted that without the sweep would be denied |
| KeyRateLimiter.SweepInvisible | internal/proxy/key_rate_limiter.go:107-119 | for requests one after the other the sweep never changes an answer |
| CircuitBreaker.Breaker.Ask | internal/circuitbreaker/breaker.go:95-124 | Allow's answer and new state |
| CircuitBreaker.Breaker.Succeed | internal/circuitbreaker/breaker.go:128-138 | RecordSuccess's new state |
| CircuitBreaker.Breaker.Fail | internal/circuitbreaker/breaker.go:144-168 | RecordFailure's new state |
| CircuitBreaker.StateIsHistory | internal/circuitbreaker/breaker.go:95-168 | on every history: not closed if and only if the trailing failures reach the threshold, half-open if and only if then a granted request awaits its outcome, which is when the probe mark is set; trips are the openings counted from the history |
| CircuitBreaker.GrantedByHistory | internal/circuitbreaker/breaker.go:95-124 | when a request is granted, from the history alone, the time of the last opening included; the branch at lines 116-120 is never taken |
| CircuitBreaker.GrantedAsConfigured | internal/circuitbreaker/breaker.go:69-124 | the same by the numbers a breaker is made with, five failures and 30 seconds if they are missing |
| CircuitBreaker.OneProbe | internal/circuitbreaker/breaker.go:95-168 | after a probe is granted every request is denied until an outcome is recorded, for ever if none is |
| CircuitBreaker.ProbesArePaced | internal/circuitbreaker/breaker.go:95-168 | without a success the k-th probe comes no earlier than k cooldowns after the breaker opened |
| FallbackPipeline.Pipeline.ExecuteProviderAttempt | internal/proxy/pipeline.go:152-211 | one attempt: what is sent, recorded and written, and whether the chain goes on, as the specification says that PipelineEffects.EffectsExactly spells out |
| FallbackPipeline.Pipeline.ExecuteFallbackChain | internal/proxy/pipeline.go:108-150 | the loop over the chain visits entries as the recursive definition does and knows whether any was attempted |
| FallbackPipeline.Pipeline.ExecuteProxyPipeline | internal/proxy/pipeline.go:214-262 | the whole request, with the 503 when nothing was attempted, as the specification says that PipelineEffects.EffectsExactly spells out |
| PipelineEffects.EffectsExactly | internal/proxy/pipeline.go:108-262 | all the effects of a request in order, for every chain, every answer of the breakers and every reply: the entries before the one where the walk ends are denied, or sent to and recorded as failures; there the reply is handed over and recorded as a success exactly if its status is below 500 and not 429, and otherwise the failure is reported; 503 if no provider was tried |
| PipelineEffects.EndsSomewhere | internal/proxy/pipeline.go:108-150 | the walk ends at exactly one place, which the entries, answers and replies determine |
| PipelineEffects.FirstAnswerDelivered | internal/proxy/pipeline.go:164-211 | without breakers the effects are the sends up to the first reply with a status below 500 other than 429, and that reply handed to the client |
| PipelineEffects.LastFailureReported | internal/proxy/pipeline.go:164-211 | without breakers and without such a reply every provider is sent to and the client is told of the last one's failure, of the network or with its status |
| FallbackPipeline.ResponseCount | internal/proxy/pipeline.go:108-262 | for every chain, all outcomes and whatever other requests make of the breakers meanwhile, by the verdicts on the entries: two responses if a missing provider is met before any attempt, none if some attempt failed and every later entry including the last was skipped, one otherwise |
| FallbackPipeline.ResponsesByInput | internal/proxy/pipeline.go:108-262 | the same from the input, the breakers' answers and the providers' replies, without running the walk |
| FallbackPipeline.EveryAnswerOccurs | internal/proxy/pipeline.go:118-128 | any sequence of answers to the entries of any chain is given by breakers of which other requests have recorded outcomes meanwhile, a success, and then the threshold of failures for a denial; so the count covers every such sequence |
| FallbackPipeline.ContinuedIsHistory | internal/circuitbreaker/breaker.go:128-168 | such outcomes continue the history of a breaker, so the states that give the answers are reached |
| FallbackPipeline.PermitsAreIndependent | internal/proxy/pipeline.go:118-128 | for a chain of different providers, and breakers that no other request uses meanwhile, each entry is permitted if and only if its own breaker allows it as it was at the start |
| FallbackPipeline.ResponsesWithoutBreakers | internal/proxy/pipeline.go:108-262 | without breakers there is exactly one response, or two if the first provider of all is missing |
| FallbackPipeline.NoneOrTwo | internal/proxy/pipeline.go:108-262 | a request without any response, and a call with two |
| FallbackPipeline.OneOutcomeEach | internal/proxy/pipeline.go:164-211 | every request sent is followed by exactly one outcome for its provider; permissions and outcomes balance, in all and for each provider, except when the walk ends before a send |
| FallbackPipeline.ProbeSettledExactly | internal/proxy/pipeline.go:108-150 | at its entry a granted probe leaves the breaker half-open, denying everything until the outcome of another request is recorded, unless it is sent and the provider bears the name it is configured under |
| FallbackPipeline.ProbesSettled | internal/proxy/pipeline.go:108-262 | over a whole request, with breakers that no other one uses meanwhile: a breaker is half-open at the end if and only if it was so before, or some entry of its provider sends nothing and is granted the probe of the open breaker, every entry before it being denied or failing over, by the input alone |
| TtlCache.AnswersAreRecent | internal/proxy/model_checker.go:67-121 | in every interleaving, invalidations included, a returned value was read from the store after now - ttl |
| TtlRaces.SweepInvisibleExactly | internal/proxy/model_checker.go:109-121 | the sweep changes no answer, on every run in which no call stalls for more than a given time between reading the clock and looking, if and only if that time is at most nine TTLs |
| TtlRaces.StalledCallNotices | internal/proxy/model_checker.go:74-121 | for any longer time, however little longer, a run in which a stalled call fetches again and returns another value than it would without the sweep |
| TtlRaces.InvalidationUndoneExactly | internal/proxy/model_checker.go:68-72 | after InvalidateKey a later call can return an older value if and only if a fetch of the key, begun less than a TTL ago, has read the store and not yet put its result |
| AsyncLogger.Conservation | internal/proxy/logger.go:97-188 | in every interleaving: sent = taken out + buffered, first in first out, each entry once; one outcome an attempt; the counters count the calls that ended |
| AsyncLogger.NoLossBeforeClose | internal/proxy/logger.go:119-165 | when Close returns, every entry sent before the stop signal has had its one attempt, in order; what is left was sent after the drain saw an empty channel |
| AsyncLogger.BufferExactly | internal/proxy/logger.go:83-116 | the channel never holds more entries than it was made for, and an undecided call can send exactly while it holds fewer |
| AsyncLogger.DecisionsLast | internal/proxy/logger.go:97-116 | a call of Log that has sent or dropped its entry never does the other |
| AsyncLogger.WriterGoesOn | internal/proxy/logger.go:137-165 | after the stop signal the writer can always go on until it returns |
| AsyncLogger.WriterReturns | internal/proxy/logger.go:137-165 | and if nothing more is sent it takes no more steps than it has work left, so it returns |
| LikePattern.EscapeLikePattern | internal/store/sqlite_costs.go:427-432 | the result of the three replacements is the escape of each character, and with % after it is LIKE exactly the texts that begin with the argument |
| LikePattern.EscapeIsPerCharacter | internal/store/sqlite_costs.go:427-432 | the three successive replacements are one escape of each character |
| LikePattern.LikeIsPrefix | internal/store/sqlite_costs.go:427-432 | a text is LIKE the escaped string followed by % if and only if it begins with the string, under any folding of characters |
| ProviderRewrites.ProviderNameRewrites | internal/store/sqlite.go:142-195 | the rules are exactly those of the models, exact ones first, each kind in the order of the list and without repetition; an unknown provider or two new names for one pattern is an error, and only that |
| ProviderRewrites.RulesSpelledOut | internal/store/sqlite.go:142-195 | the rules on the configuration itself: one is there if and only if an entry without fallbacks names a provider whose first configuration has another legacy name; it leads from that name to the present one, for the entry's name, or for all that begin with what stands before its asterisk |
| ProviderRewrites.NormalizeLoggedProviderNames | internal/store/sqlite.go:121-134 | statement by statement over the rows in place, each row becomes what the rules make of it one after the other |
| ProviderRewrites.WildcardApplies | internal/store/sqlite.go:121-134 | a wildcard rule selects the rows of its old name whose model begins with the prefix |
| ProviderRewrites.FirstRuleWinsExactly | internal/store/sqlite.go:121-134 | every row is mapped by its first matching rule, with nothing left for a second pass, if and only if no rule's new name is the old name of a rule that takes one of the models the first one maps |
| ProviderRewrites.ModelRulesExactly | internal/store/sqlite.go:121-195 | likewise for the rules collected from any model list and its providers |
| ProviderRewrites.UnchainedByPairs | internal/store/sqlite.go:121-134 | that condition can be checked on the rules: for each pair it is enough to try one model, an exact one or the longer prefix with a character no rule uses |
| ProviderRewrites.OverlapExactly | internal/store/sqlite.go:121-134 | two wildcard rules take that model together exactly if one prefix begins with the other |
| ProviderRewrites.DistinctNamesUnchained | internal/store/sqlite.go:121-134 | it is enough that no new name is also an old name |
| ProviderRewrites.ExactBeforeWildcard | internal/store/sqlite.go:142-195 | a row with an exact rule is mapped by an exact rule |
| ProviderRewrites.ChainsCarryOn | internal/store/sqlite.go:121-195 | two model lists whose rules fail it: with the one a row is carried on in the same pass, with the other a second pass changes it again |
| Rebinding.RebindForPostgres | internal/store/postgres.go:82-94 | the byte loop with its counter is the recursive rewriting |
| Rebinding.RebindExactly | internal/store/postgres.go:82-94 | for all arguments the rebound query binds like the original if and only if that has no dollar sign and no placeholder running into a digit |
| CostFilter.BuildCostFilter | internal/store/sqlite_costs.go:25-67 | for every CostParams the clause, with the arguments bound in order, says exactly what is wanted, none left over; every alias in it is introduced by the joins; and rebound for PostgreSQL it says the same; what joins and clause select is CostQuery.SelectedExactly |
| CostFilter.ProviderConditions | internal/store/sqlite_costs.go:378-397 | the provider alternatives and their values, aligned |
| CostFilter.AppendOwnerScopeConditions | internal/store/sqlite_costs.go:410-421 | the scope condition with its own id, under an alias the joins introduce |
| CostFilter.JoinsIntroduce | internal/store/sqlite_costs.go:399-408 | each join links to aliases introduced before it, and every alias a condition can need is there |
| CostQuery.TestsSpelledOut | internal/store/sqlite_costs.go:46-64 | the text of each kind of condition, its values in their places |
| CostQuery.WantedIsWritten | internal/store/sqlite_costs.go:43-67 | the clause of buildCostFilter is the text of these conditions: times, key prefix, group and scope |
| CostQuery.SelectedExactly | internal/store/sqlite_costs.go:25-67 | over any tables with their primary keys, for every CostParams and every collation: a request survives the joins and the clause if and only if it is in the given times and group and its key has the given prefix, is owned by the given user, or is owned by a member of the given team, each as far as it is asked for |
| CostQuery.CountedOnce | internal/store/sqlite_costs.go:25-31 | the joins have at most one row for a request, so none is counted twice |
| BudgetPeriods.PeriodsTile | internal/proxy/budget.go:68-108 | for every period name, offset and instant: start <= now < reset, every instant of the period has the same start and reset, and the next period begins at the reset |
| BudgetPeriods.PeriodShape | internal/proxy/budget.go:68-108 | a weekly period begins at midnight of a day whole weeks from Monday 1970-01-05 and lasts seven days, a monthly one begins at midnight on the first and lasts as long as its month, any other one is the day itself |
| BudgetPeriods.YearsBegin | internal/proxy/budget.go:89-108 | month arithmetic carried over year ends agrees with the closed form of the Gregorian calendar, backwards too |
| BudgetPeriods.DatesExactly | internal/proxy/budget.go:68-69 | every date of the Gregorian calendar is the date of the day that its closed form counts from 1970-01-01 |

## Left out

- JSON text, HTTP, headers, flushing, write errors and cancellation: a translator consumes a sequence of values and appends to an output.
- Token usage counts and the estimate of reasoning tokens.
- StreamRoundTrip.RoundTrip: the streams are scanned with a limit of 1 MiB a line (internal/sse/sse.go:16-37), which is left out; an escaped event line can be longer than the chunk line it comes from, and a longer one stops the second translation.
- GeminiTranslators.ToOpenAIStream.Stream: the encoding of thought signatures into tool call ids is a parameter, any function, as in the other theorems on Gemini streams; GeminiSignatures puts in that of ToolCallIDs.
- `OpenAISSEToResponsesSSE`, `AnthropicSSEToResponsesSSE`, `GeminiSSEToResponsesSSE`, `ResponsesSSEToOpenAISSE` and `SynthesizeOpenAISSE`: further translators of the same kinds, not modelled.
- The request converters, among them `canonicalUserToOpenAI`, and `sanitizeAnthropicToolID`.
- FallbackResolver.Resolver.BuildResolvedChains: the texts of error messages are left out; a reported cycle is the sequence of names. Providers' existence is checked elsewhere.
- SqlLiterals.ValueRoundTrip: floats and times are not printed, because integral floats print without a point and return as integers; a literal that is neither null, text, blob nor integer is one outcome, where the source goes on to try a float. White space is that of ASCII.
- DumpRoundTrip.TableRoundTrip: table and column names are those of the schema, letters, digits and underscores; gzip, the header comments and the order of the tables are left out. (If the first data line of the file is the one that is too long, the importer also sees it cut off, before it fails all the same.)
- ImportBarrier.ReturnMeansDone: whether a batch commits is nondeterministic; PostgreSQL's cleaning of text and conversion of booleans, statistics and progress reports are left out, as are comment lines and a row with more values than columns.
- RateLimiter.Limiter.Allow: tokens and times are real numbers, so rounding is not modelled.
- RateBounds.WindowBound: the calls take the lock in the order of their clock readings, as in the other theorems of RateBounds, KeyRateLimiter and KeyRateBounds; late readings are modelled in LateReadings and KeyRateSteps.
- KeyRateLimiter.KeyAwareRateLimiter.Allow: requests come one after the other and the limiters are values in the map; interleaved calls that share limiters are modelled in KeyRateSteps.
- KeyRateLimiter.SweepInvisible: for requests one after the other; KeyRateSweep.SweepUnnoticedExactly is for interleaved calls.
- KeyRateBounds.OwnTimesDecide: for requests one after the other, as are OwnWindowBound, DoubleBurst and OwnLimitBoundsExactly; KeyRateExactly has the condition on interleaved calls.
- KeyRateBounds.OwnWindowBound: the store has the same limit for the key throughout.
- KeyRateRaces.LimitersMadeBound: likewise, and every fetch succeeds; after a failed one, as for a key without a limit, the source sets no limit for a TTL. An idle bucket must be kept for the wait longer than it takes to fill.
- FallbackPipeline.Pipeline.ExecuteProxyPipeline: what a provider answers is input; a route builder that stops is taken to have answered the client once, as the handlers do, and handling a response to answer once; the request log is left out. Asking a breaker and recording the outcome happen at the entry's one time; what other requests do to the breakers is input, before an entry's breaker is asked and before its outcome is recorded.
- FallbackPipeline.ProbesSettled: no other request uses the breakers during the one in question, as for PermitsAreIndependent.
- TtlCache.AnswersAreRecent: the glob matching of patterns against model names is left out.
- AsyncLogger.Conservation: a nil entry, the texts of warnings and the contents of an attempt are left out.
- ProviderRewrites.ProviderNameRewrites: names hold no NUL byte, which the source uses to join the parts of a key.
- CostQuery.SelectedExactly: texts are never null; the order of texts and what LIKE takes for the same letter are parameters; grouping and sums over the selected requests are left out.
- CostFilter.BuildCostFilter: normalization of the two time bounds is done before; the model column is one of the request log's own columns.
- BudgetPeriods.PeriodsTile: the zone has a fixed offset; daylight saving time is left out.
- SQL execution, migrations and the other store operations, the web UI, commands, metrics and prices.
