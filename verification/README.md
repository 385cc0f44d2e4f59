# ModelMeld: a verified model of the gateway's core

ModelMeld is a gateway between chat clients and model providers. It translates
between the OpenAI and Anthropic wire formats, streams included, keeps a
tiered conversation memory with a background summarizer, caches completions,
and routes each request to a model and an adapter with failover. This project
models that core and proves what it is relied on for.

`dafny verify dfyconfig.toml` checks everything.

How the files fit together:

- `StreamTypes`, `AnthropicMessage`, `ChunkPieces`, `ChunkContent` say what the two stream
  vocabularies mean: the grammar of an Anthropic event stream, the message a
  client accumulates from it, and the text and tool pieces of a chunk stream.
  None of them mentions a translator.
- `OpenAIToAnthropic`, `AnthropicToOpenAI`, `ResponsesStream` hold the three
  translators as classes whose methods update fields, each method proved equal
  to a step function, and the whole-run theorems about those functions.
  `StreamRoundTrip` composes the first two; `ClosingOrder` says in which order
  the third closes its items, and `ChunkHeadings` what the second one's chunks say
  besides content.
- `Requests`, `RequestTranslators`, `RequestNormalForm` hold the non-streaming
  request translation: functions, the loops that compute them, the round trip
  and the normal form. `Sse` is the event printer and its line parser.
- `MemoryStore`, `Summarizer`, `PromptEscape`, `ContextBudget` hold the turn
  log with compare-and-set, the summarizer protocol under every interleaving,
  the prompt it sends, and the context budget loops. `ContextRendering` is the
  message the budget is for.
- `CompletionCache` is the LRU cache with time to live.
- `Registry`, `Scout`, `CapabilityRouter`, `TieredRouter` go from ranking
  to the choice of a model to adapters and failover. `ScoutChoice` says of the
  rows themselves which one is chosen, and `SaverCeiling` when a saver request
  can be served outside the OSS tier.
- `Text`, `SeqFacts`, `Wrappers` are shared helpers.

What stands for the outside world: clocks are arguments; uuids are supply
functions indexed by the block or item they are drawn for; JSON is a parser and
a printer passed in, with "parsing what was printed gives the value back" as a
stated hypothesis where it is needed; an adapter's health answer and the
model's summary text are arbitrary inputs. While a router waits for a health
answer, any sequence of writes by other requests may come in between: it is an
input of every reading, so requests overlap at every await of the health check.

## Where the code and its documentation disagree

- `OpenAIToAnthropicStreamTranslator.finalize` says a second call returns an
  empty list (src/modelmeld/translation/openai_anthropic.py:1084); the body
  closes the message again. `SecondFinalizeRepeats` states what it emits and
  that the result is no longer well formed.
- The same translator is well formed exactly for chunk streams in which no
  tool receives arguments after another block was opened. The module does not
  say so; `TranslateMeans` proves it in both directions, and
  `ResumedToolBreaksGrammar` is a stream of three chunks that breaks the grammar.
- The cache header promises eviction of expired entries first
  (src/modelmeld/cache/in_memory.py:6); `set` pops the front whatever its
  expiry. `ExpiredFirstIff` says exactly when the promise is kept, and
  `LiveEntryIsEvicted` is a run of three calls that breaks it.
- The saver policy promises that a customer cannot be billed frontier rates
  (src/modelmeld/scout/policy.py:16). Fallback ids are resolved by model id
  alone (src/modelmeld/scout/capability.py:583), to the last listed row of the
  model, so a model listed inside and outside the OSS tier can lead out.
  `SaverCeilingIff` says exactly when some chain of calls leaves the tier,
  `SaverNeverLeavesOss` gives a condition on the registry that rules it out, and
  `OneFailureLeavesTier` is a registry of three rows where one failure does it.
- The same lookup may miss the row that was ranked:
  `GetFindsRankedRowIffUnique` says exactly when it finds every ranked row, and
  `LookupMissesRankedRow` is the case of two rows of one model, both ranked where
  the query admits them.
- Failover comments say that an adapter pinned to another model is skipped
  (src/modelmeld/router/base.py:317); the default `serves_model` always says
  yes (src/modelmeld/adapters/base.py:84). `PinDoesNotBlockFailover` says that a
  pin alone never matters, and `PinnedAdapterGetsOtherModel` is an instance.
- The hint documentation says that excluded providers are never chosen
  (docs/routing-hints.md:27). `-quality`, and `-auto` when it escalates, put the
  frontier providers in place of the set the exclusions were taken from
  (src/modelmeld/scout/capability.py:378). `ExcludedCanBeChosenIff` says exactly for
  which requests a registry can lead to an excluded provider.
- A threshold hint of the client switches the saver tier off
  (src/modelmeld/scout/capability.py:308): `HintSwitchesCeilingOff` says that a hinted
  saver request is decided like one without policy, and `HintedSaverGetsFrontier`
  is one that is sent to openai at once.
- The docstring of `rank` says that rows without latency data fall back to plain
  cost (src/modelmeld/scout/registry.py:375); the code scales them by the median
  latency, as the sort's own docstring says. `UnmeasuredIsPlainIff` says exactly
  when one unmeasured candidate is ranked at its plain cost,
  `KeysAsDocumentedIff` when all keys are the documented ones, and
  `UnmeasuredRowRanksLater` is a ranking of two rows that comes out the other way.
- Context assembly reads the summary twice (src/modelmeld/memory/context.py:94
  and src/modelmeld/memory/tiers.py:35) and caps the turns
  (src/modelmeld/memory/tiers.py:38). `CoverageIff` says exactly when what was read
  covers the log; `UpsertBetweenReads` and `CapLeavesGap` are the two ways to miss it.
- The event printer leaves U+2028, U+2029 and U+0085 as they are
  (src/modelmeld/translation/openai_anthropic.py:1288), and the client library's
  line reader breaks lines there (src/modelmeld/adapters/anthropic_adapter.py:447;
  the library is not part of this model, its line breaks are those of Python's
  `str.splitlines`). `EventsRoundTripIff` says that printed events come back exactly
  when no payload holds a line break; `LineSeparatorLosesEvent` is a text delta that
  does not come back, and `LineSeparatorInjectsEvent` one that comes back as an
  event that was never sent.
- The header of the Responses translator promises closing in output-index order
  (src/modelmeld/translation/responses_stream.py:16-18); `finalize` closes text
  first. `ClosedInOrderIff` says exactly when the order is kept, and
  `TextAfterToolIsClosedFirst` is a stream of two chunks that breaks it.
- Both routers write a health answer back under the time the check began
  (src/modelmeld/router/capability.py:282 and src/modelmeld/router/base.py:211), so an
  answer that comes late overwrites what others recorded meanwhile, although a
  failure is meant to keep a provider out (src/modelmeld/router/capability.py:117).
  `LateAnswerRevives` hands a failed provider out again at once, `LateFirstProbe`
  loses a tier's count of failures. `FailoverVisitsEachOnce`, `FailedAdapterRests` and
  `HealthIsItsHistory` hold for all overlapping calls and name the late answers
  that matter.

## Model

| member | source | states |
|---|---|---|
| OpenAIToAnthropic.TranslateMeans | src/modelmeld/translation/openai_anthropic.py:1042-1130 | for any chunk sequence plus one finalize, the message a client accumulates is the meaning of the chunks (text runs and tools in order of first mention, ids, stop reason, usage) under the caller's model and input token count, and the event grammar holds if and only if no tool gets arguments after another block opened |
| OpenAIToAnthropic.StopTellsFinish | src/modelmeld/translation/openai_anthropic.py:835-843 | the stop reason of any stream says which finish reason the last chunk with one gave: length, tool calls or the legacy function call, content filter, and end of turn for stop or none |
| OpenAIToAnthropic.ResumedToolBreaksGrammar | src/modelmeld/translation/openai_anthropic.py:1223-1242 | arguments for tool 0, a chunk for tool 1 and more arguments for tool 0 give an ill-formed stream |
| OpenAIToAnthropic.ContentConserved | src/modelmeld/translation/openai_anthropic.py:1159-1242 | for any chunk sequence, interleaved or not, the text of all blocks is the first-choice text, and each mentioned tool has a block holding exactly its concatenated arguments under the id and name of its first mention |
| OpenAIToAnthropic.EmptyRunMeans | src/modelmeld/translation/openai_anthropic.py:1084-1130 | a stream of no chunks still ends as a well-formed message with one empty text block, under the caller's model and input token count |
| OpenAIToAnthropic.SecondFinalizeRepeats | src/modelmeld/translation/openai_anthropic.py:1084-1130 | a second finalize emits message_delta and message_stop again and breaks the grammar |
| OpenAIToAnthropic.FinishedState | src/modelmeld/translation/openai_anthropic.py:1084-1115 | after finalize the translator has started, has no block open and counts exactly the blocks it has shown |
| OpenAIToAnthropic.RunKeepsInv | src/modelmeld/translation/openai_anthropic.py:1042-1082 | after every non-empty run the counters, the open block and the index map describe the blocks shown so far, and the output is a grammatical prefix exactly while nothing was interleaved |
| OpenAIToAnthropic.OpenAIToAnthropicStreamTranslator.constructor | src/modelmeld/translation/openai_anthropic.py:1010-1040 | starts in the initial state |
| OpenAIToAnthropic.OpenAIToAnthropicStreamTranslator.EmitTextDelta | src/modelmeld/translation/openai_anthropic.py:1159-1183 | new fields and events are those of the text step |
| OpenAIToAnthropic.OpenAIToAnthropicStreamTranslator.OpenToolBlock | src/modelmeld/translation/openai_anthropic.py:1185-1222 | on first mention the open block is closed and the tool opened at the next index, under its id or a drawn one; otherwise nothing |
| OpenAIToAnthropic.OpenAIToAnthropicStreamTranslator.EmitToolCallDelta | src/modelmeld/translation/openai_anthropic.py:1185-1242 | new fields and events are those of the tool step |
| OpenAIToAnthropic.OpenAIToAnthropicStreamTranslator.EmitDelta | src/modelmeld/translation/openai_anthropic.py:1066-1082 | a delta's text first, then its tool deltas in order |
| OpenAIToAnthropic.OpenAIToAnthropicStreamTranslator.TakeUsage | src/modelmeld/translation/openai_anthropic.py:1046-1057 | output tokens are overwritten, cache counts only by counts that are present |
| OpenAIToAnthropic.OpenAIToAnthropicStreamTranslator.EnsureStarted | src/modelmeld/translation/openai_anthropic.py:1059-1063 | message_start is emitted once; what it announces is pinned by TranslateMeans |
| OpenAIToAnthropic.OpenAIToAnthropicStreamTranslator.TranslateChunk | src/modelmeld/translation/openai_anthropic.py:1042-1082 | one chunk takes the state and output of the chunk step |
| OpenAIToAnthropic.OpenAIToAnthropicStreamTranslator.Finalize | src/modelmeld/translation/openai_anthropic.py:1084-1130 | finalize takes the state and output of the final step |
| ChunkPieces.GroupedKeepsText | src/modelmeld/translation/openai_anthropic.py:1159-1183 | grouping pieces into blocks keeps the concatenated text |
| ChunkPieces.GroupedKeepsArgs | src/modelmeld/translation/openai_anthropic.py:1185-1242 | a tool's block holds its concatenated arguments under the id and name of its first mention; a tool without block was never mentioned |
| ChunkPieces.AbandonedIffNotLast | src/modelmeld/translation/openai_anthropic.py:1223-1242 | a tool was left for another block exactly when its block is not the last one |
| ChunkContent.PiecesHoldContent | src/modelmeld/translation/openai_anthropic.py:1066-1078 | the pieces of any chunk stream hold exactly the text of the first choices and, for each tool, exactly the arguments given for it |
| ChunkContent.PiecesAreInOrder | src/modelmeld/translation/openai_anthropic.py:1066-1078 | within a chunk its text comes first and then the tool deltas in order, with the ids and names given |
| AnthropicToOpenAI.AnthropicStreamTranslator.TranslateEvent | src/modelmeld/translation/openai_anthropic.py:383-474 | one event takes the state and the optional chunk of the event step |
| ChunkHeadings.ChunksDescribe | src/modelmeld/translation/openai_anthropic.py:322-474 | after every grammatical prefix the first chunk is an empty text that carries usage exactly if there is a count, each chunk has one choice and carries the message's model and id, a tool is opened with id, name and empty arguments and goes on with arguments alone, the chunks' prompt and completion counts add up to the message's, and their finish reason tells its stop reason |
| StreamRoundTrip.RoundTrip | src/modelmeld/translation/openai_anthropic.py:354-474 | every well-formed Anthropic stream sent through both translators comes back well formed, with the same message up to the named normal form: empty text dropped, adjacent text merged, one empty text block if none remain, stop_sequence as end_turn, absent tool ids drawn fresh |
| StreamRoundTrip.RoundTripExact | src/modelmeld/translation/openai_anthropic.py:966-1242 | a stream already in that form comes back as exactly the same message, under the caller's model and input token count |
| StreamRoundTrip.RunKeeps | src/modelmeld/translation/openai_anthropic.py:383-474 | after every grammatical prefix the chunks sent so far stand for the message accumulated so far |
| ResponsesStream.LifecycleHolds | src/modelmeld/translation/responses_stream.py:76-191 | for every chunk sequence, interleaved tools included, a strict client accepts the whole stream: every item is added once before its deltas, done once, and the terminal output lists all items in index order; the text item holds the concatenated text; each call item is announced under the name of its tool's first mention and holds exactly its first id, first non-empty name and arguments, the same name in both closing events; every mentioned tool has its item |
| ResponsesStream.CompletedCounts | src/modelmeld/translation/responses_stream.py:106-125 | response.completed carries the last reported usage, or else the caller's input estimate and an output estimate from all streamed text and argument characters |
| ResponsesStream.SequenceNumbers | src/modelmeld/translation/responses_stream.py:193-196 | the i-th event of a finished stream carries sequence number i |
| ResponsesStream.EveryEventIsCounted | src/modelmeld/translation/responses_stream.py:112-196 | a finished translator has counted every event of the stream |
| ResponsesStream.EstimatedTokens | src/modelmeld/translation/responses_stream.py:123-126 | no token for no characters, one for fewer than four, else the number of whole fours |
| ResponsesStream.SecondFinalizeIsSilent | src/modelmeld/translation/responses_stream.py:112-191 | a second finalize emits nothing and changes nothing |
| ResponsesStream.EveryIndexUsed | src/modelmeld/translation/responses_stream.py:112-191 | every output index below the number of items belongs to the text item or to a tool |
| ResponsesStream.OutputIsInOrder | src/modelmeld/translation/responses_stream.py:112-191 | although text is closed before tools, the terminal list holds the item of index i at place i |
| ClosingOrder.ClosedInOrderIff | src/modelmeld/translation/responses_stream.py:16-18 | for any chunk sequence, items are done in the order of their output indices if and only if the first content is text, or there is no text at all, or no content at all |
| ClosingOrder.TextAfterToolIsClosedFirst | src/modelmeld/translation/responses_stream.py:140-180 | a tool call and then text: the items are not done in index order |
| ResponsesStream.RunHolds | src/modelmeld/translation/responses_stream.py:76-110 | after any chunks the accumulators hold exactly the streamed text and, for each tool, its streamed arguments |
| ResponsesStream.ResponsesStreamTranslator.NextSeq | src/modelmeld/translation/responses_stream.py:193-196 | returns the counter and advances it |
| ResponsesStream.ResponsesStreamTranslator.EmitCreated | src/modelmeld/translation/responses_stream.py:76-110 | emits response.created once |
| ResponsesStream.ResponsesStreamTranslator.OpenTextItem | src/modelmeld/translation/responses_stream.py:198-217 | opens the message item at the next output index |
| ResponsesStream.ResponsesStreamTranslator.HandleToolDelta | src/modelmeld/translation/responses_stream.py:219-253 | opens a tool item on first mention and adds the delta |
| ResponsesStream.ResponsesStreamTranslator.TranslateChunk | src/modelmeld/translation/responses_stream.py:76-110 | one chunk takes the state and output of the chunk step |
| ResponsesStream.ResponsesStreamTranslator.CloseItems | src/modelmeld/translation/responses_stream.py:140-180 | closes text, then tools, and collects the closed items |
| ResponsesStream.ResponsesStreamTranslator.Finalize | src/modelmeld/translation/responses_stream.py:112-191 | finalize takes the state and output of the final step |
| Requests.RoundTripIffLossless | src/modelmeld/translation/openai_anthropic.py:104-217 | translating a translated request back and forth is the identity if and only if no message carries a cache marker, no system message is in list form, no assistant has empty text beside tool calls, and none has neither text nor calls |
| Requests.TripIsBounce | src/modelmeld/translation/openai_anthropic.py:104-217 | what the trip yields in every case, message by message; it never fails |
| Requests.SecondTripIsExact | src/modelmeld/translation/openai_anthropic.py:519-610 | a second trip changes nothing more |
| Requests.MessageTrip | src/modelmeld/translation/openai_anthropic.py:153-217 | the trip of one message, with tool arguments surviving parse and dump |
| Requests.ImageShape | src/modelmeld/translation/openai_anthropic.py:545-573 | every translated message has the shape the round trip starts from: string contents except cached parts, and a leading system message that is never empty |
| RequestNormalForm.NormalForm | src/modelmeld/translation/openai_anthropic.py:545-573 | system text only in the first message and all of it there, in list form exactly when a fragment carries a cache marker; every user text, answer, tool call and tool result kept, in order |
| RequestNormalForm.ContentIsConserved | src/modelmeld/translation/openai_anthropic.py:654-789 | the items of the translated body are the items of the turns, tool results of a turn ahead of its text |
| RequestNormalForm.SystemIsConserved | src/modelmeld/translation/openai_anthropic.py:633-651 | system turns inside the array contribute their non-empty text in order |
| RequestNormalForm.FailsIff | src/modelmeld/translation/openai_anthropic.py:681-780 | a request is refused if and only if some turn holds an image, a user turn a tool_use, or an assistant turn a tool_result |
| RequestNormalForm.AssistantBlocksAre | src/modelmeld/translation/openai_anthropic.py:200-217 | an assistant message becomes its text if it says something and then its calls in order, each input parsed from the arguments, empty for none and wrapped where they are no JSON; or one empty text if there is neither |
| RequestNormalForm.ImageSourceIff | src/modelmeld/translation/openai_anthropic.py:189-197 | a data URL is split if and only if it has a media type without semicolon and a body behind ";base64,", and then into these two; any other URL is passed on |
| RequestNormalForm.ContentTextIsLines | src/modelmeld/translation/openai_anthropic.py:104-169 | the text of a content in parts is their texts, one to a line |
| RequestNormalForm.ToolsFollowTheirCall | src/modelmeld/translation/openai_anthropic.py:654-718 | if every tool result answers a call of the turn before it, system turns aside, every tool message lies in the run of tool messages right behind the assistant message that called it |
| RequestTranslators.UserToOpenAI | src/modelmeld/translation/openai_anthropic.py:654-718 | the loop over a user's blocks yields tool messages and then one user message, or the first error |
| RequestTranslators.AssistantToOpenAI | src/modelmeld/translation/openai_anthropic.py:744-789 | the loop over an assistant's blocks yields one message, or the first error |
| RequestTranslators.TurnToOpenAI | src/modelmeld/translation/openai_anthropic.py:633-651 | one turn by role |
| RequestTranslators.FromAnthropicRequest | src/modelmeld/translation/openai_anthropic.py:545-573 | the loop over the turns computes the translation the theorems are about |
| RequestTranslators.TranslateUserContent | src/modelmeld/translation/openai_anthropic.py:172-186 | user parts become blocks, audio is refused |
| RequestTranslators.TranslateAssistantContent | src/modelmeld/translation/openai_anthropic.py:200-217 | text if there is any, then tool calls, else one empty text block |
| RequestTranslators.TranslateMessage | src/modelmeld/translation/openai_anthropic.py:153-169 | one message by role |
| RequestTranslators.ToAnthropicParams | src/modelmeld/translation/openai_anthropic.py:104-144 | system messages split off and joined, the others translated in order, or the first error |
| Sse.EventsRoundTrip | src/modelmeld/translation/openai_anthropic.py:1272-1289 | printing any events, splitting the text into lines and parsing it yields exactly those events (section 9.2 of the WHATWG HTML Living Standard), for any set of line breaks and typed JSON objects serialized without one |
| Sse.EventsRoundTripInPython | src/modelmeld/adapters/anthropic_adapter.py:446-465 | the same with the line breaks of `str.splitlines` |
| Sse.EventsRoundTripIff | src/modelmeld/translation/openai_anthropic.py:1272-1289 | for any set of line breaks and any typed objects printed with or without breaks, where no proper part of a payload reads as the event itself: exactly those events come back, in order, if and only if no payload holds a line break |
| Sse.LineSeparatorLosesEvent | src/modelmeld/translation/openai_anthropic.py:1287-1289 | a `content_block_delta` event whose text holds U+2028 is printed and read back as no event |
| Sse.LineSeparatorInjectsEvent | src/modelmeld/translation/openai_anthropic.py:1287-1289 | a `content_block_delta` event whose text is U+2028, `data: {}`, U+2028 is read back as an empty object with the type of the message |
| Sse.StreamIsRead | src/modelmeld/adapters/anthropic_adapter.py:446-465 | for arbitrary payloads, each printed message yields what it yields on its own: nothing if it is no JSON object, and its event type where the object has none; no type leaks to the next message |
| Sse.ParseAnthropicSse | src/modelmeld/adapters/anthropic_adapter.py:446-465 | the loop over lines computes the reader the theorems are about |
| MemoryStore.InMemoryMemoryStore.GetOrCreateSession | src/modelmeld/memory/in_memory.py:67-88 | a new session starts with an empty log and no summary, an existing one keeps both, and no other session changes |
| MemoryStore.InMemoryMemoryStore.AppendTurn | src/modelmeld/memory/in_memory.py:98-125 | appends one turn to one session's log, or reports the missing session and changes nothing |
| MemoryStore.InMemoryMemoryStore.ListTurns | src/modelmeld/memory/in_memory.py:127-137 | the log, or its last turns when a limit is given |
| MemoryStore.InMemoryMemoryStore.UpsertSummary | src/modelmeld/memory/in_memory.py:202-238 | compare-and-set: on the expected version the row is replaced and its version raised by one, otherwise nothing changes and the versions are reported |
| MemoryStore.InMemoryMemoryStore.ClearSummary | src/modelmeld/memory/in_memory.py:240-249 | forgets one session's summary only |
| MemoryStore.IndexOf | src/modelmeld/memory/tiers.py:43-53 | the first position of a turn id in the log, or its length |
| Summarizer.SummaryIsExact | src/modelmeld/memory/summarizer.py:98-166 | in every interleaving of any number of workers and appends, the turns folded into the stored summary are exactly the log prefix that ends at its high-water turn, and with the uncovered turns they make up the log |
| Summarizer.SuccessIsProgress | src/modelmeld/memory/summarizer.py:137-147 | a step leaves the summary alone or raises the version by one and strictly extends what is folded, storing the published text under the configured model |
| Summarizer.LossesArePaidFor | src/modelmeld/memory/summarizer.py:148-160 | a run that lost n races saw at least n upserts, all by others, since it began, and in every state it has lost no more races than it has retries |
| Summarizer.LossMeansNewer | src/modelmeld/memory/summarizer.py:134-154 | an attempt to publish fails if and only if the stored version moved on after the worker read it |
| Summarizer.ThresholdDecides | src/modelmeld/memory/summarizer.py:112-115 | having read the log a worker goes on if and only if the threshold is at least 1, at least that many turns are uncovered and it has retries left |
| Summarizer.VersionsAreWorthwhile | src/modelmeld/memory/tiers.py:69-84 | in every run each version folds in at least a threshold of turns more than the one before it; with a threshold below 1 there never is a summary |
| Summarizer.LossesAreCounted | src/modelmeld/memory/summarizer.py:117-160 | a worker counts exactly the races it lost since it was last idle, through all its retries |
| Summarizer.CoverageIff | src/modelmeld/memory/context.py:92-100 | a summary read, then a second summary read that selects the turns, at most the cap: together they cover the log if and only if both reads saw the same version and the uncovered turns fit the cap |
| Summarizer.UpsertBetweenReads | src/modelmeld/memory/context.py:92-100 | a reachable run with an upsert between the two reads, after which what was read covers nothing of the log |
| Summarizer.CapLeavesGap | src/modelmeld/memory/tiers.py:34-40 | every log longer than the cap, read at one version without a summary, is not covered |
| Summarizer.Reachable | src/modelmeld/memory/summarizer.py:98-166 | the protocol invariant holds after every action sequence |
| PromptEscape.EscapedIsClean | src/modelmeld/memory/summarizer.py:226-238 | no escaped content holds a turn tag or a closing tag, and content without them is unchanged |
| PromptEscape.OpeningListTagPasses | src/modelmeld/memory/summarizer.py:226-238 | the opening tag of the turn list is not escaped |
| PromptEscape.SanitizedIsClean | src/modelmeld/memory/summarizer.py:241-265 | a sanitized summary fits its bound and holds no fragment of any prompt tag |
| PromptEscape.PromptReadsBack | src/modelmeld/memory/summarizer.py:199-223 | scanning each turn to the next closing tag recovers the summary and every escaped content, in order |
| PromptEscape.PromptCounts | src/modelmeld/memory/summarizer.py:199-223 | exactly one opening and one closing turn tag per turn, and one closing list tag |
| PromptEscape.PromptIsUnambiguous | src/modelmeld/memory/summarizer.py:199-265 | with the tags the worker uses and a summary it sanitized, every prompt reads back exactly |
| PromptEscape.BuildSummarizerPrompt | src/modelmeld/memory/summarizer.py:199-223 | the loop over turns builds that prompt |
| PromptEscape.PromptIsSound | src/modelmeld/memory/summarizer.py:226-265 | the worker's tags and replacements satisfy what the proofs ask of them |
| PromptEscape.TagsOfRoles | src/modelmeld/memory/summarizer.py:199-223 | what follows "<turn" in the opening tag of each role, written out |
| Text.ReplaceCounts | src/modelmeld/memory/summarizer.py:233-238 | replacing one marker by inert text leaves none of it and creates no other marker |
| ContextBudget.EnforceBudget | src/modelmeld/memory/context.py:183-237 | fits the bound; keeps the longest recent-turn suffix that fits beside all facts and the full summary; touches the summary only when no turn is left and facts only when the summary is gone or empty; truncated if and only if something was dropped |
| ContextBudget.DropTurnsRunning | src/modelmeld/memory/context.py:183-205 | the running decrement always equals a fresh count, and the kept suffix is the longest that fits |
| ContextBudget.DropTurns | src/modelmeld/memory/context.py:264-276 | the kept turns are the longest suffix that fits, whatever is counted |
| ContextBudget.DropFacts | src/modelmeld/memory/context.py:308-311 | the kept facts are the longest suffix that fits |
| ContextBudget.BestPrefix | src/modelmeld/memory/context.py:282-293 | the binary search ends with a prefix that fits, the longest one if the counter is monotone on prefixes |
| ContextBudget.EnforceTokenBudget | src/modelmeld/memory/context.py:244-313 | the same promises for any token counter, and the longest summary prefix for monotone ones |
| ContextBudget.CharCountIsMonotone | src/modelmeld/tokens/counter.py:55-58 | the character counter is monotone on prefixes |
| ContextBudget.CharCount | src/modelmeld/tokens/counter.py:55-58 | no token for no text, one for fewer than four characters, else the number of whole fours |
| ContextRendering.FactsCountAsRendered | src/modelmeld/memory/context.py:151-181 | the character estimate of facts is the length of their rendered lines |
| ContextRendering.RenderedParts | src/modelmeld/memory/context.py:151-166 | facts first, then the stripped summary, behind one preamble; nothing where there is neither |
| ContextRendering.FactLinesSnoc | src/modelmeld/memory/context.py:154-158 | each fact is one more line, key and value |
| ContextRendering.TokensCountAsRendered | src/modelmeld/memory/context.py:256-257 | the token estimate of a fact counts its rendered line and one more |
| ContextRendering.EachAddsItsShare | src/modelmeld/memory/context.py:171-181 | one more fact or turn adds its own share to the total, a turn its content and twelve characters or four tokens |
| ContextRendering.RenderedFitsBudget | src/modelmeld/memory/context.py:151-166 | a context within its character budget is rendered within that budget and the fixed headings; with facts and an unpadded summary the estimate is exact |
| CompletionCache.CapacityInclusion | src/modelmeld/cache/in_memory.py:41-74 | the same calls on capacities m <= n keep the smaller cache inside the larger: same entries, same relative order |
| CompletionCache.LargerCacheHitsMore | src/modelmeld/cache/in_memory.py:41-57 | every hit of the smaller cache is the same hit in the larger |
| CompletionCache.RefinesUnboundedMap | src/modelmeld/cache/in_memory.py:41-74 | every entry is the last positive-lifetime set of its key, hits are unexpired, and the size bound holds |
| CompletionCache.RecentKeyStays | src/modelmeld/cache/in_memory.py:59-74 | an unexpired key is a hit with its last value while fewer than max_entries other keys were set or hit since |
| CompletionCache.GetDropsExpired | src/modelmeld/cache/in_memory.py:41-57 | a get drops its key if expired, keeps every other entry in place, and moves the entry it hits to the back |
| CompletionCache.SetEvictsFront | src/modelmeld/cache/in_memory.py:59-74 | a new key in a full cache pushes out the front entry and nothing else |
| CompletionCache.ExpiredFirstIff | src/modelmeld/cache/in_memory.py:59-74 | when a new key meets a full cache, expired entries go before live ones if and only if the front entry is expired or nothing is |
| CompletionCache.LiveEntryIsEvicted | src/modelmeld/cache/in_memory.py:59-74 | three sets on a cache of two after which a live entry is gone and a dead one is kept |
| CompletionCache.InMemoryCompletionCache.Get | src/modelmeld/cache/in_memory.py:41-57 | a hit moves the entry to the back, an expired entry is removed, everything else stays |
| CompletionCache.InMemoryCompletionCache.Set | src/modelmeld/cache/in_memory.py:59-74 | the entry goes to the back and the oldest are evicted down to the bound; a lifetime of zero or less does nothing |
| Registry.OrderSorts | src/modelmeld/scout/registry.py:202-211 | the order is the stable sort by key |
| Registry.RankIsStableSort | src/modelmeld/scout/registry.py:350-416 | rank returns exactly the admitted rows, as a permutation, by effective cost with ties in listing order |
| Registry.PlainCostOrder | src/modelmeld/scout/registry.py:183-194 | with weight at most zero or no measured row, rank returns the candidates by plain cost, rows of one cost in listing order |
| Registry.MedianSplits | src/modelmeld/scout/registry.py:186-200 | at most half of the values lie on either side of the median |
| Registry.MedianIsMidpoint | src/modelmeld/scout/registry.py:200 | the median is the midpoint of two values with fewer than half of the list below the one, and above the other |
| Registry.MedianIsStable | src/modelmeld/scout/registry.py:186-200 | filling any missing values with the median leaves the median unchanged |
| Registry.ImputationIsNeutral | src/modelmeld/scout/registry.py:167-211 | doing so leaves every sort key unchanged |
| Registry.RankIgnoresMedianData | src/modelmeld/scout/registry.py:134-211 | two listings that differ only in latency data, where unmeasured candidates get the median, are ranked in the same order |
| Registry.UnmeasuredIsPlainIff | src/modelmeld/scout/registry.py:186-211 | an unmeasured candidate is ranked at its plain cost if and only if latency has no weight, nothing is measured, its cost is zero or the median latency is zero |
| Registry.KeysAsDocumentedIff | src/modelmeld/scout/registry.py:371-380 | all sort keys are the documented ones if and only if latency has no weight, nothing is measured, the median latency is zero, or every unmeasured candidate costs nothing |
| Registry.UnmeasuredRowRanksLater | src/modelmeld/scout/registry.py:371-380 | a row of cost 1.2 without latency data and one of cost 1.0 measured at ten seconds: rank puts the measured one first, the documented keys would put it second |
| Registry.PickIsBest | src/modelmeld/scout/registry.py:306-348 | for any price weights pick returns a qualified row that no other qualified row beats, or none if there is none |
| Registry.PickAgreesWithRank | src/modelmeld/scout/registry.py:306-416 | with the default weights, no latency weight and no admission floor, pick costs the same as the head of rank |
| Registry.GetReturnsLastRow | src/modelmeld/scout/multi_provider_registry.py:58-81 | looking up a model id yields its last listed row |
| Registry.GetFindsRankedRowIffUnique | src/modelmeld/scout/multi_provider_registry.py:58-81 | looking up finds the ranked row for every row if and only if no model has two rows |
| Registry.LookupMissesRankedRow | src/modelmeld/scout/multi_provider_registry.py:58-81 | of two rows of one model each is ranked if and only if the query admits it, and looking the model up finds the second |
| Registry.MultiProviderModelRegistry.constructor | src/modelmeld/scout/multi_provider_registry.py:58-81 | builds both tables by assignment in listing order |
| Registry.MultiProviderModelRegistry.Rank | src/modelmeld/scout/multi_provider_registry.py:110-162 | the loop and sort compute the ranking |
| Registry.MultiProviderModelRegistry.Pick | src/modelmeld/scout/multi_provider_registry.py:164-199 | the loop computes the pick for any price weights |
| Scout.ChosenAreAdmitted | src/modelmeld/scout/capability.py:443-524 | the chosen row and every fallback id come from rows the query admits, and the fallbacks respect the depth |
| Scout.FallbacksMeetFilters | src/modelmeld/scout/capability.py:521-524 | every fallback id resolves to the last listed row of its model, which meets the chosen one's filters if and only if it was ranked itself, as it always is with one row per model |
| Scout.SaverChoosesOss | src/modelmeld/scout/capability.py:317-325 | a saver request without pin or threshold hint is given an OSS row, every fallback model has an OSS row that was ranked, and the fallbacks stay in the tier if and only if the last listed row of each is an OSS row |
| Scout.RerankKeeps | src/modelmeld/scout/capability.py:470-516 | re-ranking invents no row and never empties the list |
| Scout.CapabilityScout.ChooseModel | src/modelmeld/scout/capability.py:245-554 | narrowing, bending the threshold, ranking and re-ranking in turn computes the choice |
| ScoutChoice.ChoiceIff | src/modelmeld/scout/capability.py:271-460 | without a pin a model is chosen if and only if the exclusions leave a provider and some row may serve: enabled, large enough, with tools if asked, of a provider the policy allows, and capable by score or by its agentic score |
| ScoutChoice.ChoiceIsFirst | src/modelmeld/scout/capability.py:443-554 | the candidates are tried strongest first on agentic quality routes, else by price (and speed for tool-bearing auto requests), only proven ones on agentic auto routes that have any; the first is chosen with its own score and slug, the next ones are its fallbacks in order |
| ScoutChoice.QualityChoosesStrongest | src/modelmeld/scout/capability.py:462-491 | on an agentic quality route no row that may serve has a higher agentic score (category score where it has none) than the chosen one, and none as strong is cheaper |
| ScoutChoice.StrongestFirst | src/modelmeld/scout/capability.py:485 | the re-ranking is a permutation by that score descending, then by price, then in ranked order |
| ScoutChoice.NamesDecideAlike | src/modelmeld/scout/policy.py:70-82 | the earlier model names are decided like the current ones they stand for, and any model that is no policy name like no model at all |
| ScoutChoice.NamesPromiseProviders | src/modelmeld/scout/policy.py:10-34 | without pin and hint, saver is given an open-weight provider, quality outside autocomplete a frontier one at hand, and auto when it escalates a frontier one if any is at hand |
| ScoutChoice.PinDecides | src/modelmeld/scout/capability.py:268-270 | a pin is given the row of that id and no fallbacks, or nothing if there is none; an empty pin is none |
| ScoutChoice.UnknownIsMedian | src/modelmeld/scout/registry.py:186-211 | where any throughput is known, a row of unknown throughput is ranked as if as fast as the median one |
| ScoutChoice.SecondsArePaidFor | src/modelmeld/scout/registry.py:202-209 | in the effective cost each second adds the weight times the price |
| ScoutChoice.SecondsPerTurn | src/modelmeld/scout/registry.py:134-164 | the seconds of a turn are known where the throughput is, and are the time to the first token plus the tokens at that throughput |
| ScoutChoice.ExcludedCanBeChosenIff | docs/routing-hints.md:25-28 | for some registry a request is given a provider it excluded, if and only if the policy puts frontier providers in place of the configured ones, an excluded one is among them, and the exclusions leave something of a configured set |
| CapabilityRouting.FailoverVisitsEachOnce | src/modelmeld/router/capability.py:110-229 | whatever other requests write, also while a probe is out: unless some call comes a whole time to live after one of its marks, or another request replaces such a mark by a good or an older record, a failing request is given pairwise distinct adapters and is refused after at most as many failures as there are adapters |
| CapabilityRouting.OtherCallsWrite | src/modelmeld/router/capability.py:272-283 | resolving a decision and failing over change the cache by a sequence of writes only, which is what the runs let other requests do |
| CapabilityRouting.LateAnswerRevives | src/modelmeld/router/capability.py:272-283 | p serves and fails, q serves, the good answer of an older probe of p is recorded, q fails: p serves again although no time has passed |
| CapabilityRouting.FailedAdapterRests | src/modelmeld/router/capability.py:128-144 | at any point of any run, an adapter that failed is handed to the request again only if some later call comes a whole time to live past the failure, or another request replaced the mark by a good or an older record |
| CapabilityRouting.FirstUsableWins | src/modelmeld/router/capability.py:171-229 | the decision's own provider under the decision's id and slug and on the request's own adapter if it brought one, or else under its own id, its row's slug and score the first fallback that can serve: each candidate passed over had failed, has no adapter, or is recorded unhealthy, unless another request recorded it as healthy while the call waited |
| CapabilityRouting.RefusalMeansAllDown | src/modelmeld/router/capability.py:171-229 | nothing is refused while a candidate is left: each is recorded unhealthy, or another request recorded it as healthy while the call waited |
| CapabilityRouting.FailuresAreVisits | src/modelmeld/router/capability.py:110-144 | every failure yields one more decision or ends the request |
| CapabilityRouting.AtHandIsReachable | src/modelmeld/router/capability.py:85-96 | a frontier provider counts as at hand if and only if the request can reach an adapter for it |
| CapabilityRouting.FrontierChoiceHasAdapter | src/modelmeld/router/capability.py:78-108 | where the policy puts frontier providers in place of the configured ones, the chosen one has an adapter |
| SaverCeiling.SaverCeilingIff | src/modelmeld/router/capability.py:65-144 | for every registry, settings, health history and first decision, some chain of calls takes a saver request without pin or threshold hint outside the OSS tier if and only if a usable fallback of its choice resolves to a row outside, or, without health checks, one of its first two fallback providers is outside and reached |
| SaverCeiling.HealthCheckedIff | src/modelmeld/router/capability.py:171-229 | with health checks, for any decision of an OSS provider: it can leave the tier if and only if some usable fallback leads out |
| SaverCeiling.UncheckedIff | src/modelmeld/router/capability.py:171-229 | without health checks: if and only if the first fallback provider leads out, or the next different one does and the request does not go back to the chosen provider |
| SaverCeiling.OutageLeaves | src/modelmeld/router/capability.py:110-144 | with a fallback that leads out, one failure during an outage of the OSS tier is enough |
| SaverCeiling.SaverNeverLeavesOss | src/modelmeld/router/capability.py:65-144 | if every model with an OSS row is listed with an OSS row last, a saver request without pin or threshold hint never leaves the tier, whatever fails and whatever the settings |
| SaverCeiling.OneFailureLeavesTier | src/modelmeld/scout/capability.py:583-585 | x on fireworks, m on together and, listed last, on openai: one failure of x takes a saver request to openai |
| SaverCeiling.HintSwitchesCeilingOff | src/modelmeld/scout/capability.py:305-325 | a saver request with a threshold hint is decided like the same request for a model without policy |
| SaverCeiling.HintedSaverGetsFrontier | src/modelmeld/scout/capability.py:305-325 | with one openai row listed, a saver request is refused, and with a hint its score meets it is sent to openai at once |
| CapabilityRouting.CapabilityRouter.IsHealthy | src/modelmeld/router/capability.py:272-283 | a fresh cached answer is used, otherwise the adapter's answer is taken and remembered |
| CapabilityRouting.CapabilityRouter.ResolveOrFail | src/modelmeld/router/capability.py:171-229 | the walk over fallbacks computes the resolution and the new health cache |
| CapabilityRouting.CapabilityRouter.Route | src/modelmeld/router/capability.py:65-108 | choice with the available frontier providers, then resolution |
| CapabilityRouting.CapabilityRouter.RouteAfterFailure | src/modelmeld/router/capability.py:110-144 | a permanent error yields nothing and leaves the health cache alone; any other marks the adapter and resolves again |
| TieredRouting.HealthIsItsHistory | src/modelmeld/router/base.py:189-231 | after any calls, however they overlap, a tier is unhealthy if and only if the failed calls since it last answered well reached the threshold or a bad answer was recorded since; its counter is their number, except exactly when a first probe ended badly after one of them, and then it is lower |
| TieredRouting.NoOverlapNoDrop | src/modelmeld/router/base.py:189-231 | without overlapping calls the counter is always that number |
| TieredRouting.LateFirstProbe | src/modelmeld/router/base.py:203-216 | a call fails while the tier's first probe is out: a bad answer sets the counter back to zero, a good one hands the tier out |
| TieredRouting.RecordAnswersIff | src/modelmeld/router/base.py:197-203 | a record answers if and only if it is younger than the time to live, else the adapter does |
| TieredRouting.AnswerIsRecordedIff | src/modelmeld/router/base.py:203-216 | an answer is recorded under the time the check began, unless a first probe of the tier ended in the meantime and replaced the record the check had found |
| TieredRouting.StepIsMoves | src/modelmeld/router/base.py:189-335 | every call changes the records by a list of moves, which is what overlapping calls let in between |
| TieredRouting.UnhealthyTierRests | src/modelmeld/router/base.py:284-315 | once unhealthy, a tier is handed out by no call for one time to live, unless a success is reported or the answer of another request's probe is recorded that is good or older than the mark |
| TieredRouting.FailoverLeavesFailedTier | src/modelmeld/router/base.py:284-335 | failover never returns the failed tier, and returns the other only if it is configured and serves the model, and exactly then when it is recorded healthy and no other request touched its record meanwhile |
| TieredRouting.PinDoesNotBlockFailover | src/modelmeld/router/base.py:315-325 | an adapter with the default answer is handed out for every model, whatever it is pinned to, if and only if it is recorded healthy, where no other request touched its record meanwhile |
| TieredRouting.PinnedAdapterGetsOtherModel | src/modelmeld/router/base.py:315-325 | a cloud failure for one model is handed to a local adapter pinned to another |
| TieredRouting.RouteGivesBestUsable | src/modelmeld/router/base.py:236-282 | the preferred tier if usable, else the other if usable, else none, where no other request touched their records meanwhile |
| TieredRouting.PolicyIsObeyed | src/modelmeld/router/base.py:244-252 | with both tiers usable, always-local and always-cloud are obeyed whatever the scout says, and otherwise the scout is |
| TieredRouting.TieredRouter.IsHealthy | src/modelmeld/router/base.py:189-216 | the health map and answer of the check |
| TieredRouting.TieredRouter.RecordSuccess | src/modelmeld/router/base.py:218-231 | resets a known tier, and does nothing for an unknown one |
| TieredRouting.TieredRouter.Route | src/modelmeld/router/base.py:236-282 | the health map and tier of the routing step |
| TieredRouting.TieredRouter.RouteAfterFailure | src/modelmeld/router/base.py:284-335 | the health map and tier of the failure step; a permanent error changes nothing |

## Left out

- Event and chunk dictionaries with missing keys, roles, `created` times and
  object tags: events and chunks are typed values with the fields that carry
  content, ids, stop reasons and usage.
- Python object identity: the budget loops work on their own sequences, so the
  popping of the caller's lists is not visible. Health records are values; that a
  tier's first probe brings a record of its own is part of the model.
- Awaits inside a call, in part: a store call is one atomic step. The routers' health
  checks let others in while they wait, and the calls that read only the request
  (the classifier) are inputs.
- `run_once` as one method: the worker is a state machine with one step per
  store call, so that calls of other workers come in between.
- `clear_summary` and an absent `expected_version` are store operations, but
  not protocol steps: both break the version order the protocol relies on.
- Session locks, tenant id checks, facts in the store, and sessions' time stamps.
- `inject_into_request`: puts the rendered message and the replayed turns in front.
- Ids, models, time stamps and status fields of the Responses response object: copied
  from the constructor.
- Classifiers, difficulty and marker detectors, fingerprints and context
  estimates: their answers are inputs to the choice.
- Rationale strings, the skipped list and log output.
- Response translation without streams, tool definitions, tool choice and
  sampling parameters of requests: field-by-field copies.
- FailoverVisitsEachOnce: supposes that an adapter answers to the provider key it
  is configured under, as the repository builds them
  (src/modelmeld/router/__init__.py:159-161).
- FailedAdapterRests: supposes the same of the names.
- SaverCeilingIff: supposes the same, because the failed adapter's name is compared
  with provider keys.
- Floating point: costs, scores, latencies and times are reals.
- HTTP routes, provider SDKs, the command line, configuration, the Postgres
  and mem0 stores, the crypto and feed code.
