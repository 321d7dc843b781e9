# GloryAPI: verified model

GloryAPI is a local proxy for model providers. Its Codex bridge turns Responses requests into
chat completions and the upstream's streams back into Responses events; its server routes chat
completions over a configured catalog. This project models the stateful core of both in Dafny and
proves what that core has to keep. `dafny verify dfyconfig.toml` checks the whole project.

**Streams.** `SseText`, `SseReference`, `SseBridge`, `SseServer`, `SseServerCuts`, `SseStandard`: both
incremental parsers as classes with buffered state, proved against a one-pass parse of the whole
text, for every way of cutting it into chunks, and against section 9.2.6 of the WHATWG HTML standard.

**Pairing.** `Chat` defines one rule, `WellPaired`: an assistant message with n tool calls is
followed at once by exactly its n tool messages. `Translator` establishes it, `Compaction` keeps it
while cutting history, `WebLoop` keeps it in everything it sends.

**Events.** `Reasoning`, `Forwarder`, `ToolCalls`, `Stream`, `Nudge`, `Closing`, `LiveClosing`,
`StreamRun`: one streaming request from connecting to its terminal event. The outcome of a run is a value, `Ending`,
and `Rendered` says which events show it; every method states what it has written in these terms.

**Caches.** `OrderedMap` is the JavaScript Map as section 24.1 of ECMA-262 describes it, a list of
records that deletion only empties. `VisionCache` refines a recency list on top of it;
`ReasoningCache` is first in, first out.

**Configuration and routing.** `Idempotency`, `Members`, `Picker`, `PickerRepair`, `Configuration`,
`ConfigurationStore`, `Repetition`, `IdempotentWrites`, `Fallback`, `Ranking`, `Proxy`: tables as maps, a transaction as a method that
commits in full or puts the tables back.

## What the code does otherwise than it seems

Each of these is stated by a lemma with the exact condition or a concrete input.

- The bridge parser counts a CR on which it still waits. A line that fills the limit and ends in a
  CR is therefore too long only if a chunk ends right there (`BridgeChunkIndependentIff`).
- The server parser reads an accepted stream in the same way for all cuts exactly if no line between
  two data fields of one frame ends in CRLF (`ServerChunkIndependentIff`, with the stream of
  `FrameCut`). A stream it refuses can be accepted when cut (`ServerCutCrlf`); for every stream,
  `ServerReadingsIff` says with which frames some cut is accepted.
- The server parser takes a bare `data` line for an empty data line where the bridge ignores it
  (`ParsersAgreeIff`, `BareDataDiffers`).
- A payload made of several data lines is split once more before it is decoded, which loses or cuts
  its further lines (`ReframeIff`, `SecondLineLost`).
- The web loop's "incomplete" error is never reached: it needs a setting without web rounds, and
  `integrations/codex-bridge/bridge/config.js:185` admits 1 to 10 (`RunInternalWebToolLoop`).
- The time of a claim is stored in whole seconds and its age taken in milliseconds. A claim made
  late in its second is therefore taken over up to 998 milliseconds before ten minutes have passed
  (`WithinWindowRefused`, `EarlyTakeover`, `SafeDistanceIff`).
- A claim that is taken over can let two clients commit (`TakeoverCommitsTwice`); otherwise one key
  commits once (`CommitsBounded`), and `TakeoversIff` says which runs these are. The change is only
  repeated if its request neither names the revision it expects nor creates models
  (`CommitsTwiceIff`).
- Remembering the oldest reasoning again keeps its place and can evict it (`RememberedAndLost`).
- The comment at the picker repair promises that valid ids stay and that a second run changes
  nothing. A model with a second entry breaks the unique index if an id is free in its turn
  (`RepairIff`), and loses the valid id of its other entry if none is; the repair is for good
  exactly if neither happens (`RepairForGoodIff`). `SecondRepairChanges` gives a table whose valid id
  is erased and then handed to another model.
- A new model's pinned route is numbered 1..n only if it had no rows before (`PinnedIff`); an applied
  document can give it rows (`PinnedRowsReached`).
- Moving a fallback row closes a gap in the range instead of keeping it (`PlacedKeepsSetIff`).

Ranking keys join platform and model id with a colon. They are safe: the names that the configuration
admits for platforms have none (`PlatformsDistinguished`), which is what `EnabledRankedOnce` needs.

## Model

| member | source | states |
|---|---|---|
| SseBridge.SseStreamParser.Push | integrations/codex-bridge/bridge/responses-sse.js:27-38 | After any pushes the parser has handed out exactly the frames of the text pushed so far, or fails with the error of its first bad line; a finished parser refuses the chunk |
| SseBridge.SseStreamParser.Finish | integrations/codex-bridge/bridge/responses-sse.js:40-53 | The last frames of the whole text, or the incomplete-frame error; finishing twice is refused |
| SseBridge.SseStreamParser.Drain | integrations/codex-bridge/bridge/responses-sse.js:55-88 | Consumes every complete line of the buffer (LF, CR, CRLF; a last CR waits for the next chunk) and leaves the open rest |
| SseBridge.SseStreamParser.ConsumeLine | integrations/codex-bridge/bridge/responses-sse.js:96-119 | One line: dispatch at an empty line, data fields collected, comments and other fields ignored, frame budget enforced |
| SseBridge.ParseStream | integrations/codex-bridge/bridge/response-stream-chat.js:114-125 | A whole stream fed chunk by chunk equals the one-pass parse of its text, whenever no line fills the limit right before a CR |
| SseServer.SseStreamParser.Push | server/src/lib/sse-parser.ts:21-31 | The server parser's push against the same reference parse, in the server's dialect |
| SseServer.SseStreamParser.Finish | server/src/lib/sse-parser.ts:33-46 | The server parser's finish, including its check for bytes of an open frame |
| SseServer.FindLineEnd | server/src/lib/sse-parser.ts:82-92 | The first line end, treating a CR at the end of the buffer as a complete one |
| SseReference.ChunkIndependence | integrations/codex-bridge/bridge/responses-sse.js:27-119 | Every way of cutting a text into chunks gives the result of the one-pass parse: for the bridge unless a line fills the limit before a CR, for the server unless a chunk starts with LF behind a CR |
| SseReference.BridgeChunkIndependentIff | integrations/codex-bridge/bridge/responses-sse.js:67-73 | On texts the one-pass parse accepts, the bridge is chunk-independent for all cuts exactly if no CR-terminated line fills the line limit to the last byte |
| SseReference.FullLineRefused | integrations/codex-bridge/bridge/responses-sse.js:67-73 | For every line limit a stream of one full line that ends in CR is accepted in one pass and refused as a chunk of its own |
| SseReference.BridgeCutReads | integrations/codex-bridge/bridge/responses-sse.js:55-88 | However a text is cut, the bridge parser gives the result of the one-pass parse or refuses a line as too long; what one pass refuses no cut makes acceptable |
| SseReference.PushFailureIsFinal | integrations/codex-bridge/bridge/responses-sse.js:63-65 | A push that fails because of an unfinished long line fails no text that the one-pass parse would accept |
| SseReference.ServerCutCrlf | server/src/lib/sse-parser.ts:84-87 | A split CRLF can make the server parser accept, with a frame, a text that it refuses in one pass: a concrete stream; ServerReadingsIff says for every text when |
| SseServerCuts.ServerChunkIndependentIff | server/src/lib/sse-parser.ts:82-92 | On texts the one-pass parse accepts, the server parser is chunk-independent for all cuts exactly if no line that ends in CRLF stands between two data fields of one frame |
| SseServerCuts.BrokenReads | server/src/lib/sse-parser.ts:48-92 | On such texts lines broken at a CRLF give the same frames: the empty line that a cut inserts dispatches early at most |
| SseServerCuts.FrameCut | server/src/lib/sse-parser.ts:82-92 | A stream of one frame that is accepted in one pass and read differently when its CRLF is cut |
| SseServerCuts.ServerReadingsIff | server/src/lib/sse-parser.ts:82-92 | For every text, refused in one pass or not: some cut makes the server parser accept it with given frames exactly if breaking it at some of its CRLFs gives a text with these frames |
| SseServerCuts.BrokenByCut | server/src/lib/sse-parser.ts:82-92 | Every way of breaking lines at their CRLFs is that of some cut |
| SseStandard.ServerFollowsStandard | server/src/lib/sse-parser.ts:64-77 | Line by line the server parser keeps the data buffer of section 9.2.6 of the WHATWG HTML standard |
| SseStandard.BridgeFollowsStandard | integrations/codex-bridge/bridge/responses-sse.js:96-114 | So does the bridge parser on lines that are not exactly `data` |
| SseStandard.ServerDeliversStandard | server/src/lib/sse-parser.ts:48-80 | Where the server parser accepts a text, it delivers the payloads the standard dispatches |
| SseStandard.ParsersAgreeIff | integrations/codex-bridge/bridge/responses-sse.js:110-114 | Where both parsers accept a text, they deliver the same payloads exactly if no line of it is a bare `data` |
| SseStandard.BareDataDiffers | server/src/lib/sse-parser.ts:64-77 | A bare `data` line: one empty payload from the server parser, none from the bridge parser |
| Translator.CollectMessages | integrations/codex-bridge/bridge/request-translator.js:54-165 | After the item loop the calls are the input calls in order, tool messages the outputs in order, all text is there under its role in order, the state of the pairing rule is that of the items, and every message with calls has reasoning |
| Translator.AddCall | integrations/codex-bridge/bridge/request-translator.js:85-128 | A call joins the assistant message before it, or opens one with the pending, cached or fallback reasoning |
| Translator.MergeRuns | integrations/codex-bridge/bridge/request-translator.js:171-186 | No two neighbours can be merged any more; every character stays, in order and under its role, and so do calls and tool messages |
| Translator.MergeKeepsCalls | integrations/codex-bridge/bridge/request-translator.js:171-186 | Merging changes neither calls, nor tool messages, nor their order |
| Translator.ReorderMessages | integrations/codex-bridge/bridge/request-translator.js:195-224 | The reorder loop computes the recursive relocation of interleaved messages |
| Translator.ReorderPairsIff | integrations/codex-bridge/bridge/request-translator.js:187-224 | The reordered chat is well paired exactly if every batch of calls was answered, once per call, before the next call or assistant message |
| Translator.ReorderPermutes | integrations/codex-bridge/bridge/request-translator.js:195-224 | The reorder pass loses and invents no message |
| Translator.ReorderKeepsOrder | integrations/codex-bridge/bridge/request-translator.js:195-224 | System and user messages keep their order, and so do all the others |
| Translator.ReorderKeepsVoices | integrations/codex-bridge/bridge/request-translator.js:195-224 | What system and user say, and what all others say, is the same in the same order |
| Translator.ReorderKeepsPaired | integrations/codex-bridge/bridge/request-translator.js:195-224 | A well-paired chat is left alone, so on answered batches the pass is idempotent |
| Translator.TranslateRequest | integrations/codex-bridge/bridge/request-translator.js:29-275 | The chat is well paired exactly if the input's batches are answered; for every input its calls and tool messages are the input's, in order, each tool-call message has reasoning, and what system and user say, and what the others say, is the input's text under the same roles in order |
| Compaction.SelectRecent | integrations/codex-bridge/bridge/context-compaction.js:215-224 | The newest messages that fit the budget, at least one, and one more would not fit |
| Compaction.RepairBoundary | integrations/codex-bridge/bridge/context-compaction.js:226-234 | A tool message at the cut pulls its assistant message down; orphan tool messages go |
| Compaction.DropOldest | integrations/codex-bridge/bridge/context-compaction.js:250-264 | Drops oldest kept messages only while the result is too large, at most 200, never a message with calls and never the last |
| Compaction.IsDue | integrations/codex-bridge/bridge/context-compaction.js:175-195 | Compaction runs over the limit in force, as a safety net, or in an emergency |
| Compaction.CompactContext | integrations/codex-bridge/bridge/context-compaction.js:174-269 | A well-paired list stays well paired; the result is the leading system messages, an optional summary and a suffix of the old list; without a trigger nothing changes |
| Compaction.CompactsKeeps | integrations/codex-bridge/bridge/context-compaction.js:206-266 | One compaction keeps the leading system messages as the prefix and the rest as a suffix |
| Compaction.CompactionRunKeepsHead | integrations/codex-bridge/bridge/context-compaction.js:206-266 | Over any run of compactions the original head stays a prefix and pairing holds |
| WebLoop.AppendWebToolTurn | integrations/codex-bridge/bridge/web-tool-loop.js:47-61 | Appending an assistant message with its search results keeps the chat well paired |
| WebLoop.RecoverEmptyCompletion | integrations/codex-bridge/bridge/upstream-empty-recovery.js:27-76 | At most the configured number of well-paired requests; the first usable reply is taken, none only if all were unusable |
| WebLoop.SynthesizeAfterWebLimit | integrations/codex-bridge/bridge/web-tool-loop.js:104-139 | One last request; another web call is an error, otherwise its usage is added |
| WebLoop.ActOnReply | integrations/codex-bridge/bridge/web-tool-loop.js:201-241 | The branches of a round: answer, bounded mixed recovery, search, synthesis |
| WebLoop.RoundReply | integrations/codex-bridge/bridge/web-tool-loop.js:163-199 | A round, a request and its empty recovery, adds exactly the one reply it acts on |
| WebLoop.RunInternalWebToolLoop | integrations/codex-bridge/bridge/web-tool-loop.js:152-248 | At most rounds plus mixed retries requests of its own, every list sent is well paired, the replies acted on are those of its own requests in order (the recovered one where a reply was empty), usage is the sum over own and synthesis replies, an answer is the last of them or that of the synthesis; with at least one web round the incomplete error never comes |
| Reasoning.FallbackInvisible | integrations/codex-bridge/bridge/reasoning-cache.js:18-34 | However the synthetic text is spaced, nothing of it is visible |
| Forwarder.ReasoningForwarder.AddChunk | integrations/codex-bridge/bridge/responses-adapter.js:208-216 | Holds back what may still be the synthetic text, else emits; the item's events are exactly those of its deltas |
| Forwarder.ReasoningForwarder.FinishItem | integrations/codex-bridge/bridge/responses-adapter.js:217-249 | Emits the rest and closes the item once; the done text is the deltas joined by single spaces |
| Forwarder.ReasoningForwarder.Emit | integrations/codex-bridge/bridge/responses-adapter.js:171-205 | The first visible text opens the item and fixes its index; each visible text is one delta |
| Forwarder.FallbackIsSilent | integrations/codex-bridge/bridge/responses-adapter.js:207-249 | For every chunking and spacing of the synthetic text no event is emitted |
| Forwarder.ForwardAll | integrations/codex-bridge/bridge/responses-adapter.js:158-257 | For every other stream add precedes deltas precede done, with the done text as stated |
| Nudge.NudgeForToolCalls | integrations/codex-bridge/bridge/context-nudge.js:33-146 | At most the maximum number of calls; if no call overruns its timeout, the last one ends within the budget of the first reading of the clock; a result needs tool calls or a confirmation, and is one of the replies received |
| Nudge.AuditCompletion | integrations/codex-bridge/bridge/context-audit.js:61-117 | One call; confirmed only by the audit's own decision on a reply without tool calls |
| Nudge.AuditThenNudge | integrations/codex-bridge/bridge/context-nudge.js:151-179 | Audit and continuation share one budget, measured from the first reading, plus the one delay between computing what is left and starting the continuation; every ending that is neither tool calls nor confirmed maps to a failure, and only those |
| ToolCalls.FragmentTaken | integrations/codex-bridge/bridge/response-stream-chat-acumulador.js:96-115 | A fragment extends exactly the call it belongs to, by index or id, or opens a new one |
| Stream.Accumulator.AddFragment | integrations/codex-bridge/bridge/response-stream-chat-acumulador.js:96-115 | After each fragment every call holds the concatenation of its own fragments' arguments and their last name |
| Stream.Accumulator.HandleFrame | integrations/codex-bridge/bridge/response-stream-chat-acumulador.js:46-117 | Text, reasoning, calls and end marker after a frame are those of all frames so far; a second end marker or malformed JSON breaks the stream and changes nothing |
| Stream.Accumulator.FlushBufferedMessage | integrations/codex-bridge/bridge/response-stream-chat-acumulador.js:38-43 | The buffered text is written as one delta behind the item's opening event |
| Closing.RenderTools | integrations/codex-bridge/bridge/responses-adapter.js:103-111 | Tool items for all calls, or an error if any is an internal web call |
| Closing.RecoverEmpty | integrations/codex-bridge/bridge/response-stream-chat-cierre.js:17-40 | An empty answer takes text, visible reasoning and calls of the recovered reply |
| Closing.FinishAnswer | integrations/codex-bridge/bridge/response-stream-chat-cierre.js:89-199 | Nudged calls and reasoning, then reasoning item, message item, tools and terminal event |
| Closing.Close | integrations/codex-bridge/bridge/response-stream-chat-cierre.js:11-200 | Every event written by closing, for each outcome of recovery, audit and nudge |
| Closing.CloseAnswer | integrations/codex-bridge/bridge/response-stream-chat-cierre.js:42-200 | What is written of the answer as it stands behind the recovery |
| Closing.RunsShow | integrations/codex-bridge/bridge/response-stream-chat-cierre.js:142-199 | In every run events keep their order, message deltas add up to the text, and no output index is used twice |
| Closing.RunEvents | integrations/codex-bridge/bridge/response-stream-chat-cierre.js:142-199 | The last event and no other is terminal; any two events are in order; reasoning and message indices differ; the done text is the joined deltas |
| Closing.ConcludeWellFormed | integrations/codex-bridge/bridge/response-stream-chat-cierre.js:41-199 | However a run is closed, its tool part holds only tool items and it ends in a terminal event |
| Closing.CompletedIsGood | integrations/codex-bridge/bridge/response-stream-chat-cierre.js:41-88 | `response.completed` shows received text and calls as they came, recovered text and calls of an empty answer, and nudged tools only behind a plain text whose audit did not fail; never an empty answer or an unaudited text that needs the audit |
| LiveClosing.CloseLive | integrations/codex-bridge/bridge/response-stream-chat-cierre.js:11-200 | Closing together with the recovery and the audit it waits for: a run that completes shows a good ending, and what it shows beyond the received frames was given by one of the recovery's, audit's or nudge's own replies |
| StreamRun.ReframeIff | integrations/codex-bridge/bridge/response-stream-chat-acumulador.js:46-53 | A payload survives the second split into lines exactly if it has no line break |
| StreamRun.SecondLineLost | integrations/codex-bridge/bridge/response-stream-chat-acumulador.js:46-53 | Every frame of two data lines reaches the accumulator with its second line lost, unless that looks like a data field |
| StreamRun.HandleGood | integrations/codex-bridge/bridge/response-stream-chat.js:115-121 | Frames are taken in one by one up to the first bad one |
| StreamRun.ReadStream | integrations/codex-bridge/bridge/response-stream-chat.js:111-125 | Reading succeeds exactly if the parser accepts the stream, no frame is bad, the end marker came once and the connection held; otherwise the state is that of the frames before the failure |
| StreamRun.StreamChatToResponses | integrations/codex-bridge/bridge/response-stream-chat.js:15-157 | All events of a request, for every upstream behaviour: failures before the stream, within it, and at closing |
| StreamRun.EndsWellFormed | integrations/codex-bridge/bridge/response-stream-chat.js:31-156 | Every run of a connected client is an ordered run with one terminal event |
| StreamRun.CompletedRun | integrations/codex-bridge/bridge/response-stream-chat.js:111-156 | A completed run read a stream the parser accepts, unbroken, with one end marker, and shows what was received or a confirmed replacement |
| StreamRun.ChunksDoNotMatter | integrations/codex-bridge/bridge/response-stream-chat.js:115-125 | How the upstream cuts its stream into chunks does not change what is read |
| OrderedMap.Map.Set | integrations/codex-bridge/bridge/vision.js:26-27 | A new key goes to the end, a present key keeps its place (section 24.1 of ECMA-262) |
| OrderedMap.Map.Delete | integrations/codex-bridge/bridge/vision.js:33 | Takes out one key and moves no other |
| OrderedMap.RecordChanged | integrations/codex-bridge/bridge/vision.js:9 | Emptying or rewriting one record of the list behind a Map changes just that entry of its live order |
| VisionCache.Cache.SetCached | integrations/codex-bridge/bridge/vision.js:18-36 | Refines the recency list: the value goes last, then the oldest go until both limits hold; too large a value is not stored; the byte counter is the sum of entry sizes |
| VisionCache.Cache.GetCached | integrations/codex-bridge/bridge/vision.js:38-50 | A hit becomes the newest entry; an expired entry is dropped and never returned |
| VisionCache.TrimKeepsNewest | integrations/codex-bridge/bridge/vision.js:29-35 | Eviction keeps the longest run of newest entries that fits both limits |
| VisionCache.ReplayKeeps | integrations/codex-bridge/bridge/vision.js:18-50 | Over every run keys stay distinct and both limits hold after each operation |
| VisionCache.StoredSurvivesIff | integrations/codex-bridge/bridge/vision.js:22-35 | A new entry survives its own insertion exactly if one entry may be kept and its size fits |
| VisionCache.LruOrder | integrations/codex-bridge/bridge/vision.js:46-49 | After any run the entries stand in the order of last use, each with the value last stored |
| VisionCache.Adapter.Describe | integrations/codex-bridge/bridge/vision.js:217-230 | A request is answered from the cache, joins the description under way for its key, or starts the only one |
| VisionCache.Adapter.Settle | integrations/codex-bridge/bridge/vision.js:225-229 | A description that ends is no longer pending; only a success is stored |
| ReasoningCache.Cache.Remember | integrations/codex-bridge/bridge/reasoning-cache.js:69-78 | Stores visible text under an id, keeps a known key's place, and drops the oldest entries over the limits |
| ReasoningCache.Cache.Get | integrations/codex-bridge/bridge/reasoning-cache.js:80-91 | An expired entry is dropped; otherwise the stored text is cleaned once more |
| ReasoningCache.ShrunkIs | integrations/codex-bridge/bridge/reasoning-cache.js:74-76 | Shrinking drops the fewest oldest entries and never the last |
| ReasoningCache.RememberedSurvivesIff | integrations/codex-bridge/bridge/reasoning-cache.js:72-76 | An entry just stored survives exactly if it is not the oldest of more entries than allowed, and is the newest or fits together with all newer ones; a loaded cache may hold too many |
| ReasoningCache.WithinLimitSurvivesIff | integrations/codex-bridge/bridge/reasoning-cache.js:72-76 | As long as no more entries are held than allowed, the number costs a stored entry its place only if none may be kept |
| ReasoningCache.RememberedAndLost | integrations/codex-bridge/bridge/reasoning-cache.js:72-76 | Remembering the oldest call again can throw that very entry out |
| Idempotency.Table.ClaimIdempotency | server/src/services/configuration-v2-idempotency.ts:14-37 | Claims a free or stale key, replays a stored result, refuses another payload or a claim in progress; the time of a claim is kept in whole seconds; other keys are untouched |
| Idempotency.Table.CompleteIdempotency | server/src/services/configuration-v2-idempotency.ts:39-43 | Stores the result in the key's row, if it still exists |
| Idempotency.Table.AbandonIdempotency | server/src/services/configuration-v2-idempotency.ts:45-47 | Removes the row unless it has a result |
| Idempotency.CommitsBounded | server/src/services/configuration-v2-models.ts:45-84 | As long as no request meets an unfinished claim of its own payload whose stored second is more than ten minutes old, at most one of any number of interleaved clients commits, and none if the claimant crashed |
| Idempotency.TakeoversIff | server/src/services/configuration-v2-idempotency.ts:26-28 | A run takes no claim over exactly if no request meets an unfinished claim of its own payload whose stored second is more than ten minutes old |
| Idempotency.CommitsBalance | server/src/services/configuration-v2-models.ts:45-84 | Under any interleaving of any number of clients: commits plus crashed claimants never exceed one plus the claims taken over |
| Idempotency.CloseRequests | server/src/services/configuration-v2-idempotency.ts:26-28 | Requests take nothing over if none comes more than ten minutes after the whole second of another |
| Idempotency.WithinWindowRefused | server/src/services/configuration-v2-idempotency.ts:26-30 | The second of two clients is refused exactly if it comes no more than ten minutes after the whole second in which the first claimed |
| Idempotency.SafeDistanceIff | server/src/services/configuration-v2-idempotency.ts:26-27 | Requests at most a given time apart never take a claim over, in any schedule, exactly if that time is at most ten minutes less 999 milliseconds |
| Idempotency.EarlyTakeover | server/src/services/configuration-v2-idempotency.ts:26-30 | Two clients that claim less than ten minutes apart and both commit: the schedule |
| Idempotency.RunOwned | server/src/services/configuration-v2-idempotency.ts:20-29 | In such a run the row is the claim of the one client under way: no refused caller removes it |
| Idempotency.ResultStays | server/src/services/configuration-v2-idempotency.ts:22-25 | In such a run a stored result stays, and every repeat is answered with it |
| Idempotency.TakeoverCommitsTwice | server/src/services/configuration-v2-idempotency.ts:26-30 | Whenever the second request comes too late for the claim of the first, two clients can both commit: the schedule |
| IdempotentWrites.PlayIsRun | server/src/services/configuration-v2-models.ts:45-84 | With the tables that its requests write, a key behaves as one of its schedules, in which a change that the tables refuse is undone |
| IdempotentWrites.InTimeCommitsOnce | server/src/services/configuration-v2-models.ts:45-84 | In a run without a takeover a key commits once, whatever its requests are and whatever is written elsewhere |
| IdempotentWrites.OnceCommitsOnce | server/src/services/configuration-v2-models.ts:51-52 | A request that names the revision it expects, or creates models, commits at most once, whatever is taken over, whoever crashes and whatever is written elsewhere |
| IdempotentWrites.TakeoverRepeats | server/src/services/configuration-v2-idempotency.ts:26-30 | Any other request that the tables accept is committed twice by a client and the one that takes its claim over |
| IdempotentWrites.CommitsTwiceIff | server/src/services/configuration-v2-models.ts:45-84 | A request that the tables accept can be committed twice under one key exactly if it neither names the revision it expects nor creates models |
| Repetition.RepeatsIff | server/src/services/configuration-v2-models.ts:51-52 | Directly after its commit an operation can be committed again exactly if it neither names the revision it expects nor creates models |
| Repetition.CommitMarks | server/src/services/configuration-v2-models.ts:217 | The commit of such an operation leaves a mark, a later revision or the models created, under which the operation is refused |
| Repetition.MarkStays | server/src/services/configuration-v2-storage.ts:50-64 | No operation removes that mark |
| Repetition.ModelRepeats | server/src/services/configuration-v2-models.ts:121-175 | A second update of a model finds its entries, picker id and visibility as it would leave them |
| Members.NumberedIff | server/src/services/configuration-v2-models.ts:43-44 | The sorted check accepts exactly the lists whose rows have priorities 1..n |
| Members.MaxPriority | server/src/services/configuration-v2-models.ts:260 | The highest priority, 0 without rows |
| Configuration.RouteUpdateKeeps | server/src/services/configuration-v2-models.ts:53-75 | A route update keeps the fallback table equal to Auto, numbers the written route 1..n, leaves other routes, and adds one to the revision, whether or not Auto is numbered 1..n before |
| Configuration.ModelUpdateKeeps | server/src/services/configuration-v2-models.ts:121-175 | A model update keeps the mirror, all priorities and unique picker ids, and adds one to the revision, from any numbering of Auto |
| Configuration.ModelCreateKeeps | server/src/services/configuration-v2-models.ts:217-264 | A created model keeps the mirror, comes behind the highest priority of Auto, gets a picker id no one has, and changes only its pinned route besides, from any numbering of Auto |
| Configuration.PinnedIff | server/src/services/configuration-v2-models.ts:238-240 | The pinned route of a new model is numbered 1..n exactly if it had no rows |
| Configuration.PinnedRowsReached | server/src/services/configuration-v2-models.ts:238-240 | From every configuration with a model, an applied document and a creation that both commit leave the new model's pinned route not numbered 1..n |
| Configuration.AddedAllKeeps | server/src/services/configuration-v2-models.ts:319-347 | Materialising any list of models keeps the mirror and unique picker ids |
| Configuration.ApplicationKeeps | server/src/services/configuration-v2-document.ts:104-192 | An applied document numbers every route 1..n, rebuilds the mirror, keeps picker ids unique and adds one to the revision |
| Configuration.RunKeeps | server/src/services/configuration-v2-models.ts:49-81 | Over any sequence of operations the tables stay linked: mirror, unique picker ids, members that refer to existing routes and models; Auto stays numbered 1..n if it was |
| Configuration.MirrorKept | server/src/services/configuration-v2-models.ts:66-72 | From any tables every operation keeps the mirror, and an Auto update or an applied document establishes it |
| Configuration.RunMirrors | server/src/services/configuration-v2-models.ts:66-72 | From any tables Auto is mirrored at the end of a run if it was at its start, or if one of its commits rebuilt it |
| Configuration.RevisionCounts | server/src/services/configuration-v2-storage.ts:50-64 | The revision counts the commits, from any tables |
| Configuration.OneWriterCommits | server/src/services/configuration-v2-models.ts:51-52 | Of several writers that expect the same revision at most one commits |
| ConfigurationStore.Store.UpdateConfigurationRoute | server/src/services/configuration-v2-models.ts:24-85 | Each check in order with its error; commits the whole change or leaves every table as it was |
| ConfigurationStore.Store.UpdateConfigurationModel | server/src/services/configuration-v2-models.ts:87-185 | The same for a model, with picker id, catalog entry, fallback row and Auto row |
| ConfigurationStore.Store.CreateConfigurationModel | server/src/services/configuration-v2-models.ts:187-274 | The same for a new model with its pinned route, catalog entry and optional Auto row |
| ConfigurationStore.Store.MaterializeConfigurationModels | server/src/services/configuration-v2-models.ts:300-360 | The same for the missing models of a provider |
| ConfigurationStore.Store.ApplyConfigurationDocument | server/src/services/configuration-v2-document.ts:93-202 | The same for a whole document, whose routes, members, catalog and fallback rows replace the old ones |
| ConfigurationStore.Store.InsertFallback | server/src/services/configuration-v2-schema.ts:114-120 | A fallback row and the trigger that copies it to Auto |
| Picker.AllocatePickerId | server/src/services/configuration-v2-picker.ts:33-44 | The search loop returns the first free candidate |
| Picker.FirstFree | server/src/services/configuration-v2-picker.ts:36-42 | Among base, base-2, ... base-999 the first one that is short enough and unused |
| Picker.AllocatedIsFree | server/src/services/configuration-v2-picker.ts:33-44 | An allocated id is valid and no other row uses it |
| Picker.SetKeepsUniqueIff | server/src/services/configuration-v2-models.ts:145-170 | An id that passes the check of an update meets the unique index exactly if the model has one entry and no entry without a model has the id |
| Picker.SetAllocatedUnique | server/src/services/configuration-v2-picker.ts:68-70 | An allocated id never breaks the index for a model with one entry |
| Picker.ReconcileBridgePickerIds | server/src/services/configuration-v2-picker.ts:57-73 | The repair of all visible entries without a valid id, one after the other, or failure at the index |
| PickerRepair.RepairIff | server/src/services/configuration-v2-picker.ts:53-73 | The repair goes through exactly if for no model with a second entry an id is free in its turn; then each row to do holds what was allocated in its turn |
| PickerRepair.RepairForGoodIff | server/src/services/configuration-v2-picker.ts:53-73 | The repair goes through, keeps every valid id, and a second repair changes nothing, exactly if besides no model with a row to repair has a valid id on another entry |
| PickerRepair.SmallTableRepairIff | server/src/services/configuration-v2-picker.ts:53-73 | With fewer than 999 rows and slugs of at most 124 characters: the repair goes through exactly if no model to repair that has two entries has a usable slug |
| PickerRepair.SingleEntriesRepaired | server/src/services/configuration-v2-picker.ts:53-73 | If each model to repair has one entry the repair is for good, and each row gets the id allocated in its turn |
| PickerRepair.FreeIdFits | server/src/services/configuration-v2-picker.ts:67-70 | A free id meets the unique index exactly if its model has one entry |
| PickerRepair.SecondRepairChanges | server/src/services/configuration-v2-picker.ts:53-73 | A table whose repair erases a valid id, and whose second repair gives that id to another model |
| Fallback.Table.Append | server/src/db/migrations-v29-v35.ts:42-49 | Old rows stay; each new model gets the place of its first mention behind the highest priority; priorities stay distinct and positive |
| Fallback.Table.PlaceBefore | server/src/db/migrations-v22-v23.ts:75-92 | A row that stands behind its predecessor comes directly before it and the others keep their order; priorities stay distinct and positive; in any other case nothing changes |
| Fallback.Table.First | server/src/db/migrations-v29-v35.ts:127-136 | The model has priority 1, all others stand behind it in their old order, priorities stay distinct and positive; a model with a row that is not to move changes nothing |
| Fallback.EditsSound | server/src/db/migrations-v29-v35.ts:104-151 | From distinct positive priorities, any sequence of edits keeps them distinct and positive |
| Fallback.PlacedKeepsOrder | server/src/db/migrations-v22-v23.ts:88-91 | A moved row comes directly before its predecessor, all others keep their order, rows outside the range their priority |
| Fallback.PlacedKeepsSetIff | server/src/db/migrations-v22-v23.ts:88-91 | The move keeps the set of priorities exactly if there is no gap between the two places |
| Fallback.GapCloses | server/src/db/migrations-v22-v23.ts:88-91 | With a gap the set changes: priorities 1 and 3 become 2 and 1 |
| Fallback.FirstKeepsOrder | server/src/db/migrations-v29-v35.ts:104-136 | Putting a model first keeps the order of all others behind it |
| Ranking.BuildLatestRankingSnapshot | server/src/db/ranking-snapshot.ts:92-117 | The loops compute the ranking of groups, then of all other enabled models |
| Ranking.Builder.ApplyRankGroups | server/src/db/ranking-snapshot.ts:65-90 | Each group shares one rank; a group with nothing to rank uses none up |
| Ranking.SnapshotIsDense | server/src/db/ranking-snapshot.ts:92-117 | Ranks are dense, no key is ranked twice, all enabled models' keys are ranked, and only keys of catalog models |
| Ranking.DenseCovers | server/src/db/ranking-snapshot.ts:72-87 | Ranks never fall and take every value from 1 to the last |
| Ranking.RankedOnce | server/src/db/ranking-snapshot.ts:79 | No two updates share a key |
| Ranking.KeyRankedOnce | server/src/db/ranking-snapshot.ts:79 | In every catalog and with all groups the key of an enabled model is ranked exactly once |
| Ranking.LeftOverInOrder | server/src/db/ranking-snapshot.ts:107-114 | Models outside the groups get consecutive ranks in sort order |
| Ranking.SortSorted | server/src/db/ranking-snapshot.ts:93-97 | The sort by a total order yields a sorted list |
| Ranking.KeysTellApart | server/src/db/ranking-snapshot.ts:78 | Keys tell two models apart if no platform with a colon behind it begins another platform |
| Ranking.KeysTellApartIff | server/src/db/ranking-snapshot.ts:78 | Keys tell all models of a set of platforms apart exactly if none of them with a colon behind it begins another |
| Ranking.PlatformsDistinguished | server/src/services/configuration-v2-models.ts:207 | The platform names that the configuration admits meet this condition |
| Ranking.EnabledRankedOnce | server/src/db/ranking-snapshot.ts:92-117 | Then every enabled model is ranked exactly once, whatever the model ids are |
| Ranking.SharedKeyUnranked | server/src/db/ranking-snapshot.ts:107-114 | In every catalog and with all groups: of two enabled models that share a key and differ in name one at least is not ranked |
| Ranking.AllRankedIff | server/src/db/ranking-snapshot.ts:92-117 | Every enabled model is ranked exactly if no two of different names share a key, if the groups name models of the catalog by their keys |
| Proxy.ChatCompletions | server/src/routes/proxy-chat.ts:103-334 | For every router, provider and clock: at most the maximum of attempts, the router asked each time before the deadline and with exactly the models rejected and the keys given up and not purged, every attempt closed, the trace finished once and one answer sent, with the status the attempts add up to |
| Proxy.Handler.NoRoute | server/src/routes/proxy-chat.ts:107-163 | Without a route: purge what has cooled, wait for a short cooldown before the deadline, else answer 503, 502 or 429 |
| Proxy.Handler.Attempt | server/src/routes/proxy-chat.ts:178-311 | One provider call: success, an error that is final, or another try |
| Proxy.Handler.Retry | server/src/routes/proxy-chat.ts:251-303 | A cold start is waited for at most once per key; otherwise the key is skipped and the error noted |
| Proxy.Handler.Purge | server/src/routes/proxy-chat.ts:117-125 | Exactly the keys still cooling stay skipped |
| Proxy.NothingTwice | server/src/routes/proxy-chat.ts:263-269 | No key is warmed twice, no attempt is opened twice, the trace ends and the answer is sent no more than once |
| Proxy.AskedBeforeDeadline | server/src/routes/proxy-chat.ts:102-106 | The router is never asked behind a reading of the clock at or past the deadline |
| Proxy.RejectedExcluded | server/src/routes/proxy-chat.ts:106-175 | A model rejected for its capabilities is excluded from every later question to the router |
| Proxy.OpenedThenClosed | server/src/routes/proxy-chat.ts:179-241 | Each opened attempt is closed, before any other is opened |

## Left out

- UTF-8 decoding and JSON: parsers work on decoded characters with a byte-length function, payloads and replies are already decoded, and errors of the decoder do not occur.
- LiveClosing.CloseLive: the recovery and the audit run against their own worlds of replies and clocks, because neither reads what the other received.
- Stream.Accumulator.HandleFrame: `usage` of a frame is not modelled, because it reaches only `response.completed` and the calibration.
- Translator.TranslateRequest: message parts, reminders, cached reasoning and bounded system text are parameters, because image description and truncation do not touch the pairing rule.
- Translator.MergeRuns: image parts of merged messages are lost in the source too; the contract speaks of text only.
- Translator: the flattening of tool definitions, model selection and reasoning effort.
- Compaction.CompactContext: the summary is an arbitrary string; the summariser, its transcript and `calibrate` are not part of this model, and the calibration ratio is a parameter.
- Compaction: numbers are exact; `Math.round` is taken on reals without floating-point rounding.
- WebLoop.RunInternalWebToolLoop: a request with its own timeout recovery counts as one request, and the prompt size kept for calibration is not modelled.
- WebLoop: the streaming variant that forwards the loop's result, and the search itself, whose results are arbitrary texts.
- StreamRun.StreamChatToResponses: whether the client is still connected is asked when the stream fails; a client that leaves while the run is being closed, keep-alive comments and the `[DONE]` line behind the events are not modelled.
- Closing.Close: the arguments of custom and search tools are shown as received; namespaces and the tool map are a parameter that only tells web tools from others.
- Closing.Close: remembering reasoning per call and the request log have no effect on events.
- Reasoning.FallbackInvisible: letter-case folding is a parameter that must not mix white space with other characters.
- Nudge: the messages and directives of its requests, since replies are arbitrary, and which texts count as confirmation or decision are parameters.
- Nudge: time passes at readings of the clock and in provider calls; what passes between a reading and the start of its call, and the clock that the audit reads to report how long it took, are not modelled.
- VisionCache: writing the cache file, validation of images, and the routes and retries of one description, whose outcome is arbitrary.
- Idempotency: key format, hashing (a hash stands for the request) and requests without a key, which take no claim.
- Idempotency.Table.ClaimIdempotency: a request reads one clock; in the source the age is taken by one reading and the new claim stored by a second one of the database, a moment later.
- IdempotentWrites: requests that create or update providers, which take claims too, because providers are not modelled.
- ReasoningCache: reading and writing the cache file; results hold for any cache it may have loaded.
- Configuration: names, context windows, capabilities, providers and audit rows; a failed check on them is the `refused` flag of an operation, tried after the modelled ones.
- Configuration.ApplicationKeeps: primary and foreign keys of catalog entries other than route, model and picker id; catalog entries are given in sort order.
- Configuration: exporting a document and rolling back to a snapshot, which apply a stored document.
- Picker: allocation for entries of other integrations, which have an index of their own.
- Fallback: the catalog rows a migration adds or removes, and which models it names; model ids are arguments.
- Ranking: the curated lists and the collation of names; both are arguments.
- Proxy.ChatCompletions: bookkeeping calls do not throw, the skip id is a triple instead of a string that is split at colons, cooldown durations and penalties are not modelled, and the streaming path is not part of this model.
