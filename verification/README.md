# Verification of the compatibility proxy and its companions

A Dafny model of four connected parts of the repository, with proofs of what they are for. Check it
with `dafny verify dfyconfig.toml`.

**Tool-exchange repair** (`transform.ts`). A chat history is a list of messages; assistant messages call
tools and user messages carry the results. The repair pairs results with calls in several passes, then
makes call ids unique. `Repair.dfy` says what it produces without any pass: the r-th call of an id in an
assistant message owns the r-th result for that id among the messages up to the next assistant message
that calls the same id. `RepairPool`, `PairingPass`, `RelayPass` and `RepairPasses` are the passes, proved
to compute exactly that; the guarantees are proved about the specification. Some guarantees are false as
they stand: if a user message whose content is neither text nor an array follows calls, the inserted results
have nowhere to go (`Loses` names such an exchange, `LosesInserts` a history that has one). Well-formedness
and idempotence hold if and only if no exchange loses its insertion; an exchange is answered if and only if
it does not lose its own; and calls keep their results through the renaming if and only if no id that lost an
insertion is given a result later (`Misdelivers`). Concrete histories show a destroyed result and a result
that the renaming hands to another call. What is delivered, and that everything else is kept, is proved for
every history; `RepairOutline` says of each message whether it disappears and what becomes of it.
`CompactionRun` is the removal of old images from a request that is too large.

**Streaming translator** (`translate-sse.ts`, `anthropic-message-collector.ts`, `translate-request.ts`).
`Translator.dfy` is the transition function from upstream events to downstream events, with one open
block and a queue of deferred events; `SseTranslator.dfy` is the object whose methods do that. Proved over
every sequence of calls: the output follows a grammar, nothing is stranded in the queue, each item keeps
the order of its events, text is conserved, and reasoning and tool items contribute what they would
contribute alone. `StopReasons` says from the emitted events alone which reason ends a run. The collector and
the translation back complete the round trip.

**Id rewriting and WebSocket upgrades** (`tool-use-id-stream-rewrite.ts`, `server.ts`). Rewriters of
concurrent streams share a bounded cache per thread, as values and, in `RewriterPool`, as objects; the byte
transform does not depend on chunks. The upgrade handler is a state machine over callbacks of any number of
connections; `UpgradeProxy` is the proxy with connection objects, each of whose callbacks is proved to be a
step of that machine. A connection may be accepted locally on the strength of an earlier real handshake
(section 4.2.2 of RFC 6455); `UpgradeEffects` says what each callback leaves of such a proof, what the client
is told, and that a refused thread is not accepted locally again before its next real upgrade.

**Byte-level codecs** (`attachmentOssRef.ts`, `socks5.ts`). Base64 and its URL-safe form (sections 4 and 5
of RFC 4648), percent escapes, attachment references; the SOCKS5 handshake (sections 3 to 6 of RFC 1928,
section 2 of RFC 1929).

Where documentation and code differ, the model follows the code: `addThreadMintedId` is described as
approximately least-recently-used, but a thread that is used again keeps its place, so that threads are
evicted in the order in which they were first seen (`ThreadIds.AddIdKeepsBounds`).

JSON parsing and printing are parameters, and so are the clock, the network and the choice of events.
The order in which callbacks run is arbitrary.

## Model

| member | source | states |
|---|---|---|
| RepairPool.FindLastConversationIndex | packages/anthropic-compat-proxy/src/transform.ts:780-788 | Finds the last message that is not an array of pure results, or -1. |
| RepairPool.LeadingToolResultCount | packages/anthropic-compat-proxy/src/transform.ts:795-799 | Counts the results an array starts with. |
| RepairPool.CollectResults | packages/anthropic-compat-proxy/src/transform.ts:802-827 | The pools hold exactly the results whose id is called somewhere, in order; the first drops are exactly the other results. |
| PairingPass.PairByPosition | packages/anthropic-compat-proxy/src/transform.ts:835-880 | After position matching, every call handled so far owns, in the sense of the pass-free ownership relation, what it consumed; the rest are listed as missing. |
| RelayPass.RelayWithinReach | packages/anthropic-compat-proxy/src/transform.ts:904-948 | After relaying, every call has consumed the result it owns, or has a synthetic answer planned exactly if it owns none. |
| RepairPasses.DropLeftovers | packages/anthropic-compat-proxy/src/transform.ts:949-957 | Adds exactly the unconsumed pooled results to the drops. |
| RepairPasses.OrderPlans | packages/anthropic-compat-proxy/src/transform.ts:958-966 | The insertions after each message are the owed answers in call order. |
| RepairPasses.Reassemble | packages/anthropic-compat-proxy/src/transform.ts:970-1012 | Assembles the specified history from drops and insertions. |
| RepairPasses.RepairToolExchangeAdjacency | packages/anthropic-compat-proxy/src/transform.ts:801-1013 | The passes compute the specified repair: the rebuilt history, or nothing if there is nothing to do. |
| RepairGuarantees.RepairedWellFormed | packages/anthropic-compat-proxy/src/transform.ts:747-774 | For every history, no array up to the last conversation point of the output holds other results than those of the calls before it; the output is well formed (every exchange before that point complete and adjacent, the trailing results matching calls one to one) if and only if no insertion is lost. |
| RepairTheorems.NoRepairIffWellFormed | packages/anthropic-compat-proxy/src/transform.ts:968 | Repair reports no change exactly on well-formed histories. |
| RepairGuarantees.RepairIdempotent | packages/anthropic-compat-proxy/src/transform.ts:968-1013 | Repairing the output reports no change, if and only if no insertion was lost. |
| RepairGuarantees.RepairDelivers | packages/anthropic-compat-proxy/src/transform.ts:829-957 | For every history and id, the results in the output are, in order, exactly the answers of the exchanges whose insertion is not lost and the matching trailing results: no real result is altered or delivered twice. |
| RepairGuarantees.EachExchangeAnswered | packages/anthropic-compat-proxy/src/transform.ts:985-1011 | For every history, a message with calls before the last conversation point is followed at once by a user message whose leading results are its answers and which holds no other results, if and only if its own insertion is not lost. |
| RepairGuarantees.OwnershipOfPayload | packages/anthropic-compat-proxy/src/transform.ts:882-933 | A real result goes only to a call before it, with no message calling the same id between them, and to the call of the same rank. |
| RepairGuarantees.RepairKeepsTheRest | packages/anthropic-compat-proxy/src/transform.ts:985-1001 | Everything but results, emptied user messages and blank string contents is kept in order, for every history. |
| RepairOutline.RepairOutlined | packages/anthropic-compat-proxy/src/transform.ts:970-1012 | For every history, exactly which messages the output has and what each comes from: a message disappears exactly if it is a nonempty array of results none of which any call owns in place, and no answer is due there; one of nothing but results is added exactly behind calls that no user message follows; strings become arrays exactly where answers are due, without a blank text. |
| RepairOutline.NothingIsEmptied | packages/anthropic-compat-proxy/src/transform.ts:989-993 | No user message of the output has an empty array unless it is one of the input. |
| Ownership.OneOwner | packages/anthropic-compat-proxy/src/transform.ts:832-834 | A result has at most one owner, so that an earlier gap cannot take the result of a later call. |
| Ownership.StaysIffOwned | packages/anthropic-compat-proxy/src/transform.ts:868-876 | A result stays where it is exactly if its owner is at the last conversation point or has it in position. |
| FreshIds.FindFresh | packages/anthropic-compat-proxy/src/transform.ts:660-665 | The search for a free suffix ends, at the first free one. |
| Dedupe.NamesDiffer | packages/anthropic-compat-proxy/src/transform.ts:649-669 | Different occurrences of calls get different names. |
| Dedupe.NamesAreNumbered | packages/anthropic-compat-proxy/src/transform.ts:655-670 | The first call of an id keeps it; the n-th gets the id, an underscore and a number that is at least n. |
| DedupeLemmas.NoDuplicateIffUnique | packages/anthropic-compat-proxy/src/transform.ts:640-647 | There is nothing to rename exactly if all call ids are distinct. |
| DedupeLemmas.DedupedUnique | packages/anthropic-compat-proxy/src/transform.ts:629-700 | Afterwards no two calls share an id, for every history. |
| DedupeTheorems.OwnsIffSameNumber | packages/anthropic-compat-proxy/src/transform.ts:618-620 | If no result comes after an unanswered call of its id, a call owns a result exactly if they have the same number among those of their id. |
| DedupeTheorems.DedupedWellFormed | packages/anthropic-compat-proxy/src/transform.ts:671-699 | Renaming keeps a history in which arrays hold the results of their calls and no others well formed if it was, and not well formed if it was not. |
| DedupeTheorems.DedupedKeepsOwners | packages/anthropic-compat-proxy/src/transform.ts:671-699 | In such a history, renaming keeps which call owns which result, if and only if no result comes after an unanswered call of its id. |
| DedupeTheorems.DedupedKeepsPayloads | packages/anthropic-compat-proxy/src/transform.ts:671-699 | Inputs and outputs stay where they are, for every history. |
| StructureRepair.DedupeToolUseIds | packages/anthropic-compat-proxy/src/transform.ts:629-700 | The passes compute the specified renaming. |
| StructureRepair.RepairToolExchangeStructure | packages/anthropic-compat-proxy/src/transform.ts:1066-1072 | Repair and then renaming, or nothing if neither changed anything. |
| StructureRepair.StructuredWellFormed | packages/anthropic-compat-proxy/src/transform.ts:1052-1065 | Afterwards ids are unique, and the history is well formed if and only if no insertion was lost. |
| StructureRepair.StructureIdempotent | packages/anthropic-compat-proxy/src/transform.ts:1066-1072 | Applied to its own output the composition changes nothing, if and only if no insertion was lost. |
| StructureRepair.NoStructureRepairIff | packages/anthropic-compat-proxy/src/transform.ts:1066-1072 | The composition reports no change exactly on well-formed histories with unique ids. |
| StructureRepair.StructureKeepsAnswers | packages/anthropic-compat-proxy/src/transform.ts:1055-1060 | Every call keeps the very result that repair gave it, if and only if no id called in an exchange that loses its insertion is given a result later (by a later exchange that loses nothing, or by a result after the last conversation point for a call there). |
| StructureRepair.StructureKeepsPayloads | packages/anthropic-compat-proxy/src/transform.ts:1066-1072 | Inputs and outputs stay where repair put them, for every history. |
| RepairOrder.WrongOrderMisdelivers | packages/anthropic-compat-proxy/src/transform.ts:1055-1059 | A history for which the opposite order gives the first call the result of the second. |
| RepairOrder.UnrepairableHistory | packages/anthropic-compat-proxy/src/transform.ts:985-1010 | A history whose repair is not well formed because the insertion is lost. |
| RepairOrder.LostInsertionDestroys | packages/anthropic-compat-proxy/src/transform.ts:985-1010 | A history in which the real result of a call is taken away and put nowhere. |
| RepairOrder.LostInsertionMisdelivers | packages/anthropic-compat-proxy/src/transform.ts:629-700 | A history in which, after a lost insertion, renaming gives a call the result of a later call of its id. |
| CompactionRun.CompactOversizedImageHistory | packages/anthropic-compat-proxy/src/transform.ts:1341-1379 | Nothing happens exactly if the target is not positive, there is no candidate, or the body fits; otherwise a nonempty prefix of the sorted candidates is replaced, no longer than needed, and the result fits or every candidate is replaced. |
| CompactionRun.ReplaceUntilSmall | packages/anthropic-compat-proxy/src/transform.ts:1367-1376 | The loop, whose running estimate equals the size of the body after every replacement. |
| CompactionTheorems.ReplaceSize | packages/anthropic-compat-proxy/src/transform.ts:1370-1373 | Replacing a block anywhere in the tree changes the serialized size by the difference of the two sizes. |
| Compaction.ArraySizeIsWritten | packages/anthropic-compat-proxy/src/transform.ts:1191-1193 | The size of an array is the length of its JSON text, with brackets and commas. |
| CompactionTheorems.CandidatesDistinct | packages/anthropic-compat-proxy/src/transform.ts:1347-1354 | No image is a candidate twice, although two collectors scan the same messages. |
| CompactionTheorems.CandidatesAreReplaceable | packages/anthropic-compat-proxy/src/transform.ts:1195-1339 | The candidates are exactly the Anthropic images outside the newest prompt message, at any depth, and the chat and Responses images outside the newest user message. |
| CompactionRun.OldestFirst | packages/anthropic-compat-proxy/src/transform.ts:1367 | Candidates go by rank, stated on the body (images of tool results, then the other images, then the newest image of a tool result), and within a rank by the item they are in. |
| CompactionOrder.ExactOrder | packages/anthropic-compat-proxy/src/transform.ts:1346-1367 | The order of the candidates is fixed: by rank, then by item, then Anthropic images before others, then as they are written. |
| CompactionRun.AllReplaced | packages/anthropic-compat-proxy/src/transform.ts:1366-1376 | If all candidates are replaced, a notice stands in the place of every image outside the newest prompt or user message. |
| CompactionRun.NewestPromptIsKept | packages/anthropic-compat-proxy/src/transform.ts:1200-1216 | No image of the newest prompt message is replaced, nested ones included. |
| CompactionRun.NewestUserIsKept | packages/anthropic-compat-proxy/src/transform.ts:1273-1339 | Nor is a chat or Responses image of the newest user message, where Responses has its own notion of user messages. |
| CompactionRun.NewestToolImageGoesLast | packages/anthropic-compat-proxy/src/transform.ts:1260-1266 | If a tool result outside the newest prompt message holds an image, the last candidate is the last such image in wire order, so that it is replaced only if all others are. |
| CompactionRun.OnlyImagesGo | packages/anthropic-compat-proxy/src/transform.ts:1218-1253 | Whatever is not an image stays as it is. |
| SseTranslator.SseTranslator.Push | packages/anthropic-responses-bridge/src/translate-sse.ts:127-141 | The object's new state and output are those of the transition function. |
| SseTranslator.SseTranslator.DrainDeferred | packages/anthropic-responses-bridge/src/translate-sse.ts:151-174 | The loop over the queue, forced or not, equals the recursive drain, and ends. |
| SseTranslator.SseTranslator.Handle | packages/anthropic-responses-bridge/src/translate-sse.ts:176-227 | Dispatch to the handlers, with the queue untouched by content events. |
| SseTranslator.SseTranslator.CloseAllOpenBlocks | packages/anthropic-responses-bridge/src/translate-sse.ts:635-643 | Closes what is open, in insertion order. |
| SseTranslator.SseTranslator.Fail | packages/anthropic-responses-bridge/src/translate-sse.ts:235-240 | Reports a failure once. |
| SseTranslator.SseTranslator.Finish | packages/anthropic-responses-bridge/src/translate-sse.ts:243-246 | Reports truncation unless the response ended. |
| SseTranslator.SseTranslator.PushResponse | packages/anthropic-responses-bridge/src/translate-sse.ts:254-312 | A whole response is pushed as the life of its items, or is refused. |
| SseTranslator.ProviderPrefix | packages/anthropic-responses-bridge/src/translate-sse.ts:105-111 | The prefix ends with the first slash of the model's name and is empty exactly if there is none or it comes first. |
| GrammarRuns.EveryRunIsGrammatical | packages/anthropic-responses-bridge/src/translate-sse.ts:21-31 | Over every sequence of calls, every emitted event is allowed by the grammar where it is emitted, content only by the item that owns the open block. |
| StreamOrder.EveryRunIsOrdered | packages/anthropic-responses-bridge/src/translate-sse.ts:574-643 | About the plain list of events: one message start before any block, blocks numbered 0, 1, 2 and one at a time, content only inside its block, spoken blocks begin with visible text, all closed before the terminal, at most one terminal. |
| StreamOrder.SilentAfterTheEnd | packages/anthropic-responses-bridge/src/translate-sse.ts:235-246 | After a terminal event, reporting a failure or the end emits nothing and changes nothing. |
| StreamOrder.AlwaysOneTerminal | packages/anthropic-responses-bridge/src/translate-sse.ts:243-246 | Every run that is ended has exactly one terminal event. |
| Deferral.NothingStranded | packages/anthropic-responses-bridge/src/translate-sse.ts:143-174 | After every call, an event is only queued while the block of another item that must not be interrupted is open. |
| Completion.QueueAwaitsDone | packages/anthropic-responses-bridge/src/translate-sse.ts:143-174 | After every call of every run of numbered items, a queue that is not empty implies an open item that must not be interrupted and of whose events the last one fed is not its done event. |
| Deferral.ItemsKeepTheirOrder | packages/anthropic-responses-bridge/src/translate-sse.ts:154-161 | For every item, what was processed followed by what waits is what was fed: nothing lost, repeated or reordered, through forced drains. |
| Completion.AllDoneLeavesNothing | packages/anthropic-responses-bridge/src/translate-sse.ts:143-174 | With numbered items, once every item is done the queue is empty and nothing is open. |
| Completion.CompletedAddsNothing | packages/anthropic-responses-bridge/src/translate-sse.ts:574-601 | So the completion then emits only the stop reason and the stop. |
| StopReasons.CompletionTellsWhy | packages/anthropic-responses-bridge/src/translate-sse.ts:645-656 | Over every run, told from the emitted events alone: a response that is completed ends with the reason `max_tokens` if it was cut off; otherwise `tool_use` exactly if a tool call was started, and `end_turn` if not. |
| StopReasons.OnlyCompletionTells | packages/anthropic-responses-bridge/src/translate-sse.ts:574-601 | No other event carries a reason: the completion that does is the first call that ended the run. |
| StopReasons.MessageTellsWhy | packages/anthropic-responses-bridge/src/anthropic-message-collector.ts:165-175 | The collected message has that reason. |
| Announcements.UnnumberedAreCounted | packages/anthropic-responses-bridge/src/translate-sse.ts:363-368 | Over every run in which upstream numbers nothing, the announced items are numbered 0, 1, 2, ..., so that each has its own state. |
| Announcements.AnnouncedOnce | packages/anthropic-responses-bridge/src/translate-sse.ts:366-368 | An item that is announced again is not started over. |
| Content.TextIsConserved | packages/anthropic-responses-bridge/src/translate-sse.ts:406-442 | For every item of every run: emitted text followed by what is held back is the text processed, and only whitespace is held back. |
| Interleaving.EveryItemIsUndisturbed | packages/anthropic-responses-bridge/src/translate-sse.ts:66-75 | While the response goes on, a reasoning or tool item contributes exactly what its own events alone would. |
| Interleaving.InterleavingDoesNotMatter | packages/anthropic-responses-bridge/src/translate-sse.ts:24-31 | Two interleavings of the same items, all done, give the same content of each, up to trailing whitespace of messages. |
| ItemStreams.ToolCallsAreComplete | packages/anthropic-responses-bridge/src/translate-sse.ts:486-571 | In every finished interleaving a call carries its full arguments exactly if its deltas are a prefix of them. |
| ItemStreams.ReasoningIsComplete | packages/anthropic-responses-bridge/src/translate-sse.ts:445-550 | In every finished interleaving a reasoning item is a thinking block with its whole summary and then its signature, or a redacted block if the summary is blank. |
| ItemStreams.TextIsComplete | packages/anthropic-responses-bridge/src/translate-sse.ts:406-442 | In every finished interleaving a message's text is all there but for held-back whitespace. |
| Collector.AnthropicMessageCollector.Push | packages/anthropic-responses-bridge/src/anthropic-message-collector.ts:31-64 | The object's new state is that of the transition function. |
| Collector.AnthropicMessageCollector.Finish | packages/anthropic-responses-bridge/src/anthropic-message-collector.ts:66-90 | The outcome of the state. |
| Collector.SortAscends | packages/anthropic-responses-bridge/src/anthropic-message-collector.ts:76-84 | The blocks of the message are in the order of their numbers. |
| CollectorTheorems.CollectsTheMessage | packages/anthropic-responses-bridge/src/anthropic-message-collector.ts:66-164 | For every translator run whose first terminal is a message stop: the collector never complains about order; it succeeds exactly if there is a block and all tool arguments parse, with each block the concatenation of its deltas, in number order. |
| CollectorTheorems.NoMessageOtherwise | packages/anthropic-responses-bridge/src/anthropic-message-collector.ts:66-76 | After a failure, or without a terminal event, there is no message. |
| Replay.MessageToInputItems | packages/anthropic-responses-bridge/src/translate-request.ts:131-229 | The loop with its pending buffer computes the specified items. |
| Replay.GroupingKeepsOrder | packages/anthropic-responses-bridge/src/translate-request.ts:125-152 | However parts are grouped into messages, the items are those of the blocks, in order. |
| Replay.TextIsOneMessage | packages/anthropic-responses-bridge/src/translate-request.ts:147-160 | A run of text becomes one message. |
| Replay.SplitIffSeparable | packages/anthropic-responses-bridge/src/translate-request.ts:117-123 | A blob is taken apart into the id and content it was made of exactly if the id holds no `#` and, without an id, the content does not look like it had one. |
| Replay.OnlyOwnReasoning | packages/anthropic-responses-bridge/src/translate-request.ts:125-229 | For every message, the reasoning items of the output are, in order, exactly those of the blocks whose blob carries the nonempty prefix of the provider, each taken apart, and none if reasoning is dropped altogether. |
| Replay.EveryCallIsReplayed | packages/anthropic-responses-bridge/src/translate-request.ts:167-176 | The calls of the output are, in order, exactly those of the tool-use blocks, with id, name and input. |
| Replay.EveryResultIsReplayed | packages/anthropic-responses-bridge/src/translate-request.ts:177-185 | The call outputs are, in order, exactly those of the tool-result blocks, each under the id of its call. |
| WholeItems.DoneWhole | packages/anthropic-responses-bridge/src/translate-sse.ts:503-571 | The end of an item that arrived whole completes exactly the block it stands for, or none. |
| RoundTrip.RoundTrip | packages/anthropic-responses-bridge/src/translate-sse.ts:254-312 | A completed response, pushed whole and collected, is a message exactly if it has content and the arguments of its calls are JSON; translated back with the same prefix, it gives its text, calls and reasoning in order, exactly if every reasoning blob can be taken apart and, where there is one, the prefix is not empty. |
| RoundTrip.ItemReplayed | packages/anthropic-responses-bridge/src/translate-sse.ts:508-516 | The same for one item: only reasoning can fail, and exactly if it has a blob and the prefix is empty or the blob cannot be taken apart. |
| RoundTrip.RefusedResponse | packages/anthropic-responses-bridge/src/translate-sse.ts:253-264 | A response that is empty, erroneous, failed or not terminal is one failure with its message and nothing else, and no message comes of it. |
| ThreadIds.ThreadIdCache.Add | packages/anthropic-compat-proxy/src/server.ts:234-257 | The new cache is that of the specification. |
| ThreadIds.AddIdKeepsBounds | packages/anthropic-compat-proxy/src/server.ts:230-257 | At most 1024 threads and 8192 ids per thread, the id just added retained, threads in the order in which they were first seen. |
| ThreadIds.NothingLostBelowTheLimits | packages/anthropic-compat-proxy/src/server.ts:242-256 | Below the limits no id of any thread is lost. |
| ThreadIds.OnlyTheOldestGoes | packages/anthropic-compat-proxy/src/server.ts:229-257 | Exactly what adding an id evicts: the oldest thread, if a new one takes its place in a full cache, and the oldest id of a full thread. |
| IdRewriter.ToolUseIdDedupeRewriter.Resolve | packages/anthropic-compat-proxy/src/tool-use-id-stream-rewrite.ts:119-137 | Passes on the id itself, or the first free suffixed one if the stream or the thread's cache knows it; records it in both; ends. |
| IdRewriter.ResolvedIsNumbered | packages/anthropic-compat-proxy/src/tool-use-id-stream-rewrite.ts:124-131 | An id that is taken gets the first number, from 2 on, that makes it free. |
| Decimals.DecimalReads | packages/anthropic-compat-proxy/src/tool-use-id-stream-rewrite.ts:127-130 | The number is written in decimal digits. |
| IdRewriter.EveryInterleaving | packages/anthropic-compat-proxy/src/server.ts:1395-1432 | Over every interleaving of streams of any threads: bounds kept; no stream repeats an id or passes on one of its history; streams of a thread that lost nothing never pass on the same id. |
| IdRewriter.NoIdTwice | packages/anthropic-compat-proxy/src/tool-use-id-stream-rewrite.ts:105-114 | The same for any two emissions. |
| RewriterPool.Pool.Begin | packages/anthropic-compat-proxy/src/server.ts:2295-2315 | With the rewriters and the cache as objects: a new stream collects its seed, adds it to the cache and is one step of the specification; all invariants hold of the objects afterwards. |
| IdRewriter.BeginAvoids | packages/anthropic-compat-proxy/src/server.ts:2295-2315 | A new stream avoids exactly the ids of its request and those that the cache holds of its thread. |
| RewriterPool.Pool.Resolve | packages/anthropic-compat-proxy/src/server.ts:1395-1432 | Whichever rewriter object resolves an id, that is one step of the specification; the id passed on is new to its stream and history and, as long as the thread lost nothing, to every stream of the thread. |
| SseIdRewrite.ToolUseIdRewriteTransform.RewriteSseLine | packages/anthropic-compat-proxy/src/tool-use-id-stream-rewrite.ts:144-199 | The rewriting of one line. |
| SseIdRewrite.DataLineIsRead | packages/anthropic-compat-proxy/src/tool-use-id-stream-rewrite.ts:145-185 | A data line with a JSON text that shows its marker in the window is recognized, with exactly that text, whatever its line ending. |
| SseIdRewrite.ReadsExactly | packages/anthropic-compat-proxy/src/tool-use-id-stream-rewrite.ts:157-184 | A line is read exactly if it is `data:`, blanks, possibly a byte order mark, an object whose marker is within the window, and its ending. |
| SseIdRewrite.EndingsAreKept | packages/anthropic-compat-proxy/src/tool-use-id-stream-rewrite.ts:145-155 | For every stream whose lines fit, however it is cut, the output has as many lines as the input, each ending as the line it stands for, provided that the JSON library writes one line. |
| SseIdRewrite.LineCarriesNewId | packages/anthropic-compat-proxy/src/tool-use-id-stream-rewrite.ts:193-198 | Whoever reads the line that is passed on finds an id that was not taken. |
| SseIdRewrite.ToolUseIdRewriteTransform.Transform | packages/anthropic-compat-proxy/src/tool-use-id-stream-rewrite.ts:214-236 | The scanning loop over a chunk equals the specification. |
| SseIdRewrite.ToolUseIdRewriteTransform.Flush | packages/anthropic-compat-proxy/src/tool-use-id-stream-rewrite.ts:238-248 | The end of the stream. |
| LineTransform.ChunksDoNotMatter | packages/anthropic-compat-proxy/src/tool-use-id-stream-rewrite.ts:202-236 | For every split into chunks, if all lines fit the limit, the output is the line-by-line stateful rewriting of the whole stream. |
| LineTransform.UntouchedStream | packages/anthropic-compat-proxy/src/tool-use-id-stream-rewrite.ts:224-231 | With or without lines over the limit, a stream in which no line is changed comes out byte for byte. |
| SseIdRewrite.UnrenamedStream | packages/anthropic-compat-proxy/src/tool-use-id-stream-rewrite.ts:202-248 | With or without lines over the limit, and however it is cut, a stream over which the rewriter renames no id comes out byte for byte. |
| SseIdRewrite.RenamesIffTaken | packages/anthropic-compat-proxy/src/tool-use-id-stream-rewrite.ts:119-137 | A line is counted as renamed exactly if it starts a tool call whose id is taken, and stays as it is otherwise. |
| UpgradeHandler.Connection.constructor | packages/anthropic-compat-proxy/src/server.ts:2455-2548 | A new upgrade: counted, listed, possibly accepted locally by a proven handshake. |
| UpgradeHandler.Connection.SettleNow | packages/anthropic-compat-proxy/src/server.ts:2491-2507 | Settles once, with timer, counter and list. |
| UpgradeHandler.Connection.ScheduleReconnectAttempt | packages/anthropic-compat-proxy/src/server.ts:2550-2571 | Schedules the next attempt after the specified delay, if somebody waits for it. |
| UpgradeHandler.Connection.FailTransientAttempt | packages/anthropic-compat-proxy/src/server.ts:2619-2633 | A failed attempt is retried or ends the connection. |
| UpgradeHandler.Connection.UpstreamUpgraded | packages/anthropic-compat-proxy/src/server.ts:2643-2737 | A real answer of status 101 establishes the connection or not. |
| UpgradeHandler.Connection.UpstreamRefused | packages/anthropic-compat-proxy/src/server.ts:2742-2833 | A refusal ends the connection with the right status. |
| UpgradeHandler.Connection.Threw | packages/anthropic-compat-proxy/src/server.ts:2844-2856 | A failure before the request was made. |
| UpgradeHandler.Connection.Dispatch | packages/anthropic-compat-proxy/src/server.ts:2573-2859 | Every callback does to the object, the counter, the list and the proven handshakes what the state machine says. |
| UpgradeProxy.Proxy.Connect | packages/anthropic-compat-proxy/src/server.ts:2400-2548 | With the connections as objects: a new upgrade is a step of the server state machine, and all invariants of the server hold of the objects afterwards. |
| UpgradeProxy.Proxy.Callback | packages/anthropic-compat-proxy/src/server.ts:2491-2859 | The same for every callback of every connection object; the other objects do not change, and a settled one stays as its client saw it end. |
| UpgradeProxy.Proxy.ForgetThread | packages/anthropic-compat-proxy/src/server.ts:2890 | The same when the handshake of a thread is forgotten. |
| UpgradeProxy.Proxy.ConnectionHolds | packages/anthropic-compat-proxy/src/server.ts:2456-2508 | Whenever no callback runs: every object was settled at most once, had at most one status line, is listed exactly while it is not settled, and is piped only as promised; the counter is the number of objects that are not settled. |
| UpgradeServer.EveryRunIsOk | packages/anthropic-compat-proxy/src/server.ts:2400-2859 | Over every interleaving of callbacks of any number of connections, the invariants of the server and of every connection hold. |
| UpgradeServer.LiveCountsUnsettled | packages/anthropic-compat-proxy/src/server.ts:2456-2508 | The live counter is the number of connections that are not settled. |
| UpgradeServer.EveryConnection | packages/anthropic-compat-proxy/src/server.ts:2458-2737 | Settled once, at most one status line, at most one attempt or timer outstanding and exactly one while a client waits; a connection accepted locally is piped only to an upstream that answered with the same protocol and extensions, and relies on a real upgrade of its thread. |
| UpgradeServer.SettledForGood | packages/anthropic-compat-proxy/src/server.ts:2491-2507 | After a connection is settled, no later step establishes it, sends its client a status line, starts a timer or settles it again. |
| UpgradeServer.EveryDelay | packages/anthropic-compat-proxy/src/server.ts:2553-2557 | Delays never decrease and stay within 250 and 5000 ms. |
| UpgradeServer.RememberKeeps | packages/anthropic-compat-proxy/src/server.ts:170-183 | The cache of handshakes has at most 1024 threads, one proof each, and retains the one just added. |
| UpgradeRuns.PipedAsPromised | packages/anthropic-compat-proxy/src/server.ts:2656-2690 | The step that pipes is a real answer for a client that is there and not settled, with the negotiation that was promised, and records it. |
| UpgradeEffects.EndsExactly | packages/anthropic-compat-proxy/src/server.ts:2487-2506 | Exactly which events end a connection that was not settled; a failure that may pass only delays one that was accepted locally. |
| UpgradeEffects.EventDoes | packages/anthropic-compat-proxy/src/server.ts:2651-2740 | Exactly which events cut the client off or connect it, to which upstream, and how the attempts go on. |
| UpgradeEffects.OpensAs | packages/anthropic-compat-proxy/src/server.ts:2533-2549 | An upgrade is answered at once exactly if it is accepted locally and the answer can be written; otherwise nothing is answered yet. |
| UpgradeEffects.ToldExactly | packages/anthropic-compat-proxy/src/server.ts:2771-2855 | Exactly which status line each event makes the proxy write: 101, 500, 502, 504, or the upstream's own status, where one below 500 other than 401 and 429 is told as 426. |
| UpgradeEffects.ProofAfter | packages/anthropic-compat-proxy/src/server.ts:2662-2694 | What a callback leaves of each thread's proof: a refusal or a broken promise takes it away, a real upgrade renews it and evicts at most the oldest, and nothing else changes it. |
| UpgradeEffects.RevokedUntilProven | packages/anthropic-compat-proxy/src/server.ts:2757-2765 | Over every run: after a refusal, a broken promise or the disconnection of a thread, nothing is known of it until a real upgrade of it succeeds. |
| UpgradeEffects.TransparentUntilProven | packages/anthropic-compat-proxy/src/server.ts:2757-2765 | Until then its upgrades reach the upstream before they are answered. |
| UpgradeEffects.AcceptedAfterUpgrade | packages/anthropic-compat-proxy/src/server.ts:2462-2479 | Right after a real upgrade, another of the thread is accepted locally exactly if it asks for the same and can be answered, and with what was negotiated. |
| Base64.Base64Encode | packages/device-link/src/attachmentOssRef.ts:151-163 | The loop equals the encoding by groups. |
| Base64.Base64Decode | packages/device-link/src/attachmentOssRef.ts:165-185 | The loop equals the decoding by groups, errors included. |
| Base64.RoundTrip | packages/device-link/src/attachmentOssRef.ts:151-185 | Decoding gives back every byte sequence that was encoded. |
| Base64.UrlRoundTrip | packages/device-link/src/attachmentOssRef.ts:118-126 | The same for the URL-safe form, with padding stripped and restored; the text uses only the URL-safe alphabet. |
| Base64.AlphabetIs | packages/device-link/src/attachmentOssRef.ts:14 | The alphabet, and the two signs for which the URL-safe form has others. |
| Base64.GroupIsNumber | packages/device-link/src/attachmentOssRef.ts:151-163 | The characters of a group are the base-64 digits of the number that its bytes write; missing bytes are padded. |
| Base64.WhitespaceIsIgnored | packages/device-link/src/attachmentOssRef.ts:165-167 | Whitespace does not matter, wherever it is. |
| Base64.DecodesIffReadable | packages/device-link/src/attachmentOssRef.ts:165-185 | Exactly whole groups of characters of the alphabet, of which the last two may be padding, can be decoded. |
| AttachmentRef.Utf8Bytes | packages/device-link/src/attachmentOssRef.ts:129-142 | The loop equals the scan. |
| AttachmentRef.ScanEscape | packages/device-link/src/attachmentOssRef.ts:129-142 | Scanning recovers the bytes from their percent escapes. |
| AttachmentRef.ParseBuild | packages/device-link/src/attachmentOssRef.ts:60-116 | For every reference: it is refused exactly without a key or with half or invalid integrity data, and parsing what was built gives it back, under either scheme. |
| AttachmentRef.AcceptsExactly | packages/device-link/src/attachmentOssRef.ts:96-112 | A parsed object is a reference exactly if it has a key, and size and hash are both valid or both absent; other fields of the wrong type count as absent. |
| AttachmentRef.SegmentIsParsed | packages/device-link/src/attachmentOssRef.ts:84-126 | What is parsed, under either scheme: the segment up to the next slash, if it is not empty, decoded from URL-safe base64; what follows does not matter. |
| AttachmentRef.OnlySchemesAreParsed | packages/device-link/src/attachmentOssRef.ts:85-90 | Nothing without one of the two schemes is a reference. |
| AttachmentRef.ParsedIsComplete | packages/device-link/src/attachmentOssRef.ts:97-105 | Whatever is parsed could have been built. |
| Socks5.SocketReader.Read | packages/anthropic-compat-proxy/src/socks5.ts:171-183 | Reads return consecutive slices; a concurrent read or a read after a failure is rejected. |
| Socks5.SocketReader.OnData | packages/anthropic-compat-proxy/src/socks5.ts:157-167 | Wakes the waiter with exactly its bytes as soon as they are there. |
| Socks5.SocketReader.Fail | packages/anthropic-compat-proxy/src/socks5.ts:184-190 | Rejects a waiting read and every later one. |
| Socks5.SocketReader.Release | packages/anthropic-compat-proxy/src/socks5.ts:191-199 | Bytes read and bytes put back are all the bytes received. |
| Socks5.Script | packages/anthropic-compat-proxy/src/socks5.ts:258-318 | The sequence of reads equals the specification. |
| Socks5.Start | packages/anthropic-compat-proxy/src/socks5.ts:258-262 | The script begins with a read that waits, in the state of the specification before any chunk. |
| Socks5.Continue | packages/anthropic-compat-proxy/src/socks5.ts:157-167 | A chunk wakes the waiting read and the script goes on: reader and script stay in the state that the specification reaches after the chunks so far. |
| Socks5.HandshakeSucceeds | packages/anthropic-compat-proxy/src/socks5.ts:191-199 | For the reader object: success exactly if what was received begins with an answer; what was read is then exactly that answer, and what is put back everything after it. |
| Socks5.SucceedsIffAnswered | packages/anthropic-compat-proxy/src/socks5.ts:258-318 | For every chunking, the handshake succeeds exactly if the bytes begin with an answer of the right form, and what is left is exactly what follows it. |
| Socks5.RequestIsUnderstood | packages/anthropic-compat-proxy/src/socks5.ts:109-130 | A proxy that follows the standard reads the destination and port that were meant; only names without or with more than 255 bytes are not sent. |
| Socks5.AuthIsUnderstood | packages/anthropic-compat-proxy/src/socks5.ts:271-286 | A proxy that follows the standard reads the credentials that were meant; they are not sent exactly if one of them has more than 255 bytes. |

## Left out

- JSON text, UTF-16 strings and regular expressions: parsing and printing are parameters, strings are sequences of characters, and a tool call's or result's remaining fields are one opaque string.
- Collectors of compaction candidates are recursive functions, and replacement is an update of a value: that the repository's references into the parsed body stay valid while it is changed in place is not modelled.
- Translator: usage figures, message ids, model names, service tiers, and how a failure message is composed from an upstream error.
- Translator: an output index is an integer; items of a run without indices are covered by the grammar, order and conservation theorems and by `Announcements`, which says how they are counted, and not by those that require numbered items.
- Translator: the forced drain at the end of a stream may discard tool arguments of items that are not done; completeness is stated for items that are done.
- Replay: plain string contents and the request fields around the items (tools, tool choice, reasoning effort).
- Collector: usage and the stop sequence, and malformed events that the translator cannot produce.
- Block state of the translator is a value in a map that is replaced, not an object that is shared.
- WebSockets: the checks before a connection is counted, the bytes in the pipes, the disposal of the requests of a connection that is settled, and an exception thrown after the upstream request exists but before its callbacks run.
- WebSockets: disconnecting a thread is one event for each of its connections.
- Id rewriting: how the ids of a request are collected; a stream's thread is the thread of its request; streams that are not intercepted do not appear.
- Base64: other characters than those of the two alphabets, padding and whitespace are errors, and nothing is said about what lenient decoders make of them.
- SOCKS5: textual addresses, timeouts, the moments at which the client writes its requests, and the error texts.
- HTTP forwarding, TLS, logging, recovery rules, per-model handlers and the stream validity gate.
