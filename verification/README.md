# A model of Koraku in Dafny

Koraku is an agent server. A chat turn runs a loop that asks a language model, executes the tools the
model calls, and streams everything to a browser. This project models the parts of it that carry state
over unbounded runs, and proves what they keep.

- **Streamed text.** `ToolMarkers`, `VisibleFilter`, `FilterCalls`, `FilterChunking`, `FilterDeletes`, `FilterLeak`: the
  filter that keeps inline tool-call text away from the user while chunks arrive. Regular expressions are written out as
  matchers. `FilterHiding`, `CallPieces`, `AnglePieces`, `CompactPieces`: calls that arrive in pieces. `OpenAiDelta`,
  `SlotContents`, `Announcements`, `StreamHandler`, `SseFraming`, `ProviderStream`: from the bytes of a provider response
  to block events, native tool calls and the final message. `ToolCallParse`, `ToolCallOrder`, `CallContents`,
  `NestedCallExample`: the calls that a finished text is read to contain. `FinalText`, `FenceExample`: how the streamed
  text and the final message agree.
- **Transcript.** `Messages`, `ContextManager`, `SentContents`, `Canonical`, `ChatContents`: the pairing of tool calls and
  results, the rewriting of a transcript before it is sent, and its translation to the OpenAI message shape.
- **The run.** `PendingInteractions`, `ToolExecutor`, `ReactLoop`: questions to the user as a protocol between
  concurrent coroutines, one tool call from its approval to its result, and the loop around model and tools.
- **The chat stream.** `SseMapper`, `SseContents`, `SseScopes`, `SseSuppression`, `SseInterleaving`, `SseCompletion`: the
  mapper that merges the events of the lead agent and its sub-agents into one stream.
- **Services.** `RateLimit`, `SessionStore`.
- `Wrappers`, `Text`, `Json`, `IntSets` hold what several modules need.

Code that updates objects is modelled by classes whose methods have the loops of the source; each method is proved
equal to a function of the old state, or proved to have the stated property outright, and the theorems are about
those functions and states. The model, the clock, the user, the tools and the network are parameters: a theorem about
a run holds for all of them.

## What is false, and what holds instead

- Showing the same text for every chunking is false in general: a tool object cut behind its brace is shown
  (`FilterLeak.CuttingBehindTheBraceLeaks`). It holds, up to white space, for text without `{`, `<` and `[call`, and
  exactly for text without braces and tool heads (`FinalText.HeadFreeChunksAgree`).
- A call that arrives in pieces is hidden, and the text behind it treated as if the call had never been there, exactly
  when no cut lies at one of a few places. For `[Call Name]:` these are the white space behind the bracket and the front
  of a colon that follows such space (`CallPieces.CallInPieces`); for `<tool_call>[Name]` the places behind a beginning
  of the name that might as well begin `call`, the empty one included (`AnglePieces.AngleInPieces`); for `{"tool":` the
  places behind the brace, up to the key (`CompactPieces.CompactInPieces`). At these places the beginning of the call is
  shown, in all three forms.
- A native call is announced with the id and name it has when its first name is complete. The final block carries
  another id when one arrives later (`Announcements.LateIdIsNotAnnounced`), and a later blank name takes the block away
  (`Announcements.BlankNameUndoes`). `Announcements.AnnouncementMatchesBlock` says exactly when they agree.
- The deltas alone do not always collect to the text of the final message. Text without braces and tool heads can turn
  into an angle-form call once its code fences are removed. `FinalText.DeltasAgreeWithMessage` gives the exact
  condition, `FenceExample.StreamAndMessageDiffer` a text that fails it.
- The prose of a parsed reply can repeat a piece of a call that holds another call
  (`NestedCallExample.ProseRepeatsCall`); `ToolCallOrder.ProseBesideCalls` says exactly when it does not.
- Encoding and re-reading tool calls returns the same blocks exactly when ids and names are trimmed and non-empty and
  inputs are dictionaries (`OpenAiDelta.RoundTrip`; `OpenAiDelta.EmptyIdIsReplaced` is an input that fails).
- Lines of a response do not depend on the chunks exactly when no data line follows `[DONE]`
  (`ProviderStream.ChunksIrrelevant`): the marker ends the inner loop of one chunk only.
- The OpenAI translation of a paired transcript answers every call exactly when no tool use has an empty id
  (`Canonical.TranslationAnswersCalls`, `Canonical.EmptyIdIsUnanswered`); that of what the context manager sends, when
  besides no orphan results stand behind the seam (`Canonical.SentTranscriptIsAnswered`).
- A transcript is paired after a run exactly when the synthesized reply, if there is one, uses no tools and no
  exception left the tool phase (`ReactLoop.LeavesPaired`, `ReactLoop.UnansweredReply`). The synthesized reply is stored
  unfiltered.
- In `confirm_sensitive` mode a sensitive tool runs only after its own approval exactly when an event sink is bound or
  the call will not run a sensitive tool (`ToolExecutor.SensitiveRunsAreApproved`); without a sink
  `_execute_single_tool` asks nobody (`ToolExecutor.UnboundRunsUnasked`). `run` always binds one, so only those who call
  `_execute_single_tool` themselves can meet this.
- A true return of `resolve` does not mean delivery (`PendingInteractions.TrueWithoutDelivery`).
- Tool ids of different agents can collide (`SseScopes.IdsMayCollide`), exactly when `SseScopes.SharedKeyIff` says so;
  among agents whose names have no colon, exactly when the lead's id spells out the other's key
  (`SseScopes.PlainScopesShareIff`). Without a shared key the agents do not interfere (`SseScopes.ScopesDoNotInterfere`).
- Interleaved provider streams share the suppressed indexes, and one can lose text to another's tool use
  (`SseInterleaving.CollisionLosesText`). For streams whose blocks are all closed at the end, the forwarded block events
  are each stream's own without its tool uses exactly when no text delta and no stop falls at an index at which another
  stream has a tool use open (`SseInterleaving.InterleavedStreamsIff`). A stream that was cut inside a tool use leaves
  its index suppressed for the next one (`SseSuppression.TextBehindACutToolUse`, `SseSuppression.BehindACutStreamIff`).
- The shared rate limiter accepts up to twice the limit in an interval of one window
  (`RateLimit.AtMostTwice`, `RateLimit.TwiceIsReached`); the one in memory never exceeds it.
- The docstring of `_tool_started_events` promises one `started` event per id. The code emits one each time, so a native
  call that is announced and executed has two (`SseScopes.NativeCallStartsTwice`). An id is started at most once exactly
  when at most one operation of the run begins a call under its key (`SseScopes.StartedOnceIff`).

## Model

| member | source | states |
|---|---|---|
| `ToolMarkers.FirstMarker` | koraku/llm/sanitize.py:37-45 | the result is a marker of one of the four kinds and no marker starts before it |
| `VisibleFilter.VisibleToolJsonFilter.TryStripLeadingBracketToolCall` | koraku/llm/sanitize.py:268-289 | result and buffer are those of the verdict that cuts the buffer into pieces end to end |
| `VisibleFilter.VisibleToolJsonFilter.TryStripLeadingCallTool` | koraku/llm/sanitize.py:291-313 | the same for the `[Call Name]:` form |
| `VisibleFilter.VisibleToolJsonFilter.TryStripLeadingAngleTool` | koraku/llm/sanitize.py:315-344 | the same for the `<tool_call>` form |
| `VisibleFilter.VisibleToolJsonFilter.TryStripLeadingToolJsonObject` | koraku/llm/sanitize.py:346-362 | the same for a leading JSON object |
| `VisibleFilter.VisibleToolJsonFilter.FeedChunk` | koraku/llm/sanitize.py:136-211 | the loop ends, emits what the segments of its turns show, and leaves what they do not cover |
| `VisibleFilter.VisibleToolJsonFilter.FlushAll` | koraku/llm/sanitize.py:213-266 | the loop ends, the buffer is empty, and the emitted text is what the segments show |
| `VisibleFilter.FeedLoop` | koraku/llm/sanitize.py:136-211 | shown, cut and held text together are the buffer: nothing is lost, added or moved |
| `VisibleFilter.Flush` | koraku/llm/sanitize.py:213-266 | shown and cut text together are the buffer |
| `FilterCalls.CallLed` | koraku/llm/sanitize.py:291-313 | a buffer that a `[Call Name]:` head leads shows, while chunks arrive and at the end, exactly what the text behind the call and the newlines after it shows; without a value the head alone goes when none can follow, and a value that is not whole is waited for and dropped at the end |
| `FilterCalls.AngleLed` | koraku/llm/sanitize.py:315-344 | the same for the `<tool_call>` form through its closing tag, for which the value waits until the end of the stream |
| `FilterCalls.BracketLed` | koraku/llm/sanitize.py:268-289 | the same for the bracket form through its first closer and the white space behind it |
| `FilterCalls.JsonLed` | koraku/llm/sanitize.py:346-362 | a whole tool object goes with the newlines behind it; what may become one is waited for; an object that begins like one, but names its tool by no string, is shown while chunks arrive and dropped at the end |
| `FilterCalls.StreamsAlike` | koraku/llm/sanitize.py:136-211 | what these say of a buffer holds of every stream that fills it, whatever chunks follow |
| `FilterCalls.EatLineBreaksIs` | koraku/llm/sanitize.py:29-34 | all the newlines in front of a text go, and nothing else |
| `FilterChunking.ChunkIndependence` | koraku/llm/sanitize.py:136-289 | for text without `{`, `<` and `[call` every chunking shows the same non-blank text, that of the one-pass reference that deletes bracket spans and everything behind an unclosed opener |
| `FilterDeletes.OnlyDeletes` | koraku/llm/sanitize.py:136-362 | for every text and chunking the output is the input minus spans; each span is a head-led call as far as it goes, with its value when it has one, a head that no value can follow, a JSON object with a string `tool`, or the line breaks behind one of these or a decoded value; what the end of the stream leaves unfinished holds no whole call of the three marked forms and is followed by nothing shown |
| `FilterHiding.CutsDecide` | koraku/llm/sanitize.py:136-211 | for any text that is held at every place but some: a chunking without a cut at one of these shows what the text behind shows, and any other shows the beginning of the text |
| `CallPieces.CallInPieces` | koraku/llm/sanitize.py:62-78 | for every call of the `[Call Name]:` form and every way of cutting it: hidden, and the text behind it treated as if the call had never been there, unless a cut lies in the white space behind the bracket or between that and the colon; then its beginning is shown |
| `CallPieces.SpacedCallInPieces` | koraku/llm/sanitize.py:62-78 | one call, cut in front of such white space and hidden, cut behind it and shown |
| `AnglePieces.AngleInPieces` | koraku/llm/sanitize.py:111-127 | the same for every call of the `<tool_call>` form, unless a cut lies behind the bracket or behind a beginning of the name that might begin `call` |
| `CompactPieces.CompactInPieces` | koraku/llm/sanitize.py:48-59 | the same for every tool object whose first key is `tool`, unless a cut lies between its brace and the key |
| `FilterLeak.CuttingBehindTheBraceLeaks` | koraku/llm/sanitize.py:57-59 | every tool object is hidden in one chunk and shown from its brace on when cut there |
| `OpenAiDelta.ToolCallSlots.AccumulateDeltas` | koraku/llm/openai_delta.py:32-51 | the slots become the merge of the fragments in order |
| `OpenAiDelta.SlotFromOwn` | koraku/llm/openai_delta.py:37-51 | a slot depends only on the fragments of its own index, in order |
| `OpenAiDelta.InterleavingIrrelevant` | koraku/llm/openai_delta.py:32-51 | two interleavings with the same fragments per index give the same slots |
| `OpenAiDelta.ToolCallSlotsToBlocks` | koraku/llm/openai_delta.py:54-71 | the loop over sorted indexes builds the blocks of the named slots |
| `SlotContents.MergedIs` | koraku/llm/openai_delta.py:37-51 | the id and the name of a slot are the last ones sent, its arguments all that were sent, in order |
| `SlotContents.BlocksAre` | koraku/llm/openai_delta.py:54-71 | one block for each slot with a name, in the order of the indexes: trimmed name, own or made-up id, and the decoded arguments, of which text that is no JSON and values that are no dictionaries are kept under keys of their own |
| `OpenAiDelta.RoundTrip` | koraku/llm/canonical.py:107-138 | encoding blocks, cutting and interleaving their arguments anywhere and merging gives the same blocks exactly when all are portable |
| `OpenAiDelta.EmptyIdIsReplaced` | koraku/llm/canonical.py:120-131 | a block with an empty id comes back with the default one, for every codec |
| `Announcements.AnnouncedOnceWhenNamed` | koraku/llm/providers/openai_compat_backend.py:71-96 | whatever batches arrive, a call is announced once, exactly when its fragments ever name it, with the id, name and input merged up to the batch that completes its first name |
| `Announcements.AnnouncementMatchesBlock` | koraku/llm/openai_delta.py:54-71 | an announced call has a final block exactly when its last name is not blank; the block's id and name are the announced ones exactly when those merged up to the first name are, trimmed, the final ones, no id counting as the default |
| `Announcements.LateIdIsNotAnnounced` | koraku/llm/providers/openai_compat_backend.py:71-96 | name first and id later: announced as `tool_0`, ends as `call_1` |
| `Announcements.BlankNameUndoes` | koraku/llm/openai_delta.py:54-71 | an announced call that a later blank name leaves without a block |
| `ToolCallParse.AppendToolCall` | koraku/llm/tool_call_parse.py:49-65 | nothing without a name, nothing twice at the same start |
| `ToolCallParse.ScanBracketToolCalls` | koraku/llm/tool_call_parse.py:68-86 | the loop appends the calls of the leftmost bracket blocks, in order |
| `ToolCallParse.ScanAngleToolCalls` | koraku/llm/tool_call_parse.py:89-115 | the loop appends the calls at the leftmost angle heads, in order |
| `ToolCallParse.ScanCallToolMarkers` | koraku/llm/tool_call_parse.py:118-143 | the loop appends the calls at the leftmost `[Call Name]:` heads, in order |
| `ToolCallParse.ScanCompactToolJson` | koraku/llm/tool_call_parse.py:146-168 | the loop appends the calls at the leftmost compact heads that lie in no call found before, in order |
| `ToolCallParse.ParseToolCallsFromText` | koraku/llm/tool_call_parse.py:189-224 | the scanners and the assembly loop build the specified blocks: one tool block per found call, in the order of their starts, with the ids `tool_0`, `tool_1` and so on |
| `ToolCallParse.ScannersAppend` | koraku/llm/tool_call_parse.py:49-65 | the four scanners append the calls of each form whole: the check for a repeated start never drops one |
| `ToolCallOrder.HitsAreLeftmost` | koraku/llm/tool_call_parse.py:68-168 | a scanner's steps are the one list that takes heads only, without overlap, and leaves no head uncovered |
| `ToolCallOrder.ReadableCallsAreFound` | koraku/llm/tool_call_parse.py:68-168 | every readable call is found, unless it begins inside an earlier step of its own scanner or, in compact form, inside a marked call |
| `ToolCallOrder.FoundCallsAreSound` | koraku/llm/tool_call_parse.py:68-186 | every found call is named, lies in the text, begins where no other does, and is what the text holds there in one of the four forms; or it is the only one and the whole text |
| `CallContents.CallsAreHeld` | koraku/llm/tool_call_parse.py:44-168 | a scanner reads at a place a call exactly when the text holds it there: the name between the brackets or under `tool`, the dictionary behind the head or that under `parameters`, else `input`, else `args`, and the end where the value and its closing tag end |
| `ToolCallOrder.CompactCallsStayOutside` | koraku/llm/tool_call_parse.py:146-168 | a compact call never begins inside another call |
| `ToolCallOrder.BlocksForCalls` | koraku/llm/tool_call_parse.py:204-219 | the tool blocks are the found calls, sorted strictly by start and none lost, numbered from `tool_0` |
| `ToolCallOrder.ProseBesideCalls` | koraku/llm/tool_call_parse.py:205-224 | the text blocks show every character outside the calls, and none inside one exactly when around every gap the calls in front of it have ended |
| `NestedCallExample.ProseRepeatsCall` | koraku/llm/tool_call_parse.py:205-224 | a reply whose only prose is the tail of a call that holds another one |
| `StreamHandler.OpenAiStreamHandler.constructor` | koraku/llm/providers/openai_compat_backend.py:29-40 | a new handler keeps the streaming invariant with nothing streamed |
| `StreamHandler.OpenAiStreamHandler.CloseThinkingIfNeeded` | koraku/llm/providers/openai_compat_backend.py:42-45 | thinking is stopped once, and the blocks match the flags |
| `StreamHandler.OpenAiStreamHandler.EmitReasoningDelta` | koraku/llm/providers/openai_compat_backend.py:47-64 | reasoning before any content is shown as thinking, later reasoning counts as content; the streaming invariant is kept |
| `StreamHandler.OpenAiStreamHandler.EnsureTextStreamIndex` | koraku/llm/providers/openai_compat_backend.py:66-69 | the text index is chosen once, beside the thinking index |
| `StreamHandler.OpenAiStreamHandler.EmitPendingNativeToolEvents` | koraku/llm/providers/openai_compat_backend.py:71-96 | every named slot is announced, none twice, each with its own id, name and parsed input |
| `StreamHandler.OpenAiStreamHandler.IterTextStream` | koraku/llm/providers/openai_compat_backend.py:98-118 | content goes through the filter, and the text deltas stay what the filter shows |
| `StreamHandler.OpenAiStreamHandler.ProcessLine` | koraku/llm/providers/openai_compat_backend.py:120-162 | reasoning comes from `reasoning_content`, else `reasoning`; content is `content`, but `text` when that is not blank and `content` is; empty pieces add nothing; slots, contents, reasoning and message id change as the payload says; a line without payload changes nothing; the streaming invariant is kept |
| `StreamHandler.OpenAiStreamHandler.Flush` | koraku/llm/providers/openai_compat_backend.py:164-186 | the events are a legal block stream: each index starts at most once, deltas lie in the open block, everything started is stopped; text and thinking deltas are complete; the filter is empty |
| `StreamHandler.OpenAiStreamHandler.GetFinalMessages` | koraku/llm/providers/openai_compat_backend.py:188-221 | the three closing events carry the content built from the same text and slots |
| `StreamHandler.FinalContentIs` | koraku/llm/providers/openai_compat_backend.py:188-213 | native calls stand behind the whole streamed text; only without any is the text read for calls; a message is never empty |
| `StreamHandler.StopReasonIs` | koraku/llm/providers/openai_compat_backend.py:214-221 | a message stops for its calls exactly when it has some |
| `ProviderStream.ProcessOpenAiStream` | koraku/llm/providers/openai_compat_backend.py:281-310 | for all chunks: a legal block stream whose text is what the filter shows of the contents and whose thinking is the reasoning before them, with exactly the announcements, ids, names and inputs, that the batches of the response cause, then the closing messages from the same state |
| `ProviderStream.CallsOfResponse` | koraku/llm/providers/openai_compat_backend.py:71-96 | for every call of a response: announced once if ever named, a block in the final message exactly when its last name is not blank, and with the announced id and name exactly under the condition above |
| `ProviderStream.ChunksIrrelevant` | koraku/llm/providers/openai_compat_backend.py:293-304 | all chunkings of a response pass the same data lines exactly when none lies behind a done marker |
| `ProviderStream.AfterRelevant` | koraku/llm/providers/openai_compat_backend.py:120-132 | lines that are no data lines change nothing |
| `ProviderStream.FinalStateIgnoresChunks` | koraku/llm/providers/openai_compat_backend.py:281-310 | when the done marker is the last data line, the final state is the same for every chunking |
| `FinalText.CollectAssistantText` | koraku/sdk_events.py:279-301 | the loop returns the last non-empty message text, else the joined deltas, stripped |
| `FinalText.Verbatim` | koraku/llm/providers/openai_compat_backend.py:98-118 | text without brace and tool heads streams through the filter unchanged for every chunking |
| `FinalText.HeadFreeChunksAgree` | koraku/llm/sanitize.py:136-266 | two chunkings of such text show the same, namely the text |
| `FinalText.DeltasAgreeWithMessage` | koraku/sdk_events.py:279-301 | for such text the deltas alone collect to the stripped contents, and adding the final message changes nothing, with the exact exception |
| `FenceExample.StreamAndMessageDiffer` | koraku/llm/tool_call_parse.py:29-32 | a text on which the exception applies, for every decoder that reads a digit |
| `FenceExample.FenceGone` | koraku/llm/tool_call_parse.py:29-32 | a fence between two pieces of text goes and joins them |
| `FenceExample.JsonFenceGone` | koraku/llm/tool_call_parse.py:29-32 | the fence that opens a JSON block goes with its language and the white space behind it |
| `SseFraming.StreamChat` | packages/koraku-client/src/index.ts:262-277 | the read loop yields what the whole text decodes to, for every chunking |
| `SseFraming.LinesConcat` | packages/koraku-client/src/index.ts:267-268 | splitting in two steps with a carried rest gives the lines of the whole |
| `SseFraming.RoundTrip` | koraku/api/chat_routes.py:121-123 | the concatenated `format_sse` outputs decode to the original events in order |
| `SseFraming.OtherLinesAreSkipped` | packages/koraku-client/src/index.ts:54-64 | the end marker, and every line that carries no event, is skipped wherever it stands between frames |
| `SseFraming.LastFrameIsRead` | packages/koraku-client/src/index.ts:274-277 | a last frame is read without the line break that ends it |
| `Messages.PairedByIndex` | koraku/agent/run.py:733-771 | the recursive pairing is the discipline stated per index: a message with tool uses is directly followed by exactly its results, and results stand nowhere else |
| `ContextManager.DropThinking` | koraku/agent/context_manager.py:144-161 | message by message the thinking blocks and no others are gone, and roles and plain texts stay |
| `ContextManager.TruncateToolResults` | koraku/agent/context_manager.py:163-187 | block by block a result longer than the cap becomes its beginning and the note that names the cap, with its id and error flag; every other block, and every plain message, stays as it is |
| `ContextManager.DropCompletedToolRoundPairs` | koraku/agent/context_manager.py:120-142 | the index loop drops the rounds that the recursive definition drops |
| `ContextManager.ChainLosesOnlyLast` | koraku/agent/context_manager.py:120-142 | of a chain of rounds of any length one pass drops only the last |
| `ContextManager.ProcessMessages` | koraku/agent/context_manager.py:34-49 | the five passes in their order |
| `ContextManager.ProcessKeepsPairing` | koraku/agent/context_manager.py:189-271 | on a paired transcript the result is paired in front of the seam and behind it, but for one orphan result message that can only be the first of the kept suffix; without a cut it is paired |
| `SentContents.RoundsAreDropped` | koraku/agent/context_manager.py:120-142 | dropping completed rounds leaves out exactly the two messages of each: calls without anything to read, their results, and speech right behind them |
| `SentContents.CleanedIs` | koraku/agent/context_manager.py:34-49 | in front of the cuts: all messages in order but those of completed rounds when these are compacted, each with its role and all of its blocks but thinking, long results cut down |
| `SentContents.CutsAre` | koraku/agent/context_manager.py:189-271 | which of these are sent, limit by limit: all, the first and the last ones, or the first, a summary and the last eight |
| `SentContents.LastIsSent` | koraku/agent/context_manager.py:34-49 | the last message of the transcript is always sent, and as the last one |
| `Canonical.AssistantOpenAiMessage` | koraku/llm/canonical.py:107-138 | the loop builds the message of the specification |
| `Canonical.UserOpenAiMessages` | koraku/llm/canonical.py:141-166 | the loops build the text message and one `tool` message per result, in order |
| `Canonical.OpenAiChatMessages` | koraku/llm/canonical.py:169-199 | the loop translates message by message |
| `ChatContents.AssistantSays` | koraku/llm/canonical.py:107-138 | the text of the message is the lines of all blocks that are no calls, and its calls are those blocks that are, in order, each with its id or a made-up one, its name and its encoded input |
| `ChatContents.UserSays` | koraku/llm/canonical.py:141-166 | the text first, if it says anything, then one `tool` message with id and content for each result, in order; with an image the blocks as they are |
| `ChatContents.PlainSays` | koraku/llm/canonical.py:169-175 | a plain message keeps its place, role and text |
| `ChatContents.LinesOfTwo` | koraku/llm/canonical.py:133 | the parts of a text lie on lines of their own, and empty ones take none |
| `Canonical.TranslationAnswersCalls` | koraku/llm/canonical.py:107-199 | a paired transcript translates to one whose `tool_calls` messages are directly followed by `tool` messages answering their ids in order, exactly when no tool use has an empty id |
| `Canonical.EmptyIdIsUnanswered` | koraku/llm/canonical.py:107-166 | a paired transcript with an empty id whose translation leaves the call unanswered |
| `Canonical.SentTranscriptIsAnswered` | koraku/llm/canonical.py:169-199 | what the context manager sends, cut or not, translates to answered calls exactly when no sent tool use has an empty id and the first message behind the seam brings no results |
| `PendingInteractions.Interactions.Enter` | koraku/agent/pending_interactions.py:31-38 | the registering step of the protocol |
| `PendingInteractions.Interactions.ResolveUnderLock` | koraku/agent/pending_interactions.py:41-45 | the popping step of `resolve`, false at once without an entry |
| `PendingInteractions.Interactions.ResolveFuture` | koraku/agent/pending_interactions.py:44-48 | the completing step of `resolve`, true exactly when the future was not done |
| `PendingInteractions.Interactions.CancelUnderLock` | koraku/agent/pending_interactions.py:51-53 | the popping step of `cancel` |
| `PendingInteractions.Interactions.CancelRunUnderLock` | koraku/agent/pending_interactions.py:59-64 | the loop pops exactly the entries of the run |
| `PendingInteractions.Interactions.CancelFuture` | koraku/agent/pending_interactions.py:65-67 | one completing step of `cancel` or `cancel_run` |
| `PendingInteractions.Interactions.WaiterUnderLock` | koraku/agent/pending_interactions.py:78-79 | the popping step of a waiter whose time is up |
| `PendingInteractions.Interactions.WaiterFailsFuture` | koraku/agent/pending_interactions.py:54-56 | the completing step of that waiter |
| `PendingInteractions.Interactions.WaiterLeaves` | koraku/agent/pending_interactions.py:81-83 | the final pop of every waiter |
| `PendingInteractions.SafeInEveryRun` | koraku/agent/pending_interactions.py:31-83 | under every interleaving: a registered id has an unfinished future, no future is completed twice, at most one `resolve` per id returns true, and a waiter's answer is the body of that one |
| `PendingInteractions.WinnerIsDelivered` | koraku/agent/pending_interactions.py:70-83 | once a `resolve` returned true, a waiter that has neither timed out nor been cancelled has received, or will receive on waking, exactly its body |
| `PendingInteractions.TrueWithoutDelivery` | koraku/agent/pending_interactions.py:41-48 | for every id and body there is a run in which `resolve` returns true and the waiter has timed out |
| `PendingInteractions.RegisteredOnce` | koraku/agent/pending_interactions.py:27-38 | no id is registered twice in a run |
| `ToolExecutor.ResolveToolFromActive` | koraku/agent/tool_executor.py:35-40 | the first active tool with the aliased name, or none when there is none |
| `ToolExecutor.MaybeRequestToolApproval` | koraku/agent/tool_executor.py:108-151 | the user is asked exactly for sensitive tools, and the answer decides |
| `ToolExecutor.ApplyPreToolHooks` | koraku/agent/tool_executor.py:153-184 | allowed exactly when mode, user and hook allow it; the input that replaces the model's is the hook's when it has one, else what the user put in its place when asked, if that is an object, else none; the hook is shown the user's input or the model's |
| `ToolExecutor.RunWithRetries` | koraku/agent/tool_executor.py:238-287 | one to three attempts on the chosen input, stopping at the first that succeeds, and the result of the last |
| `ToolExecutor.ExecuteSingleTool` | koraku/agent/tool_executor.py:186-287 | the handler runs exactly when the call is whole, its tool exists and nothing objects; the question comes first; a refused call gets the refusal that its first obstacle words; the result carries the call's id; only an exception of the hook escapes |
| `ToolExecutor.RanIsAttempt` | koraku/agent/tool_executor.py:238-287 | every recorded attempt is a call of the first tool with the aliased name on the recorded input, and they are numbered in order |
| `ToolExecutor.RanInputs` | koraku/agent/tool_executor.py:153-225 | the input of every attempt: the hook's override; without one the object that the user put in place of the input when asked about the call; otherwise, and always without a sink, the model's |
| `ToolExecutor.ReplacementRuns` | koraku/agent/tool_executor.py:108-151 | a sensitive call that is approved with another input runs on that input only |
| `ToolExecutor.ModesRestrict` | koraku/agent/tool_executor.py:153-172 | with a sink, the read-only and the plan mode run only tools of their lists |
| `ToolExecutor.RanResult` | koraku/agent/tool_executor.py:238-287 | the result is the text of the last attempt, an error exactly when that failed, with a note on the attempts |
| `ToolExecutor.RefusedFor` | koraku/agent/tool_executor.py:108-225 | what a refused call is told, by its first obstacle: arguments that are not whole, no such tool, the mode, the user, the hook |
| `ToolExecutor.ExecuteToolsParallel` | koraku/agent/tool_executor.py:47-106 | results answer the calls one by one in order; an escaped exception becomes an error result with its message, except for a lone call |
| `ToolExecutor.SensitiveRunsAreApproved` | koraku/agent/tool_executor.py:108-151 | in `confirm_sensitive` mode every attempt of a sensitive tool comes after its own question answered with approval, exactly when an event sink is bound or the call is not one that will run a sensitive tool |
| `ToolExecutor.UnboundRunsUnasked` | koraku/agent/tool_executor.py:195-225 | without a sink a shell call runs unasked, whatever the user would answer |
| `ToolExecutor.ApprovalWasResolved` | koraku/agent/tool_executor.py:118-146 | the approval is the body of a `resolve` that returned true, whatever else happens in the process |
| `ToolExecutor.OwnApprovals` | koraku/agent/tool_executor.py:108-151 | calls that run sensitive tools have each a `resolve` of their own: no answer serves two |
| `ReactLoop.LoopTracker.Record` | koraku/agent/budget.py:251-257 | the list of at most sixteen calls is the end of the full history |
| `ReactLoop.LoopTracker.HasRepeat` | koraku/agent/budget.py:259-262 | the bounded list decides as the full history would: its last two calls are equal |
| `ReactLoop.ReadStream` | koraku/agent/run.py:641-680 | everything up to the first interruption is forwarded, and the reply is the last message among it |
| `ReactLoop.SynthesizeFinalReply` | koraku/agent/run.py:507-550 | the instruction joins the transcript, the processed transcript is sent, the stream is forwarded; then either it fails, or the reply is stored as it is and one completed event ends the run |
| `ReactLoop.RunTools` | koraku/agent/run.py:735-771 | every call is announced to the stream and gets one result in order, which is the end of its own record, or the notice of a phase that timed out or whose hook raised a `TimeoutError`; the results become one user message; any other exception of a lone call's hook leaves the phase |
| `ReactLoop.ReadRound` | koraku/agent/run.py:627-733 | everything delivered is forwarded; a round's stream ends the run in the way its interruption or its reply asks for, or the reply with its calls joins the transcript; transcript and events are given exactly |
| `ReactLoop.BuildContext` | koraku/agent/run.py:605-618 | the context is the processed transcript and the notes in order, and paired as far as the context manager promises |
| `ReactLoop.CallModel` | koraku/agent/run.py:605-771 | the context goes out, the stream is forwarded behind it; a round that goes on appends the reply and the results of its calls, those and nothing else, and emits the calls and the results; a round that ends the run appends and emits what its reason asks for |
| `ReactLoop.TakeRound` | koraku/agent/run.py:572-771 | one step is counted and at most one stream opened, on the processed transcript, the working memory if there is any, and once the budget warning when it is due; transcript, contexts and events are those of the call, of the synthesis when the time is up, or of the cancellation |
| `ReactLoop.Steer` | koraku/agent/run.py:773-775 | the calls of the round join the history, and the warning stands behind the results exactly when the last two recorded calls are equal |
| `ReactLoop.IterateReactSteps` | koraku/agent/run.py:552-810 | for every model, clock, user and set of tools, round by round: what is sent is the processed transcript with its notes; the transcript grows by the reply, the results that answer it and, exactly when the last two recorded calls are equal, the warning; the events are the context, the stream, the calls, the results and the memory; the round that ends the run adds what its reason asks for. A run that returns has exactly one terminal event, the last, and a run that raises has none; steps at most `max_rounds`, streams at most one more than steps; the run ends in the first round with a reason to, in the fitting way; pairing is kept exactly unless a synthesized reply used tools or an exception left the tool phase; everything sent is paired but for one orphan behind a cut |
| `ReactLoop.ResultsReachTheModel` | koraku/agent/run.py:605-771 | right in front of its notes the next round sends the results of the round before, cut down, or the warning that stands behind them |
| `ReactLoop.UnansweredReply` | koraku/agent/run.py:507-550 | a synthesized reply with calls, and a reply whose tool phase raised, leave any paired transcript unpaired |
| `SseMapper.KorakuStreamState.ToolStartedEvents` | koraku/streaming/koraku_sse.py:92-126 | dictionary, started ids and event are those of the function of the old state |
| `SseMapper.KorakuStreamState.MapRawEvent` | koraku/streaming/koraku_sse.py:488-557 | state and outputs for one provider event |
| `SseMapper.KorakuStreamState.MapResults` | koraku/streaming/koraku_sse.py:558-588 | the loop over result blocks pops calls as the recursive definition does |
| `SseMapper.KorakuStreamState.MapKorakuStreamEvents` | koraku/streaming/koraku_sse.py:422-605 | state and outputs for one event |
| `SseContents.MessagesLoseTheirCalls` | koraku/streaming/koraku_sse.py:239-253 | a message is passed on with all of its blocks in order but the tool calls, and not at all when it has nothing else |
| `SseContents.OthersPass` | koraku/streaming/koraku_sse.py:488-557 | events that open, fill or close no block are passed on as they are, behind the usage of a message if there is any |
| `SseContents.EndsAre` | koraku/streaming/koraku_sse.py:385-416 | stop reason, exit code, flags and error for each way in which the lead run ends, and nothing for a sub-agent |
| `SseContents.NestedIs` | koraku/streaming/koraku_sse.py:140-154 | whose event it is, an integration's before a task's |
| `SseScopes.ScopedIs` | koraku/streaming/koraku_sse.py:172-186 | every id is stored under its scope's prefix and the id without that prefix |
| `SseScopes.SharedKeyIff` | koraku/streaming/koraku_sse.py:172-186 | two ids of any scopes share a key exactly when one prefix starts with the other and the rest of it, put before the one bare id, gives the other |
| `SseScopes.PlainScopesShareIff` | koraku/streaming/koraku_sse.py:172-186 | among scopes whose agents have no colon in their names, exactly when the lead's id spells out the other's key |
| `SseScopes.PlainEventsShareNone` | koraku/streaming/koraku_sse.py:172-186 | events with plain ids and agent names share no key between scopes |
| `SseScopes.MapIsOps` | koraku/streaming/koraku_sse.py:439-588 | on every event the dictionary changes and the tool events arise as the event's operations under its scope's prefix say |
| `SseScopes.ScopesDoNotInterfere` | koraku/streaming/koraku_sse.py:422-588 | in any interleaving in which no operation of another scope shares a key, the tool events of one scope are those of that scope run alone, and those of a dictionary of its own keyed by bare ids |
| `SseScopes.IdsMayCollide` | koraku/streaming/koraku_sse.py:172-186 | a run with a prefixed lead id in which a sub-agent's result shows the lead's tool |
| `SseScopes.StartedAsOftenAsBegun` | koraku/streaming/koraku_sse.py:92-126 | the `started` events of a key are as many as the operations that begin a call under it |
| `SseScopes.StartedOnceIff` | koraku/streaming/koraku_sse.py:92-126 | no id is started twice exactly when no two operations of the run begin calls under one key |
| `SseScopes.NativeCallStartsTwice` | koraku/streaming/koraku_sse.py:439-525 | a native call, announced and then executed, is started twice |
| `SseSuppression.ToolUsesAreTakenOut` | koraku/streaming/koraku_sse.py:488-557 | along a bracketed provider stream the forwarded block events are the stream's without its tool use blocks, are bracketed themselves, and the suppressed indexes are those of the open tool uses, none at the end |
| `SseSuppression.BehindACutStreamIff` | koraku/streaming/koraku_sse.py:526-550 | behind a stream cut anywhere, the next one keeps everything but its tool uses exactly when no text delta or stop of its own falls at an index still left suppressed |
| `SseSuppression.TextBehindACutToolUse` | koraku/streaming/koraku_sse.py:542-550 | behind a stream cut inside a tool use, a text block at its index keeps only its start |
| `SseInterleaving.InterleavedStreamsIff` | koraku/streaming/koraku_sse.py:526-550 | for any number of bracketed streams, interleaved and cut in any way: without a clash every block event is treated as its own stream asks; when all blocks are closed at the end, only then |
| `SseInterleaving.EachStreamIsKept` | koraku/streaming/koraku_sse.py:526-550 | without a clash each stream's share of the forwarded block events is its own without its tool uses |
| `SseInterleaving.ForwardedIsJoined` | koraku/streaming/koraku_sse.py:422-557 | the block events counted tick by tick are those of the whole run's output |
| `SseInterleaving.CollisionLosesText` | koraku/streaming/koraku_sse.py:526-550 | two bracketed streams, however tagged, of which one loses its text and its end to the other's tool use |
| `SseCompletion.CompletesForLeadOnly` | koraku/streaming/koraku_sse.py:589-605 | the completions are those of the untagged terminal events, in order |
| `SseCompletion.OnlyTheLoopEnds` | koraku/agent/delegation.py:227-257 | in any mixture of a lead run, side events and tagged nested runs only the lead run's events can end the chat stream |
| `SseCompletion.RequestCompletesOnce` | koraku/api/chat_routes.py:345-366 | the chat stream of a request completes exactly once: as the last output of the lead's loop says, or as the error does that is emitted for a run that failed, with any number of nested runs mixed in |
| `SseCompletion.LoopCompletesOnce` | koraku/streaming/koraku_sse.py:385-416 | the same for every way in which the loop ends, with exit code, flags and error of the one completion |
| `RateLimit.RateLimiter.EnforceInMemory` | koraku/core/rate_limit.py:73-87 | only the key's bucket changes, to the trimmed one with the accepted request; Retry-After lies between 1 and the window |
| `RateLimit.RateLimiter.EnforceRateLimit` | koraku/core/rate_limit.py:90-119 | which limiter decides, and that a limit of zero or less accepts everything and records nothing |
| `RateLimit.DequeRefinesHistory` | koraku/core/rate_limit.py:73-87 | the bucket is the part of the full history that the latest window holds |
| `RateLimit.AcceptedIffRoom` | koraku/core/rate_limit.py:76-87 | a request is accepted exactly when fewer than the limit of accepted ones lie in the window that it closes |
| `RateLimit.NoIntervalOverflows` | koraku/core/rate_limit.py:73-87 | no closed interval of the window's length holds more acceptances than the limit |
| `RateLimit.CountersOutliveWindows` | koraku/core/redis_client.py:97-107 | a counter holds the number of requests of its window, and its expiry lies behind the window's end |
| `RateLimit.SharedAcceptsIff` | koraku/core/rate_limit.py:103-117 | a request is accepted exactly when fewer requests than the limit, accepted or not, came before it in its window |
| `RateLimit.AtMostTwice` | koraku/core/rate_limit.py:103-117 | at most twice the limit in any interval of the window's length |
| `RateLimit.TwiceIsReached` | koraku/core/rate_limit.py:103-117 | for every limit and window a burst around the end of a window reaches twice the limit |
| `SessionStore.MemorySessionStore.Oldest` | koraku/core/session_store.py:109-110 | a key whose session was updated no later than any other, of several such the first in the dictionary's order |
| `SessionStore.MemorySessionStore.Prune` | koraku/core/session_store.py:99-111 | no session left is expired, at most the maximum is left, an evicted unexpired one is no newer than any survivor and stands before those of its age, the survivors keep their order, and nobody is evicted without need |
| `SessionStore.MemorySessionStore.Create` | koraku/core/session_store.py:67-80 | a fresh session with the given owner, stored under its own id |
| `SessionStore.MemorySessionStore.ResumeOrCreate` | koraku/core/session_store.py:51-65 | the stored session is handed out exactly when owner, organization and age match |
| `SessionStore.MemorySessionStore.GetOrCreate` | koraku/core/session_store.py:36-65 | a session with the requested owner under its own id, resumed only when it matched, at most one more than the maximum stored, the other sessions untouched |

## Left out

- HTTP, FastAPI routes, Redis, httpx, Anthropic, Composio, Blaxel, MCP and Supermemory: their replies are parameters.
- File, shell and web tools: a tool is an arbitrary function of its input and the attempt.
- JSON encoding and decoding are abstract: `raw_decode` consumes a non-empty prefix, decoding inverts encoding, encoded
  text has no line break. The rewriting of Ruby-style hashes is abstract too.
- Text is matched with ASCII white space, letters and case; other scripts are not modelled.
- The text of conversation summaries, of steering messages beyond their first sentence, and of working-memory notes.
- Heartbeats, progress messages, token estimates, usage figures, truncation flags and run artifacts.
- Overflow of the chat route's event queue: the events of a run are an unbounded sequence.
- Generators are modelled by methods that append to a list of events.
- The second check of a head in `feed` and `flush`, behind a marker at the start of the buffer: the first four
  attempts have already excluded it.
- In `_scan_angle_tool_calls` the white space in front of the JSON value is counted twice; the head has consumed it
  all, so both counts are zero and the model leaves them out.
- Cancellation of a single wait inside a tool call: a cancelled phase appears in the loop as its timeout.
- Post-tool hooks: their exceptions are suppressed and they change nothing in the result.
- Exceptions of the clean-up behind the loop, and the cancellation of a whole request by a disconnecting client.
- The Redis session store and Redis errors other than being unreachable; floating point rounding of clock readings.
- Automation scheduling, prompt texts, settings, provider resolution and the typed SDK classes: they carry no state over
  a run.
- ReactLoop.ReadStream: takes the clock and the cancel event from the polls instead of reading them, because they
  belong to the world.
- PendingInteractions.SafeInEveryRun: assumes fresh ids from `new_interaction_id`, as random UUIDs are.
- FilterChunking.ChunkIndependence: gives no condition that is also necessary, because for text with braces the decoder's
  answers on every prefix decide, and the decoder is a parameter; the calls in pieces above assume a decoder that reads an
  object where it ends and no beginning of it.
- SseSuppression.ToolUsesAreTakenOut: is about one provider stream; `SseInterleaving.InterleavedStreamsIff` is about
  several.
