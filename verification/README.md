# Van-Goal, modelled and proved

Van-Goal is a client for coding agents. It folds the events of a turn into a transcript, keeps
the screen and the connection on the same session while tasks interleave, and gives back what
was typed when it could not be sent. This project models those parts in Dafny and proves what
they promise. `dafny verify dfyconfig.toml` checks all of it.

- **The desktop's session protocol.** `Screen` is the locked state and its sections, `Protocol`
  the step system around it: user commands, the tasks they spawn, one lock per backend, and a
  program counter per task, with one step per section between two awaits or lock operations.
  `ScopeAgreement` proves one invariant over all interleavings. `Routing`, `PromptLedger`,
  `Chats` and `Handoff` draw the conclusions: which session the adapter is scoped to, where a
  prompt goes, that none is lost or sent twice, which conversation is on screen, and when a
  queued prompt can end up in another one. `Completion` is the other half, progress: every task
  ends when it is left alone, and where.
- **The transcript.** `StreamMerge` merges the chunks of several streams. `Conversation` folds
  events into messages and merges what a backend reports; `Turns`, `Bubbles`, `Growth` and
  `History` prove what a whole turn and a whole merge leave.
- **Server-sent events.** `Utf8`, `Sse` and `SseRoundTrip`: the incremental parser of part of
  section 9.2.6 of the WHATWG HTML Standard, any chunking, and printing followed by parsing.
- **Caches and deltas.** `SessionCache`, `CacheRefinement` and `Parking` (the phone's parked and
  archived conversations as one plain map, and which of them it keeps whole),
  `Delivery`, `WindowSync` and `Drafting` (what the window
  holds after a poll), `PhoneQueue`, `Settings` and `SettingsRefinement`.
- **Markup and icons.** `Inline`, `InlineShape`, `InlineRoundTrip`, `Delimiters`, `Escaping` and
  `Runs` for inline Markdown, `FloodFill` for the launcher icon's background.

Where the source updates an object in place there is a class with those fields; each of its
methods is proved to take the old state to a function of it, and the lemmas are about that
function. Random ids and the answers of backends are parameters, and so is the Unicode table
that says what is a letter.

Six promises in the source's own comments or that a reader would expect turn out not to hold as
stated. The code is kept as it is, with a concrete case and the exact condition:

- A queued prompt can be sent into a conversation it was not typed in (`connect.rs:361-363`
  says never), exactly when that conversation is left between the two locked sections of the
  send and its session is not what was opened last: `Handoff.PromptsStayHomeWhen`.
- Taking a prompt back can drop a file the backend had streamed in (`send.rs:258-259` says it is
  kept): `Turns.TakeBackKeepsFilesWhen`.
- Deltas do not simply add up: `StreamMerge.ChunksAddUpWhen`.
- A turn can draw a second tool bubble, exactly when a tool call finds a bubble of white space
  after the one with tools: `Bubbles.TwoToolBubblesWhen`.
- A prompt the phone could not deliver is not always given back (`client.rs:1170-1171` says it
  is): not when its chat, with a session or without, was evicted or its backend left:
  `CacheRefinement.PromptsAreGivenBackWhen`.
- After a poll that carries only texts the window can miss a message:
  `WindowSync.WindowIsWholeWhen`.

## Model

| member | source | states |
|---|---|---|
| `Screens.NothingQueuedIsLost` | crates/desktop/src/connect.rs:361-380 | leaving a conversation gives back every queued prompt: its text and its files are in the one draft that is restored, and nothing is restored only when nothing was queued |
| `Screens.Desktop.ReturnPendingToComposer` | crates/desktop/src/connect.rs:364-380 | the loop empties the queue into one restored draft with exactly the texts and files of the queue |
| `Screens.Desktop.Open` | crates/desktop/src/sessions.rs:113-142 | opening a session starts a new view on it, unattached, and gives the queue back |
| `Screens.Desktop.NewChat` | crates/desktop/src/sessions.rs:226-241 | a new chat starts a new view on nothing and gives the queue back |
| `Screens.Desktop.SwitchBackend` | crates/desktop/src/connect.rs:318-354 | switching backends blanks the view, turns the backend on and gives the queue back |
| `Screens.Desktop.Submit` | crates/desktop/src/send.rs:37-68 | which prompts are ignored, refused, taken as an answer, queued or sent, and what each verdict leaves behind |
| `Screens.Desktop.TurnOver` | crates/desktop/src/send.rs:291-303 | the end of a turn pops the next queued prompt only when nothing is being sent |
| `Screens.Desktop.TakeBack` | crates/desktop/src/send.rs:247-274 | a failed prompt goes back to the composer; the turn is ended only if it is still the last one |
| `Screens.Desktop.SendQueuedNow` | crates/desktop/src/send.rs:412-428 | the queued prompt moves to the front, the order of the others stays, and what comes next is the stop of the running turn or, with none running, the end of a turn, in which that prompt is due |
| `Screens.Desktop.EditQueued` | crates/desktop/src/send.rs:430-441 | the first prompt with that id leaves the queue and is restored to the draft |
| `Screens.Desktop.CancelQueued` | crates/desktop/src/send.rs:443-447 | exactly the prompts with that id leave the queue, as often as they were in it, and the others keep their order |
| `Screens.Desktop.AttachIfCurrent` | crates/desktop/src/sessions.rs:197-221 | a resume result is applied only to the view and selection that asked for it |
| `Screens.Desktop.AdoptIfCurrent` | crates/desktop/src/send.rs:181-204 | a created session becomes the one on screen only for the view generation that created it |
| `ScopeAgreement.StepsKeepSafe` | crates/desktop/src/sessions.rs:113-260 | one inductive invariant over screen, scopes, lock owners and suspended tasks is kept by every step of every interleaving |
| `ScopeAgreement.RunsAreSafe` | crates/desktop/src/sessions.rs:113-260 | that invariant holds in every reachable state |
| `Routing.ScopeAgreesWithView` | crates/desktop/src/sessions.rs:197-260 | in every run: with a live session the adapter is scoped to no other; in a blank chat to nothing, unless its clearing task is pending or its own new session is being adopted |
| `Routing.AdmittedFramesAreOurs` | crates/core/src/agent/session_scope.rs:70-78 | a labelled turn frame that passes the strict filter and the screen's gate belongs to the live session, apart from the named window of a blank chat |
| `Routing.BindingsAreForever` | crates/desktop/src/state.rs:184-207 | a view generation, once bound to a session, is bound to it in every later state |
| `Routing.PromptsGoToTheirView` | crates/desktop/src/send.rs:71-177 | a delivered prompt was put on screen in the view generation it is delivered for, and submitted to the session that view is live on, before or after |
| `Routing.DeliveredWhereLive` | crates/desktop/src/send.rs:106-204 | in every run each delivered prompt went to a session that was live on screen, at some moment, in the view generation it was delivered for |
| `Routing.OneSessionPerView` | crates/desktop/src/send.rs:106-204 | all prompts delivered for one view go to one session, and a view adopts at most one created session |
| `PromptLedger.PromptsAreConserved` | crates/desktop/src/send.rs:37-104 | in every run each accepted prompt is in exactly one place (queue, in flight, delivered, given back, cancelled), and one that was given back is in a draft the composer received |
| `PromptLedger.NoPromptIsInvented` | crates/desktop/src/send.rs:412-447 | every prompt in any of those places was accepted, with its text and files unchanged |
| `PromptLedger.RunsAreAccounted` | crates/desktop/src/send.rs:247-308 | the books balance after every step, across failure, edit, send-now, opening, new chat and backend switch |
| `PromptLedger.AcceptedWhen` | crates/desktop/src/send.rs:37-68 | which inputs are accepted, said without the verdicts: exactly those with a file or a text that is not blank, while no question is open and the backend is on; what each input leaves behind |
| `Chats.RunsKeepChatsOk` | crates/desktop/src/sessions.rs:113-241 | in every run the session on screen is the one the conversation on screen is known by, a chat without a session is nobody's, and no two sessions are one conversation |
| `Chats.AtHomeWhen` | crates/desktop/src/sessions.rs:113-241 | after any run the conversation that was on screen is on screen exactly when no step left it or the last one that left a chat opened its session, including one it created itself before it was left |
| `Handoff.UninterruptedPromptsStayHome` | crates/desktop/src/send.rs:288-308 | if no step leaves the chat between the two locked sections of a send, every prompt goes on screen in the conversation it was typed in |
| `Handoff.QueuedPromptsAreHome` | crates/desktop/src/connect.rs:361-363 | in every run, interrupted or not, what waits in the queue was typed in the conversation on screen |
| `Handoff.PendingPromptStaysWhen` | crates/desktop/src/send.rs:71-87 | from any state of the invariant with a prompt between its two locked sections, and whatever runs in between, it goes on screen in its own conversation, and with that conversation's session on screen if there is one, exactly when none of those steps left a chat or the last that did opened that session |
| `Handoff.PromptsStayHomeWhen` | crates/desktop/src/send.rs:288-308 | the same over every run from the start, for a prompt handed on by a submit or by the end of a turn |
| `Handoff.QueuedPromptCanReachAnotherSession` | crates/desktop/src/connect.rs:361-363 | a concrete run in which a queued prompt is delivered to a session it was not typed in, against the comment that it never is |
| `Handoff.DeliveryCompletes` | crates/desktop/src/send.rs:106-177 | an undisturbed delivery to an open session attaches the view to it and submits the prompt there, in the conversation it was typed in |
| `Completion.AloneEnds` | crates/desktop/src/send.rs:106-177 | left alone with its lock free every task ends, however each of its calls turns out |
| `Completion.DeliveryEnds` | crates/desktop/src/send.rs:106-204 | where every undisturbed delivery ends: with no failing call in a submission to the session the view is live on, the one it shows, or a new one for a blank chat, adopted and filtered for; with one the prompt is back in the composer |
| `Completion.OpeningEnds` | crates/desktop/src/sessions.rs:144-222 | where every undisturbed opening ends: live and filtered for with no failing call and the view still current, otherwise on screen and not live |
| `Completion.ClearingScopeEnds` | crates/desktop/src/sessions.rs:226-260 | an undisturbed clearing empties the scope exactly if its chat is still blank and on screen; a disconnect always |
| `Completion.FirstPromptIsDelivered` | crates/desktop/src/send.rs:150-204 | from the start with no session: the first prompt creates a session, which is then live, selected and filtered for, and goes to it; if a call fails it is back in the composer and nothing is being sent |
| `Completion.QueueIsDelivered` | crates/desktop/src/send.rs:291-308 | turn after turn, undisturbed and with no failing call, the whole queue goes to the session on screen in its order |
| `Completion.OpenedSessionGoesLive` | crates/desktop/src/sessions.rs:113-222 | opening a session, undisturbed: nothing of the old view stays but the composer, and the session is live and filtered for unless a call fails |
| `Completion.NewChatIsScopedToNothing` | crates/desktop/src/sessions.rs:226-260 | a new chat, undisturbed, ends blank with an adapter that filters for nothing |
| `Completion.SwitchedBackendIsBlank` | crates/desktop/src/connect.rs:318-354 | another backend starts blank and on, and both adapters end filtering for nothing |
| `Completion.StaleOpeningResumesNothing` | crates/desktop/src/sessions.rs:149-151 | an opening whose view has moved on before it resumes leaves the adapter alone |
| `Completion.StaleResumingEnds` | crates/desktop/src/sessions.rs:194-207 | one whose view moves on while it resumes changes nothing on screen; the adapter filters for nothing if the new view is blank, and else for what the resume made of it |
| `Completion.NewStreamsEmptyTheScope` | crates/desktop/src/connect.rs:160-212 | opening a stream that was not up empties the adapter's scope |
| `Completion.ViewsStartTheirTask` | crates/desktop/src/sessions.rs:137-150 | going to another view starts exactly one task: an opening if the backend is on, a clearing for a blank chat, a disconnect of the backend that is left |
| `Completion.PoweredBackendsTakePrompts` | crates/desktop/src/send.rs:50-62 | a backend that is off takes no prompt, one that is on takes every prompt that says something unless a question is open |
| `Completion.LostStreamsKeepTheView` | crates/desktop/src/events.rs:106-119 | a lost stream leaves the view on its session, not live; the turn ends only if it is given up |
| `Completion.SentNowGoesNext` | crates/desktop/src/send.rs:412-428 | a queued prompt that is sent now is the next one handed on once the running turn is stopped; the others wait in their order |
| `Completion.EditedGoesToTheComposer` | crates/desktop/src/send.rs:430-441 | a queued prompt that is edited leaves the queue for the composer with its text and files, and nothing else on screen changes |
| `Completion.EndedTurnAsksNothing` | crates/desktop/src/send.rs:288-308 | the end of a turn closes an open question and hands on the first queued prompt unless another one is being sent |
| `Completion.DisconnectingKeepsTheScreen` | crates/desktop/src/connect.rs:262-316 | a disconnect keeps what is shown and queued, ends the turn and the live session, and empties the scope |
| `StreamMerge.OverlapWithSuffix` | crates/core/src/chat.rs:69-86 | the loop finds the longest chunk prefix of at most 512 bytes that the buffer ends with, or none when the longest has fewer than 4 bytes |
| `StreamMerge.MergeStreamChunk` | crates/core/src/chat.rs:47-64 | one chunk merged into a buffer: the old buffer is a prefix and the chunk a suffix of the result |
| `StreamMerge.RepeatIsSwallowed` | crates/core/src/chat.rs:57-60 | a chunk delivered twice in a row counts once |
| `StreamMerge.ChunksAddUpWhen` | crates/core/src/chat.rs:47-64 | exactly when a chunk is simply appended: one of the two is empty, or the chunk neither continues the buffer nor repeats its end |
| `StreamMerge.TwoEqualDeltasShowOnce` | crates/core/src/chat.rs:57-60 | the reply haha sent as two deltas shows once |
| `StreamMerge.SnapshotsHoldTheLast` | crates/core/src/chat.rs:51-56 | a stream of growing snapshots holds exactly the last |
| `StreamMerge.StreamsOnlyGrow` | crates/core/src/chat.rs:47-64 | over a whole run nothing a stream said is taken back |
| `StreamMerge.BestStreamText` | crates/core/src/chat.rs:95-101 | the text shown is the last of the longest, in character count, in the order of the map |
| `StreamMerge.StreamIsItsOwn` | crates/core/src/chat.rs:88-101 | a stream's buffer depends only on what its own source sent |
| `StreamMerge.InterleavingDoesNotMatter` | crates/core/src/chat.rs:363-371 | however the sources interleave, the same text is shown |
| `StreamMerge.ShownTextNeverShrinks` | crates/core/src/chat.rs:363-371 | within a turn the shown text never gets shorter |
| `Conversations.Conversation.BeginTurnWithPlaceholder` | crates/core/src/chat.rs:165-183 | the prompt and a streaming placeholder are appended, the buffers cleared and the turn marked in flight |
| `Conversations.Conversation.MergeTranscript` | crates/core/src/chat.rs:205-285 | the two-cursor loop computes the merge whose properties are proved in History |
| `Conversations.Conversation.SettleReplies` | crates/core/src/chat.rs:289-296 | the loop clears the streaming flag of exactly the assistant messages |
| `Conversations.Conversation.FinishTurn` | crates/core/src/chat.rs:289-300 | everything settled, empty shells dropped, buffers cleared, no turn in flight |
| `Conversations.Conversation.StartMessage` | crates/core/src/chat.rs:317-332 | a placeholder appears only in a turn whose last message is not a streaming reply |
| `Conversations.Conversation.AppendAttachment` | crates/core/src/chat.rs:334-361 | a file joins the last streaming reply unless the turn has its path already |
| `Conversations.Conversation.ApplyDelta` | crates/core/src/chat.rs:363-394 | the best text replaces that of the last streaming bubble without tools, or opens one |
| `Conversations.Conversation.CompleteMessage` | crates/core/src/chat.rs:399-438 | the final text goes into the last streaming reply, or after it if that holds tools |
| `Conversations.Conversation.AppendToolCall` | crates/core/src/chat.rs:440-477 | a tool record joins the last blank streaming reply unless the turn has it already |
| `Conversations.Conversation.Apply` | crates/core/src/chat.rs:302-315 | one event folded, with the change it reports |
| `Conversations.Conversation.TakeBack` | crates/desktop/src/send.rs:247-286 | the prompt and the placeholders after it leave the list |
| `Turns.EveryItemExactlyOnce` | crates/core/src/chat.rs:302-394 | after any events, in any order and number: what was before the turn is untouched, streaming bubbles come last, at most one has no tools, and each reported tool record and file path is in the turn exactly once |
| `Turns.TurnReportsExactlyOnce` | crates/core/src/chat.rs:440-477 | the same from the moment a prompt is submitted to a settled transcript |
| `Turns.StreamedTextIsShown` | crates/core/src/chat.rs:372-394 | all through a turn the best streamed text stands in a streaming bubble without tools |
| `Bubbles.ToolCallSplitsWhen` | crates/core/src/chat.rs:461-475 | a tool call makes a second tool bubble exactly when the turn does not have it yet and a streaming bubble of white space comes after the one with tools |
| `Bubbles.TwoToolBubblesWhen` | crates/core/src/chat.rs:120-127 | over every run of events of any kind there are two tool bubbles exactly when some call met that guard and the turn has not ended since |
| `Bubbles.AtMostTwoBubblesStream` | crates/core/src/chat.rs:120-127 | over a whole turn never more than two bubbles stream at once, one with the tools and one with the text, unless a call met that guard |
| `Bubbles.TextDeltasNeverSplit` | crates/core/src/chat.rs:363-394 | no call meets the guard while no delta is only white space |
| `Bubbles.ToolKeepsOne` | crates/core/src/chat.rs:461-475 | a run of tool calls reads as one block: a call joins the bubble that has tools or makes the blank one it |
| `Bubbles.WhiteSpaceMakesAnotherToolBubble` | crates/core/src/chat.rs:463-475 | a delta of white space between two tool calls makes a second tool bubble |
| `Turns.CompletionSettles` | crates/core/src/chat.rs:399-438 | from any state a completion leaves nothing streaming, no empty shell, empty buffers and no turn in flight |
| `Turns.CompletionIsIdempotent` | crates/core/src/chat.rs:399-438 | a second completion without text of its own changes nothing |
| `Turns.ReplyEndsTranscript` | crates/core/src/chat.rs:399-438 | a completion with a text ends with that text trimmed, whatever was streamed; one without ends with the trimmed best stream; a blank one writes nothing; it goes into the last streaming reply, with its id and files, if that has no tools, else into a new message after it |
| `Turns.TurnEndsWithReply` | crates/core/src/chat.rs:399-438 | after a prompt and any events a completion with a text ends the transcript with it, and what was there before and the prompt stay |
| `Turns.StartShowsOneReply` | crates/core/src/chat.rs:317-332 | a reply that starts in a turn has one placeholder at the end, the one there is or a new one; outside of a turn it draws nothing |
| `Growth.BegunTurnIsInFlight` | crates/core/src/chat.rs:155-183 | from the prompt on the turn is in flight exactly until an event ends it |
| `Growth.TurnOnlyGrows` | crates/core/src/chat.rs:302-394 | over any events of a turn no message goes or changes its place, and each keeps its records and files in the order they were reported |
| `Growth.DeltasReportTheirText` | crates/core/src/chat.rs:363-394 | every delta with a text is reported as the one text that moved, which is the best stream and stands in a bubble |
| `Growth.MergedChatsStreamAnew` | crates/core/src/chat.rs:189-212 | a merge ends no turn, and the text streamed after it starts over |
| `Turns.TextIsRepeatedWhen` | crates/core/src/chat.rs:417-434 | a completion without text of its own says the streamed text again, in a new message after the bubble that keeps it, exactly when something came after that bubble; otherwise the bubble itself ends the transcript and all before it stays |
| `Turns.TakeBackUndoesBegin` | crates/desktop/src/send.rs:245-270 | taking back an unanswered prompt restores the transcript before it |
| `Growth.TakeBackLeavesTheRest` | crates/desktop/src/send.rs:247-286 | taking a prompt back drops it and the text-less bubbles right after it and nothing else, and ends the turn only if it is the last one |
| `Turns.TakeBackKeeps` | crates/desktop/src/send.rs:255-270 | every tool call streamed in is kept; files are lost as often as they occur in the text-less bubbles right after the prompt |
| `Turns.TakeBackKeepsFilesWhen` | crates/desktop/src/send.rs:258-263 | every file is kept exactly when none of those bubbles holds one |
| `Turns.FileOnlyReplyIsLost` | crates/desktop/src/send.rs:258-263 | a reply that is only a file is lost, against the comment that anything streamed in is kept |
| `History.MergeIsIdempotent` | crates/core/src/chat.rs:205-285 | merging the same history into the result of merging it changes nothing, for any local list |
| `History.MergeWeaves` | crates/core/src/chat.rs:205-285 | the result is the reported messages in order, enriched, and between them only file-only replies of the local list, in its order and each once |
| `History.EnrichedEnriches` | crates/core/src/chat.rs:237-266 | enriching a reported message loses none of its files or calls and adds each path and call id once |
| `History.NoFileIsLost` | crates/core/src/chat.rs:225-282 | every path on a local reply without text is in the result |
| `History.FirstLikeIsRetold` | crates/core/src/chat.rs:214-263 | said without the matching functions: a reported message takes the first local message of its role whose text is its own or, if that one holds files, its match text; with files it then has the local wording and every local path |
| `History.HistoryKeepsWordingAndFiles` | crates/core/src/chat.rs:205-285 | a history that tells the local texts, filed prompts with a suffix and their match text, merges to the local wording, with every path of every prompt |
| `History.ToolCallSurvivesWhen` | crates/core/src/chat.rs:196-204 | when the history is the text of what the client watched, a tool call survives exactly if some bubble it stands in holds a file or is followed by a reply with text in its turn |
| `Sse.FindFrameEnd` | crates/core/src/agent/xuexiaomi.rs:539-549 | the two searches together find the earliest separator of either kind |
| `Sse.FirstSeparatorFinishesFirst` | crates/core/src/agent/xuexiaomi.rs:539-549 | bytes that arrive later never put a separator in front of the one found |
| `Sse.ReadFrame` | crates/core/src/agent/xuexiaomi.rs:518-534 | the line loop reads the event name and the data lines of one frame |
| `Sse.SseParser.Push` | crates/core/src/agent/xuexiaomi.rs:513-536 | one push drains exactly the complete frames and keeps the rest |
| `Sse.SseParser.ReadBody` | crates/core/src/agent/xuexiaomi.rs:438-478 | reading chunk by chunk up to the frame that ends the turn takes the frames of the whole body up to that frame, wherever it was cut, and all of them when none does |
| `Sse.LeftoverHasNoFrame` | crates/core/src/agent/xuexiaomi.rs:516-517 | what is kept holds no complete frame |
| `Sse.AnyChunkingIsOnePush` | crates/core/src/agent/xuexiaomi.rs:504-536 | for any bytes and any cuts, inside a separator or a character, the pushes together equal one push |
| `Sse.ChunkingDoesNotMatter` | crates/core/src/agent/xuexiaomi.rs:504-536 | two ways of cutting the same bytes give the same frames and the same rest |
| `Utf8.LossyUndoesEncode` | crates/core/src/agent/xuexiaomi.rs:518 | lossy decoding gives back every string that was encoded |
| `SseRoundTrip.PrintedFramesComeBack` | crates/core/src/agent/xuexiaomi.rs:512-549 | frames of either line ending, with or without a name, with any number of data lines written with or without the blank and lines that mean nothing, printed and pushed in any chunks, come back in order and leave nothing; one without data is none |
| `SessionCache.OpenSession.RecordHistory` | crates/mobile/src/client.rs:136-158 | every parked session but the drafts, and the one on screen, are filed under this backend; nothing else in the archive changes |
| `SessionCache.OpenSession.SwitchTo` | crates/mobile/src/client.rs:175-207 | the conversation is put away, the first keys over the limit are evicted, and the asked one is brought back from the parked ones or the archive |
| `SessionCache.OpenSession.OpenOn` | crates/mobile/src/client.rs:359-367 | opening a session switches to it and leaves it unattached |
| `SessionCache.OpenSession.NewSession` | crates/mobile/src/client.rs:916-923 | a new session puts the conversation away and shows an empty one without an id |
| `SessionCache.OpenSession.Configure` | crates/mobile/src/client.rs:558-572 | another backend clears what is parked and the ids, after filing it under the old one |
| `SessionCache.OpenSession.Attach` | crates/mobile/src/client.rs:1005-1015 | a created or resumed session names the view and is filed |
| `SessionCache.OpenSession.RestorePrompt` | crates/mobile/src/client.rs:1170-1195 | the prompt leaves the conversation that holds it, the one on screen first, and is given back exactly when one on screen or parked does |
| `CacheRefinement.KeysDoNotMix` | crates/mobile/src/client.rs:144-153 | sessions of different backends never share a key in the archive |
| `CacheRefinement.RecordedAt` | crates/mobile/src/client.rs:136-158 | what filing leaves in the archive for every session of every backend |
| `CacheRefinement.RunsAgree` | crates/mobile/src/client.rs:135-212 | over every run the cache, evictions, drafts and archive included, agrees with a plain map from backend and chat to messages that is told only whether a chat is parked |
| `CacheRefinement.ReturningShowsTheLast` | crates/mobile/src/client.rs:175-207 | coming back to a session shows the messages it last had, up to the streaming flag, on its own backend |
| `CacheRefinement.TakingOutReachesWhen` | crates/mobile/src/client.rs:1187-1192 | taking a prompt out of a session that is not on screen happens exactly when the session is parked |
| `CacheRefinement.PromptsAreGivenBackWhen` | crates/mobile/src/client.rs:1170-1195 | over every run a prompt that stands in one chat, a session's or one without a session, and could not be delivered, is given back exactly when that chat is on screen or still parked |
| `CacheRefinement.GoneDraftsStayGone` | crates/mobile/src/client.rs:180-187 | a draft that was evicted or left behind with its backend is out of reach in every later state |
| `CacheRefinement.ChangingBackendKeepsThePrompt` | crates/mobile/src/client.rs:558-572 | after a change of backend a prompt of the conversation left is not given back although the archive has it |
| `CacheRefinement.ParkedStaysBounded` | crates/mobile/src/client.rs:130-133 | never more than eight conversations are parked |
| `Parking.LastKeysAreKept` | crates/mobile/src/client.rs:181-187 | trimming keeps exactly the conversations that fewer than eight others come after, unchanged |
| `Parking.LeftSessionIsParkedWhen` | crates/mobile/src/client.rs:175-188 | a session that is left is parked, whole, exactly when fewer than eight parked ones come after it |
| `Parking.ParkedSessionsComeBackWhole` | crates/mobile/src/client.rs:120-125 | over every run elsewhere: as long as it is parked, coming back shows the whole conversation, what streams and the turn in flight included, and parks it no more |
| `Parking.ArchivedSessionsComeBackSettled` | crates/mobile/src/client.rs:189-204 | a session that is not parked comes back with nothing streaming and no turn in flight |
| `Parking.ScreenIsArchived` | crates/mobile/src/client.rs:1005-1015 | after an attachment and after a prompt is taken back the archive has what the session on screen shows |
| `Parking.TakenBackChatsAreSettled` | crates/mobile/src/client.rs:1170-1195 | the chat a prompt is taken out of has no turn in flight and no reply streaming |
| `Parking.ReadersNeverWrite` | crates/mobile/src/client.rs:136-139 | a client that does not own the archive never changes it, over any run |
| `Parking.NothingIsLiveAfterLeaving` | crates/mobile/src/client.rs:359-367 | after any change of view nothing is live, and only an opened session has a name |
| `Delivery.Core.Poll` | crates/desktop/src/payload.rs:22-49 | the loop sends the whole list or the texts that moved, and clears what it sent |
| `Delivery.Core.Handle` | crates/desktop/src/events.rs:158-172 | a turn event is folded and its change noted for the window |
| `Delivery.Window.Apply` | desktop/app.go:76-120 | the window's lists, index, draft and files after one update; ids it does not know are ignored |
| `Delivery.MergePaths` | desktop/app.go:122-134 | the loop appends each path that is not there yet |
| `Drafting.RestoringKeepsBoth` | desktop/app.go:105-114 | a restored prompt goes in front of what was typed since, which stays, and no file of either is lost |
| `Drafting.EveryRestoredPromptIsInTheDraft` | desktop/app.go:100-115 | each prompt given back is in the draft with its files, however many come back, unless the draft was cleared after it |
| `Drafting.GivenBackPromptsReachTheWindow` | crates/desktop/src/payload.rs:42-45 | over every run that ends in a poll: each prompt given back is in the window's draft with its files unless the draft was cleared after it |
| `WindowSync.AppliedKeepsUnique` | crates/core/src/chat.rs:302-315 | folding events keeps message ids distinct |
| `WindowSync.StreamingReportSpec` | crates/core/src/chat.rs:103-118 | a streaming report names the only message whose text moved, which may be a new one at the end |
| `WindowSync.PollBringsLevel` | crates/desktop/src/payload.rs:22-49 | one poll brings the window level: what it holds is the start of the core's list as it is now, and all of it if the list was sent |
| `WindowSync.WindowIsLevelAfterPoll` | desktop/app.go:76-99 | the same after every poll of every run of events, other changes and polls |
| `WindowSync.WindowIsWholeWhen` | desktop/app.go:76-99 | over every run that ends in a poll the window has the whole list exactly when no text since the last whole list went into a new bubble |
| `WindowSync.DeltaIsShownWhen` | desktop/app.go:95-98 | a window that had the whole list has it after a streamed text exactly when the text went into a bubble that was there |
| `WindowSync.NewBubbleIsNotShown` | crates/core/src/chat.rs:383-393 | the first words of the first reply reach the window as a text of a message it does not have |
| `WindowSync.ActionsAreCarried` | crates/desktop/src/payload.rs:42-45 | over every run the composer actions of all updates, and after them those still waiting, are exactly the actions added, each once and in order |
| `WindowSync.DraftIsUpToDate` | desktop/app.go:100-115 | after every run that ends in a poll the draft and files are those of all actions added, in order |
| `WindowSync.SecondPollIsEmpty` | crates/desktop/src/payload.rs:22-49 | what was sent is not sent again |
| `WindowSync.TextsTravelAlone` | crates/desktop/src/payload.rs:28-37 | a text that moved is sent without the list |
| `WindowSync.OnlyEmptyRepliesAreNotDrawn` | crates/desktop/src/payload.rs:71-77 | a message is drawn unless it is a settled reply without text, tools and files |
| `PhoneQueue.EventQueue.Push` | crates/mobile/src/client.rs:1343-1364 | a delta replaces the delta before it of the same message, and the queue is cut to 512 from the front |
| `PhoneQueue.QueueIsBounded` | crates/mobile/src/client.rs:1360-1363 | never more than 512 events wait, over any run of pushes and polls |
| `PhoneQueue.OverflowCostsTheOldest` | crates/mobile/src/client.rs:1343-1364 | the queue is the newest 512 of what it would be without a cap, however many events are pushed: coalescing and cutting do not disturb each other |
| `PhoneQueue.StreamsTakeOnePlace` | crates/mobile/src/client.rs:1343-1359 | over any run no delta waits right behind another of its message |
| `PhoneQueue.CoalescedQueueShowsEverything` | crates/mobile/src/client.rs:1343-1359 | while nothing overflows, folding the coalesced queue shows what folding every event would, whenever the frontend polls |
| `SettingsStore.Store.SetBackendEnabled` | crates/core/src/settings.rs:567-582 | the loop turns every other recorded backend off and the chosen one on or off, after saving the flat fields |
| `SettingsRefinement.SwitchingRemembers` | crates/core/src/settings.rs:610-627 | switching remembers what the outgoing backend had, loads the incoming one with its defaults and touches no other |
| `SettingsStore.Store.ApplyScopedConnection` | crates/core/src/settings.rs:468-491 | empty flat fields are filled from the active backend's record, then from the defaults |
| `SettingsStore.Store.MigrateSwitches` | crates/core/src/settings.rs:497-515 | a file without switches gets one per backend |
| `SettingsRefinement.TurningOnLeavesOne` | crates/core/src/settings.rs:563-582 | turning a backend on leaves it the only one on, from any state |
| `SettingsRefinement.MigrationTurnsOnTheActive` | crates/core/src/settings.rs:493-515 | migration leaves exactly the old active backend on, or none, keeps newer files as they are, and is done once |
| `SettingsRefinement.RestartingRemembers` | crates/core/src/settings.rs:441-464 | saving and loading keeps every backend's connection although the credential of the active one is not in the flat fields of the file |
| `SettingsRefinement.RestartingTrimsTheCredential` | crates/core/src/settings.rs:584-596 | the flat credential is not in the file: after a restart it is the trimmed one of the record, and the old global switch reads as on |
| `SettingsRefinement.LoadedFieldsComeFrom` | crates/core/src/settings.rs:466-491 | loading a file, its own host and port win over its backend's record but the record's credential wins over the file's; what neither has gets the default |
| `SettingsRefinement.RunsAgree` | crates/core/src/settings.rs:520-535 | over every run of edits, switches, on/off flips and restarts the flat fields and the map agree with a plain map from backend to connection |
| `SettingsRefinement.ReturningRestores` | crates/core/src/settings.rs:608-627 | returning to a backend restores its last host, port, TLS choice and trimmed credential, with defaults for an empty host and a zero port |
| `SettingsRefinement.NeverTwoOn` | crates/core/src/settings.rs:537-582 | from at most one backend on, no run ever has two |
| `Inline.SearchUnescaped` | crates/core/src/markdown.rs:274-289 | the loop finds the first match, counting on from each escaped one, with an even number of backslashes before it |
| `Inline.SearchEmphasisClose` | crates/core/src/markdown.rs:316-333 | the loop finds the first unescaped delimiter that closes |
| `Inline.ParseInlineInto` | crates/core/src/markdown.rs:110-250 | the recursive loop appends to its output exactly the parse of the source; it ends because nested slices are shorter and the rest shrinks |
| `Inline.AppendNested` | crates/core/src/markdown.rs:263-272 | the nested text is parsed in place and covered by one more span unless it shows nothing |
| `InlineShape.ParsedIsWellNested` | crates/core/src/markdown.rs:104-250 | every span and link lies in the visible text and is not empty, and any two are nested or disjoint |
| `InlineShape.ParsedIsDrawn` | crates/core/src/markdown.rs:45-47 | the visible text is the source with characters left out, and the image label only where an image opens |
| `Escaping.EscapedIsLiteralWhen` | crates/core/src/markdown.rs:115-124 | text with every escapable character escaped is shown as it is and unmarked, exactly when it holds no bare address |
| `InlineRoundTrip.PrintedIsDrawn` | crates/core/src/markdown.rs:104-250 | printing a tree of literal text, strong, emphasized, struck and code text, images, links and addresses with its markers and parsing it shows exactly the tree's text, its spans with their styles and its links with their addresses |
| `Delimiters.SingleDelimiterMeans` | crates/core/src/markdown.rs:230-248 | on all texts: a single asterisk or underscore emphasizes the text up to the first one that may close it, if it may open and there is one, and otherwise stands for itself |
| `Delimiters.EmphasisEndsAtFirst` | crates/core/src/markdown.rs:316-333 | the close found is the first delimiter that is not escaped, follows text, is not doubled and is no underscore inside a word |
| `Escaping.BackslashTakes` | crates/core/src/markdown.rs:115-124 | the characters that a backslash makes literal |
| `Runs.CollectRuns` | crates/desktop/src/markdown.rs:37-83 | the loops collect, sort and dedup the cuts and build one run between each two |
| `Runs.RunsRebuildTheText` | crates/desktop/src/markdown.rs:37-83 | the runs one after the other draw every character of the visible text, each with exactly the styles of the spans it lies in and the address of the first link it lies in |
| `FloodFill.FindBackground` | Scripts/generate_android_icons.py:25-44 | the worklist finds the least set with the nearly white border pixels that is closed under nearly white neighbours |
| `FloodFill.BackgroundIsConnected` | Scripts/generate_android_icons.py:20-21 | that set is what nearly white paths reach from the border |
| `FloodFill.ClearedWhen` | Scripts/generate_android_icons.py:25-44 | what is cleared, said of the pixels: those that a way of steps from the border reaches over pixels with all three channels at 240 or more |
| `FloodFill.PortraitWithoutBackground` | Scripts/generate_android_icons.py:20-48 | exactly those pixels are cleared and no other changes |

## Left out

- Routing.AdmittedFramesAreOurs: filtering a frame and folding it is one step, because the channel between the adapter and the handler is not part of the model; a frame already queued there when the view changes is not covered.
- PromptLedger.PromptsAreConserved: an answer to a pending question is not a prompt in these books, because a failed answer is not given back by the source either.
- CacheRefinement.ReturningShowsTheLast: assumes the archive writer is on, that a named session is not renamed by a resume, and that no session is called like a draft; without a writer an evicted conversation is simply gone.
- Sse.SseParser.ReadBody: which frames end the turn is a parameter, because what a frame means is not modelled, and a body that breaks off is the body as far as it came.
- PhoneQueue.CoalescedQueueShowsEverything: is about runs in which the cap drops nothing; OverflowCostsTheOldest says what a drop costs.
- WindowSync.WindowIsLevelAfterPoll: a message is drawn as it is kept; the cut of long tool details is not modelled.
- History.ToolCallSurvivesWhen: assumes that reported replies carry no blank match text.
- Delivery.Core.Poll: the settings, the connection state and the revision number of an update are not modelled, only its lists, texts and composer actions.
- Delivery.Window.Apply: the settings, connection state, focus request and errors of an update are not modelled.
- View generations, turn numbers and epochs are natural numbers; their wrap-around at 64 bits is not modelled.
- Handoff.PromptsStayHomeWhen: assumes that no session created for another conversation is called like the one the prompt's conversation has.
- Session ids: an id names one session among all backends; the id a resume or create returns is taken as the session's id; renames by a gateway and its session-info event are not modelled, nor adapters that keep no scope.
- Reconnecting: deadlines, back-off and connection epochs are replaced by arbitrary outcomes of opening the stream (it succeeds or fails, with the scope kept or emptied), and the session restored by a reconnect by an ordinary opening of it.
- Other users of a backend lock (refreshing lists, stopping, answering, model selection) change neither the scope nor the books and are not steps of the protocol.
- The composer's actions pile up in the protocol model; taking them is part of Delivery.
- Transcript caching on disk, timestamps and completion times.
- The block-level Markdown parser and break opportunities: pattern rules without a law of their own.
- Byte offsets of Markdown ranges are character offsets here; every cut in the source falls between characters.
- Numbers in settings are unbounded, and the settings file is its contents, not its bytes.
- Records in a settings file under names of no known backend; the switches are stated for the eight known ones.
- Sockets, subprocesses, JSON, device signing, the C interface, window drawing and the Android and iOS hosts.
- Single-function facts: capability tables, labels, zoom steps, plausible window geometry, token formatting.
