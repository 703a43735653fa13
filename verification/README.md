# A verified model of the coding agent

The repository holds one coding agent written several times (C, Go and Rust among them). Each version keeps a
conversation as lines of JSON, streams replies from a model, runs tools, collects the results of background tasks,
and shortens the conversation when it grows. This project models the parts of those programs on which everything
else rests, and proves what they keep and what they promise. Where the versions differ, each module says which one
it follows.

| module | what it models |
|---|---|
| `RealArithmetic`, `CompactBenefit` | the arithmetic and the formula for what a compaction is worth (C) |
| `CompactLedger` | the same worth, told from the calls that it saves and costs |
| `CompactDecision` | the search for the best number of lines to keep (C), and the turn-wise fallback (C and Rust) |
| `TextLines`, `ConvStore` | files as lines; the conversation file and its archive (Go) |
| `ConversationLog` | the lines of a conversation, their spelling, and pairing of tool calls with results (Go) |
| `LineReader`, `UserLines` | those lines read as JSON: the entries they hold, and which ones start a turn (Go) |
| `RunScript`, `Transcript` | what the run loop writes for a script, and the same told turn by turn (Go) |
| `RunLoop` | the agent's run loop as the writer of the conversation, with compaction and forks (Go) |
| `BackgroundTasks` | workers, the readline thread and the main thread around two queues, as interleaved steps (C) |
| `MsgQueue`, `DisplayFlush` | the linked-list queue, and the flush barrier of the display thread (C) |
| `ToolReassembly` | tool calls put together from streamed pieces in a map (Go and Rust) |
| `ToolArray` | the same in a searched array, compared with the maps (C) |
| `SseStream` | the stream decoder and the publisher behind it (Go) |
| `StreamCalls` | the tool calls that streams of chat, Claude and responses events send (Go) |
| `StreamEvents` | everything else that such streams show: text, thinking, errors, counts, the reason they end (Go) |
| `ChatParser`, `ParserText` | the parser of a chat completions stream; its calls, and what else it says (Rust) |
| `Accumulator` | the two consumers of stream events (C) |
| `JsonTree`, `JsonUnique` | JSON texts as trees, one tree for each text |
| `JsonSpan`, `JsonQuery` | the zero-copy parser of such texts, the queries over its spans (C) |
| `StrBuf`, `JsonString` | the growable buffer; writing and decoding JSON strings (C) |
| `Utf8Sanitizer` | the UTF-8 sanitizer (C) |
| `Translate`, `TranslatedMedia` | a Claude conversation as chat completions and as responses items (Rust) |
| `EventText` | the line form of events, printed and parsed (Rust) |
| `TokenStats` | the counters in the statistics file beside the log of usage events (C) |
| `Options`, `Sequences`, `HexDigits`, `TokenCounts` | an optional value, concatenation, hexadecimal digits, counts of tokens |

How the model stands to the programs:

- Doubles are reals and integers are unbounded. Bytes are characters, and a size in bytes is a number of characters.
  A C string is a sequence without the zero character; reading at or past its end gives the zero character.
- Concurrency is interleaving: a thread's critical section, or the code between two accesses to a shared queue, is
  one step. A run is any sequence of steps that are possible when they are taken.
- What comes from outside (the model's stream, tools, background results, interrupts, the best cut found by the
  search, the success of a request) is a script that the run loop plays against, and the theorems hold for every
  script. Scripts allow more than the programs do, for example an interrupt at any event. The JSON decoder that reads
  the conversation's lines back is a parameter of the agent: the run-loop theorems hold for every decoder, and say
  what depends on what it makes of a line (`RunLoop.LiveLogIsWellFormed`, `ConversationLog.ToldIff`).
- Imperative code is modelled by classes and methods with loops, each proved against a specification function; the
  theorems are about those functions and about the methods' states.
- Clock values, titles, display text and the file system's failures are not part of the model.

Where the documentation and the code disagree, the model follows the code: README.en.md:276 prices the dropped
tokens of a compaction request at the cached price, c/agent.c:2804 at the input price. It is the input price that
makes the `p_input` terms of the benefit cancel.

Findings that the theorems state exactly:

- With fewer than two calls to come the compaction search may keep more than its floor
  (`CompactDecision.FloorIsNotAlwaysBest`); where it ends for every number of calls is `DecisionIsTurningPoint`.
- A tool input that holds a line break, as pretty-printed JSON does, tears a line of the conversation file apart
  (`ConversationLog.ReadsBackIff`, and over whole runs `RunLoop.Agent.RunLoop`). No byte is lost.
- A tool input that is not JSON by itself can make a whole assistant line pass for user text, because the later of two
  equal keys wins (`UserLines.SecondRoleIsNotTold`). A compaction may then cut in front of that line
  (`RunLoop.CutInFrontOfReply`), and the live log no longer starts with a user line; exactly when it does is
  `RunLoop.LiveLogIsWellFormed`. Inputs that are JSON texts never do this (`UserLines.JsonInputsAreTold`), and
  between whole lines no input makes a compaction part a call from its results (`RunLoop.JsonReaderKeepsPairing`).
- After a retry the C side accumulator keeps the error (`Accumulator.AccumForgetsIff`). The Go run loop does not
  reset its stop reason either (`RunScript.RetryForgetsIff`), but every stream it reads ends with a stop of its own,
  so that nothing of the first part is left (`RunScript.RetryForgets`).
- A background result can be delivered where no model call follows: behind the last reply that the turn limit allows,
  behind an interrupt, or in front of a request that cannot be built. It then waits in the conversation for the next
  line or wake-up (`BackgroundTasks.UnseenAtTheLimit`); in every other case the main thread calls the model on all
  results before it sleeps (`BackgroundTasks.SleepsOnSeenResults`, `EveryResultIsSeen`).
- After a first flush the C array can give a call the id or name of a call that was dropped
  (`ToolArray.DroppedCallIsTakenOver`; exactly when any round agrees with the maps is `ToolArray.TableAgainstMap`).
- The chat form of a user message drops text and images that stand beside tool results
  (`Translate.ChatKeepsTextIff`, `TranslatedMedia.ChatKeepsImagesIff`).
- Workers can still be about to send their wake-ups when an interactive session has ended: any of its tasks, whatever
  their number (`BackgroundTasks.LateWakeupsIff`, `NoLateWakeupIff`). It does no harm to the queue
  (`BackgroundTasks.OnlyWakeupsFollow`).
- The Go decoder does not clear a tool block's input when another block starts before it stops, so the next tool call
  is sent with both inputs (`StreamCalls.GivenUpInputIsJoined`; exactly when inputs stay apart is
  `StreamCalls.ClaudeStreamCalls`).
- The sanitizer lets overlong forms, surrogates and values beyond the last code point pass
  (`Utf8Sanitizer.LooseButNotUtf8Iff`); for which texts its output is valid is `Utf8Sanitizer.SanitizedIsUtf8Iff`.
- Token totals leave out what the goal judge used (`TokenStats.Session.Run`).

## Model

| member | source | states |
|---|---|---|
| CompactDecision.CompactDPDecision | c/agent.c:2680-2852 | the decision returned is 0, or the first best keep count moved back to a user line, when the aligned cut is below the ceiling and drops enough tokens |
| CompactDecision.SearchKeep | c/agent.c:2788-2822 | the loop finds the first candidate of greatest benefit; a later equal one does not replace it |
| CompactDecision.AlignToUser | c/agent.c:2824-2831 | the cut goes back to the nearest user line at or before it, or to the start |
| CompactBenefit.BenefitDifference | c/agent.c:2792-2822 | the benefits of two keep counts differ by their token difference times (R-2) p_cache plus the quality term; p_input cancels |
| CompactDecision.FewerIsBetterIff | c/agent.c:2792-2822 | keeping fewer lines is at least as good exactly when the slope between the two sizes is not negative |
| CompactDecision.FirstBestIff | c/agent.c:2788-2822 | for every R a keep count is the one the search ends at exactly when the step to it gains and the next step does not |
| CompactDecision.DecisionIsTurningPoint | c/agent.c:2680-2852 | for every R there is one such turning point, and the decision is that point, aligned and guarded, if it pays, and 0 otherwise |
| CompactDecision.ClosedForm | c/agent.c:2680-2852 | with R >= 2 and prices that are not negative the quadratic search equals the floor, aligned and guarded, when it drops a line at a profit, and 0 otherwise |
| CompactDecision.TwoCallsRemainIff | c/agent.c:2713-2745 | R >= 2 unless one round is expected (e_fixed = 1, or a baseline of 2 or 3 nearly used up) and a round makes fewer than two calls |
| CompactDecision.FloorIsNotAlwaysBest | c/agent.c:2680-2852 | a log and settings with R < 2 whose decision keeps more lines than the floor would, at a profit |
| CompactDecision.DecisionHasFirstBest | c/agent.c:2788-2847 | a positive decision comes from one first-best candidate with a positive benefit |
| CompactDecision.CutPlacement | c/agent.c:2822-2847 | a positive keep cuts at a user line, is the smallest such keep at or above the best one, lies between floor and ceiling, and drops at least h_min tokens |
| CompactLedger.BenefitIsLedger | c/agent.c:2788-2822 | for every log, settings and keep count the benefit is what a ledger of calls comes to: the cached price of the dropped tokens in each of the later calls, less the surcharge of the next call on summary and kept tokens, less the summary call, less the calls that must repeat what was forgotten, plus the retries that a smaller context saves |
| CompactLedger.LaterCallsAddUp | c/agent.c:2800-2801 | for whole numbers the savings are those of the later calls one by one |
| CompactLedger.DecisionPays | c/agent.c:2822-2847 | a positive decision rests on a cut whose ledger is positive and the greatest of all candidates |
| CompactLedger.DecisionIsZeroIff | c/agent.c:2822-2847 | nothing is compacted exactly when no ledger is positive or the best cut does not pass the guards |
| CompactLedger.TokenSizeIff | c/agent.c:2690-2693 | a line counts as its quarters, rounded up, and one more |
| CompactLedger.RoundsMeans | c/agent.c:2713-2723 | the rounds expected: as set, or what is left of the baseline but at least half of it (two for a baseline of one), or two |
| CompactLedger.CallsPerRoundMeans | c/agent.c:2725-2734 | the calls of a round: as set, or the requests shared out over the turns, or five; at least one |
| CompactLedger.AverageInputMeans | c/agent.c:2736-2742 | the average input times the calls is the input counted; 4000 before anything was |
| CompactLedger.RetentionNext | c/agent.c:2750-2754 | each further summary keeps the share r of what the earlier ones left, never less than the floor |
| CompactLedger.BoundsMean | c/agent.c:2762-2780 | the search runs from the whole number nearest to the ratio's share of the lines, at least three and at most all of them, up to the one nearest to the rest's share, or to all lines when that is less than the floor |
| CompactLedger.MinDropMeans | c/agent.c:2786-2786 | the least drop is twenty summaries without the fraction |
| CompactDecision.TurnCutIsUnique | c/agent.c:2854-2876 | only one suffix of the log starts at a user line and holds the wanted number of turns |
| CompactDecision.TurnKeepForward | c/agent.c:2854-2876 | the forward scan over an index array keeps the rounded share of turns, at least one |
| CompactDecision.TurnKeepBackward | rust/src/lib.rs:655-691 | the backward scan keeps the same |
| CompactDecision.TurnKeepsAgree | rust/src/lib.rs:655-691 | both scans give the same keep for every log and every ratio |
| TextLines.EndOffsetIsUnique | go/store.go:1051-1065 | the offset behind a given number of lines is determined by the file |
| TextLines.LinesOfJoin | go/store.go:1031-1049 | lines written one by one, with no white space at their ends, are read back one by one |
| TextLines.LinesOfCut | go/store.go:1040-1065 | a cut behind whole lines of any file divides its lines between the parts; in a file without blank lines it is the cut behind as many of them |
| TextLines.CutOfJoin | go/store.go:1051-1065 | cutting a file behind k lines is cutting the sequence of lines behind k |
| ConvStore.LineEndOffset | go/store.go:1051-1065 | the scan finds the offset just behind the n-th newline, or the end of the data |
| ConvStore.FileStore.LineCount | go/store.go:418-424 | the number of newlines |
| ConvStore.FileStore.HeadTo | go/store.go:426-432 | the bytes of the first n lines |
| ConvStore.FileStore.TrimTail | go/store.go:434-452 | archive and conversation together keep every byte in order; an effective trim leaves exactly n newline-terminated lines and archives whole lines (c/store.c:486-531 is the same) |
| ConversationLog.CutAtUser | go/agent.go:566-592 | a paired log stays paired on both sides of a cut in front of a user line |
| ConversationLog.AppendCalls | go/store.go:381-407 | an assistant line with calls and the line of its results keep a log paired |
| ConversationLog.RenderIsOneLineIff | go/util.go:98-125 | an entry is written as one physical line exactly when no tool input holds a newline |
| ConversationLog.StoreFormatIsFaithful | go/store.go:373-407 | whatever the reader's decoder, the store's lines have no white space at their ends and are single lines exactly when no tool input holds a newline |
| ConversationLog.RenderStart | go/store.go:477-477 | where the reader falls back to searching a written line for keys, it finds the lines of user text and no others |
| ConversationLog.ToldIff | go/store.go:468-478 | an entry is taken for what it is exactly when its line does not decode, or decodes to a user's role with a string as content just for user text |
| LineReader.EscapedIsRead | go/util.go:89-118 | the decoding of JSON strings (section 7 of RFC 8259) undoes the store's escaping, for every text |
| JsonUnique.OneTree | go/store.go:468-478 | two JSON trees with the same text are the same tree, so a line has one meaning |
| UserLines.LineTree | go/util.go:342-353 | the line of an entry whose tool inputs are JSON texts is the text of one object; read by role, block type and key it gives the entry: the user's text, the thinking, the answer and each call's id, name and input, each result's id and output, in order |
| UserLines.EntryIsReadBack | go/store.go:373-407 | every entry whose tool inputs are JSON texts is read back from its line, which is the text of no other tree |
| UserLines.LogIsReadBack | go/store.go:373-424 | a whole log of such entries is read back from its file, line by line and in order |
| UserLines.LineTellsEntry | go/store.go:373-407 | two such entries have the same line only if they are the same |
| UserLines.JsonInputsAreTold | go/store.go:468-478 | for every decoder of JSON in which the later of two equal keys wins, an entry whose tool inputs are JSON texts is taken for what it is |
| UserLines.SecondRoleIsNotTold | go/util.go:342-353 | with one input that is no JSON text, an assistant line is one physical line that such a decoder takes for user text unless it refuses it |
| ConversationLog.PrettyPrintedInputTearsTheLine | go/util.go:342-353 | whatever one-line entries a file holds, after a call whose input is two braces and a line break it no longer reads back |
| ConversationLog.LinesOfLog | go/store.go:373-424 | the file of a log reads back as one line for each entry |
| ConversationLog.CutOfLog | go/store.go:426-452 | cutting the file behind k lines is cutting the log behind k entries |
| ConversationLog.ReadsBackIff | go/store.go:381-387 | the file of a log reads back entry by entry exactly when no tool input holds a newline |
| ConversationLog.AppendReadsBackIff | go/store.go:381-387 | an append keeps a readable file readable exactly when the new entry's inputs hold no newline |
| RunScript.GatherAnswers | go/agent.go:778-890 | what a reply gathers never holds a call without its result, nor the reverse |
| RunScript.RetryForgets | go/agent.go:778-890 | for every stream the transport publishes and every retry in it, the gathered reply is that of the part after the retry, stops with the published reason, and after the last retry has exactly the calls sent since |
| RunScript.RetryForgetsIff | go/agent.go:874-881 | in the event loop alone the reply is that of the second part exactly when that part states a stop reason or the first left none |
| RunScript.TurnIsPaired | go/agent.go:737-932 | whatever happens in a turn, what it adds keeps the log paired |
| RunScript.TurnsArePaired | go/agent.go:737-932 | so do any number of turns under the turn limit |
| RunScript.RunIsPaired | go/agent.go:663-1007 | so does every run, for every script, tool inputs with line breaks included |
| Transcript.GatheredIs | go/agent.go:778-890 | the reply gathered from a stream is the text, the thinking, the calls and the results of the events since the last retry, each joined in order, a result being what its tool put down for the conversation or else its output |
| Transcript.ReasonIs | go/agent.go:874-890 | the stop reason that counts is the one stated last, an error included |
| Transcript.TurnIsTold | go/agent.go:737-932 | a turn adds the notes in front of it, the reply and its results exactly when the request was answered, read to its end and not stopped by an error or an overrun, and the notes behind a reply that asks for no tools |
| Transcript.TurnsAreTold | go/agent.go:737-932 | a phase adds these lines of the turns it takes, and ends broken as the last of them does |
| Transcript.TakenIff | go/agent.go:737-932 | the turns taken are the first ones up to the first that does not go on, or up to the turn limit |
| Transcript.RunIsTold | go/agent.go:663-1007 | a run adds the lines of its phases, up to an interrupt or an empty wake-up, and nothing else |
| Transcript.RunAdds | go/agent.go:663-1007 | for every script: the replies in the conversation are exactly one for each turn that was requested, read to its end and not stopped by an error or an overrun; the results are those of their calls; the user texts are the inputs and the notes; all in order |
| RunLoop.LiveLogIsWellFormed | go/agent.go:568-592 | for every decoder: the lines left after compactions are a well-formed log by themselves exactly when nothing is archived or their first one is taken for what it is, and calls stay with their results exactly when it is no line of results |
| RunLoop.JsonReaderKeepsPairing | go/store.go:468-478 | for every decoder of JSON and any tool inputs no cut between entries parts a call from its results, and the live lines start with user text when the first one's inputs are JSON texts |
| RunLoop.CutInFrontOfReply | go/agent.go:528-610 | a session, reached by a message, a reply and a compaction, whose live log starts with an assistant line |
| RunLoop.Agent.constructor | go/store.go:156-213 | a new session's files hold the empty log, for every decoder |
| RunLoop.Agent.Resume | go/store.go:215-227 | a child session starts from the files of a fork, which hold a paired log, for every decoder |
| RunLoop.Agent.AddUserMessage | go/store.go:373-379 | adds one user line; files and log stay in step |
| RunLoop.Agent.SaveTurn | go/agent.go:914-918 | adds the assistant line and, when tools ran, the result line right behind it, for any tool inputs |
| RunLoop.Agent.DrainSubAgentResults | go/agent.go:1009-1027 | every arrived result is taken and, unless its text is empty, becomes one user line, in order |
| RunLoop.KeepIsUnique | go/agent.go:536-567 | the file's lines, its newline count and the settings determine how many lines are kept |
| RunLoop.Agent.ChooseKeep | go/agent.go:528-567 | the keep is that number; when it is fewer than the file's lines, the first line kept is one that the reader takes for user text, torn entries or not |
| RunLoop.Agent.CompactContext | go/agent.go:528-610 | when it compacts and how many lines then stay; the bytes summarised are exactly the bytes archived, history and bytes are untouched, no line is split, and a file without blank lines is left starting with a line taken for user text; torn entries included |
| RunLoop.Agent.ForkSession | go/agent.go:1029-1059 | a fork taken in the middle of a turn copies files that hold a paired log |
| RunLoop.Agent.ReadReply | go/agent.go:778-890 | the event loop gathers what the events say, saves nothing, and keeps the history while tools compact and fork |
| RunLoop.Agent.Turn | go/agent.go:737-932 | a turn adds exactly its lines of the transcript, and ends as its script says |
| RunLoop.Agent.TurnLoop | go/agent.go:737-932 | the turns of a phase add exactly the transcript of those that are taken, under the turn limit |
| RunLoop.Agent.RunLoop | go/agent.go:663-1007 | for every script, whatever its tool inputs, and every decoder of the reader: archive and conversation together are the bytes of the old history followed by exactly the transcript of the run, the history stays paired, and the files read back entry by entry exactly when no saved input holds a newline; what depends on the decoder is whether the live part alone is well-formed, exactly when its first line is taken for what it is |
| BackgroundTasks.NoLostWakeup | c/agent.c:764-775 | while the input queue is open a sleeping interactive main thread has at least one wake-up queued or on its way for each waiting result; with none, everything pushed is in the conversation, in order and once |
| BackgroundTasks.SleepsOnSeenResults | c/agent.c:920-1505 | whenever the main thread sleeps, nothing was added to the conversation since the last model call or short stop, and the model was called on everything in it exactly when that was a call |
| BackgroundTasks.EveryResultIsSeen | c/agent.c:920-1505 | in a run that never stops short, a sleeping interactive thread with no wake-up queued or on its way has called the model on every result pushed, and at the end of every session so has the main thread |
| BackgroundTasks.WakeupCallsIff | c/agent.c:923-926 | a wake-up makes the model be called exactly when something was found |
| BackgroundTasks.LineIsPutToModel | c/agent.c:920-1071 | a line taken from the queue leads to a model call before the thread sleeps again, unless the request cannot be built |
| BackgroundTasks.UnseenAtTheLimit | c/agent.c:980-990 | for every turn limit a reachable state with all wake-ups served whose one result the model was never called on |
| BackgroundTasks.CounterIsExact | c/agent.c:693-745 | active_task_count is the number of tasks whose result has not reached the conversation; it is never negative and the guard of its decrement always holds |
| BackgroundTasks.BlockedWaitHasWorker | c/agent.c:777-791 | a wait that blocks on an empty result queue has a worker that will push |
| BackgroundTasks.WaitEndsIff | c/agent.c:777-791 | the wait ends exactly when no task can still push and no task result is undelivered; nothing at all is left then |
| BackgroundTasks.EndOfSession | c/cagent.c:398-440 | at the end of every session, interactive or not, every started task has pushed and every pushed result was delivered once, in order |
| BackgroundTasks.LateWakeupsIff | c/agent.c:1813-1815 | the sets of wake-ups still to come at the end of a session with n tasks are, over all runs, all sets of those tasks in an interactive session and the empty set alone otherwise |
| BackgroundTasks.NoLateWakeupIff | c/agent.c:1813-1815 | no run ends with a wake-up still to come exactly when the session is not interactive or launched no task |
| BackgroundTasks.OnlyWakeupsFollow | c/agent.c:764-775 | after the end of an interactive session nothing but late wake-ups can happen, and sending one changes nothing else |
| BackgroundTasks.InvRun | c/agent.c:1660-1826 | every interleaving of the steps keeps control, counter, order, uniqueness and wake-up invariants |
| BackgroundTasks.CounterStep | c/agent.c:1229-1253 | each step keeps the counter exact |
| BackgroundTasks.WakeStep | c/readline.c:82-109 | each step keeps a wake-up for every waiting result |
| BackgroundTasks.NotesStep | c/readline.c:115-269 | an injected text keeps a wake-up ahead of it, also while the input closes |
| MsgQueue.Queue.Push | c/msgqueue.c:40-63 | appends to the queue exactly when it is open; list, tail and count stay consistent |
| MsgQueue.Queue.TryPop | c/msgqueue.c:87-102 | takes the oldest message, nothing exactly when the queue is empty |
| MsgQueue.Queue.Pop | c/msgqueue.c:65-85 | after its wait, fails only on a closed and empty queue |
| MsgQueue.Queue.Close | c/msgqueue.c:20-25 | keeps the queued messages |
| MsgQueue.Queue.Drain | c/msgqueue.c:65-85 | a closed queue gives out exactly what it held, in order, and accepts nothing more |
| DisplayFlush.FlushIsBarrier | c/display.c:356-395 | when a flush returns, every message accepted before it was rendered, in order |
| DisplayFlush.FlushIsNotLost | c/display.c:325-343 | a flush that was accepted and has not returned always has the display thread still to act |
| DisplayFlush.StoppedMeansRendered | c/display.c:325-343 | when the display thread ends, everything accepted was rendered and every flush has returned |
| ToolReassembly.MapAssembles | go/transport.go:743-758 | the map holds, for each index, the last id and name and all argument pieces in order, whatever the interleaving |
| ToolReassembly.InterleavingDoesNotMatter | go/transport.go:743-758 | a flush depends only on each call's own pieces |
| ToolReassembly.FlushIsComplete | go/transport.go:625-641 | a flush emits each call with arguments once, complete, in ascending index order, and nothing else |
| ToolReassembly.SecondFlushIsEmpty | rust/src/sse.rs:533-546 | a second flush emits nothing |
| ToolReassembly.LateDeltas | rust/src/sse.rs:486-513 | pieces after a flush start new arguments under the id and name known so far |
| ToolReassembly.PendingCalls.EmitPending | rust/src/sse.rs:533-546 | emits the flush and clears the arguments only |
| ToolReassembly.ReassembleInMap | rust/src/sse.rs:480-546 | two rounds of pieces with a repeated flush between them |
| ToolReassembly.SegmentsHoldAll | rust/src/sse.rs:480-546 | the segments of a stream are its pieces in order, cut behind each flush |
| ToolReassembly.OnlyFirstSegment | go/transport.go:625-641 | when all pieces come before the first flush, both map clients emit each call once, however often they flush |
| ToolArray.TableAgainstMap | c/transport.c:101-133 | any round through the array, whatever earlier rounds left in its slots, emits the calls of the map exactly when each call with arguments states its id and name itself or finds in its slot what the map knows; in the same order, besides, exactly when they are first mentioned in ascending order |
| ToolArray.FirstRoundAgrees | c/transport.c:101-133 | on a first round the calls are always those of the maps |
| ToolArray.DroppedCallIsTakenOver | c/transport.c:94-117 | after a call dropped for want of arguments the next one agrees with the map exactly when it states its id or the dropped one had none, and the same for the name |
| ToolArray.ToolTable.Ensure | c/transport.c:101-117 | finds the slot of an index or takes the next one with what is left in it, growing the array |
| ToolArray.ToolTable.EmitToolCalls | c/transport.c:119-133 | emits the calls with arguments front to back, empties the array and resets only the slots it emitted |
| ToolArray.Reassemble | c/transport.c:168-207 | any number of rounds through one array, each starting from what the earlier ones left |
| SseStream.PublishedShape | go/transport.go:197-239 | for every stream, ending and cancellation: one stop, last; at most one usage, directly before it; the stop is forced to "error" when an error was sent since the last retry or the context was cancelled and is the stream's own otherwise; a usage marked stopped means no failure |
| SseStream.DecodeLeavesStop | go/transport.go:241-404 | however a stream ends, its decoding leaves a stop that no retry has cancelled |
| SseStream.RetryForgets | go/transport.go:377-395 | after a retry the events, and what the consumer sees, are those of the second part alone |
| StreamCalls.EveryStreamCalls | go/transport.go:241-404 | for every provider, line sequence, ending and cancellation, in any mixture of the three forms and with any retries: the calls the consumer holds are exactly those that the lines since the last retry send, each flush, stopped tool block and completion in its place |
| StreamCalls.ChatStreamCalls | go/transport.go:644-763 | when nothing but a flush can send a call, the calls are those of each segment of pieces between two flushes, reassembled; blank lines, undecodable chunks and other events may stand between |
| StreamCalls.ChatStreamEmitsOnce | go/transport.go:644-763 | when all pieces come before the first flush, each call is sent once although the finishing chunk and [DONE] both flush |
| StreamCalls.ClaudeStreamCalls | go/transport.go:320-353 | for every stream: the calls have the inputs of their own tool blocks exactly when, wherever a tool block stops, the blocks given up before it left no input behind (or left what an empty input is sent as); so it is for every stream that stops each tool block before it starts the next block |
| StreamCalls.WithinBlock | go/transport.go:320-333 | up to its stop a block is the open one, under its name and id, and its input is all its pieces in order |
| StreamCalls.GivenUpInputIsJoined | go/transport.go:320-353 | when a tool block is started while another is open, the call of the second is sent with both inputs, joined |
| StreamCalls.ResponsesStreamCalls | go/transport.go:442-623 | when nothing but a completion can send a call, the calls are those noted between two completions |
| StreamCalls.CompletionIsComplete | go/transport.go:418-438 | a completion sends each index whose call got an id and a name, once, in ascending order, with the id and name stated last and its arguments |
| StreamCalls.WholeReplaces | go/transport.go:528-566 | the arguments are those of the last event that stated them as a whole, followed by the pieces after it |
| StreamCalls.PiecesOnly | go/transport.go:554-566 | without such an event they are the pieces, joined in order |
| StreamEvents.ConsumerSees | go/transport.go:197-404 | for every provider, line sequence, ending and cancellation, in any mixture of the forms: since the last retry the consumer gets exactly the text, thinking, calls and errors that the lines say, in order, and at the very end the counts and the reason of the end said last, or an error and a stop for it |
| StreamEvents.EveryStreamText | go/transport.go:241-404 | the joined text and the joined thinking since the last retry are those that the lines say: of text and thinking blocks, of chat contents, of output and reasoning deltas |
| StreamEvents.TextOfOneForm | go/transport.go:727-741 | in a stream of chat chunks, or of responses events, that text is all contents joined, without the line breaks they begin with |
| StreamEvents.TrimMeans | go/transport.go:727-741 | what is left out is the longest beginning made of line breaks |
| StreamEvents.FailureMessage | go/transport.go:584-612 | the message of a failed response is the first one that is not empty, or the standing one for its kind |
| SseStream.SseDecoder.HandleOpenAIChunk | go/transport.go:644-763 | the state and the events after one chunk |
| SseStream.SseDecoder.HandleResponsesEvent | go/transport.go:442-623 | the state and the events after one responses event, and whether it is terminal |
| SseStream.SseDecoder.HandleClaude | go/transport.go:320-398 | the state and the events after one Claude event |
| SseStream.SseDecoder.DecodeSSEStream | go/transport.go:241-404 | the decoder's loop sends exactly the specified events, with the deferred error and stop |
| SseStream.ParseSSEStream | go/transport.go:197-239 | the publisher's loop sends exactly the specified events |
| SseStream.Stream | go/transport.go:197-404 | decoder and publisher together end every stream with exactly one stop |
| SseStream.WalkNamed | go/transport.go:418-438 | the flush of a responses stream drops unnamed calls and gives missing arguments an empty object |
| ChatParser.StopIsLast | rust/src/sse.rs:359-531 | a stream read to its end gives exactly one stop, last: right after the usage when [DONE] came since the last retry, and as an error after an error message otherwise; a stream given up, or broken by a failing reader, gives neither |
| ChatParser.RetryForgets | rust/src/sse.rs:380-390 | after a retry everything is as if the stream had just begun, the stop reason included |
| ChatParser.StreamCalls | rust/src/sse.rs:359-546 | for every line sequence, with any retries and also when the reader fails: the calls after the last retry that was read are those of each segment of pieces, under the identity known so far, or a prefix of them when the parser gives up |
| ChatParser.GivesUpIff | rust/src/sse.rs:373-419 | the parser gives up exactly when the reader fails or, somewhere between two retries, a payload does not decode or a call cannot be built |
| ChatParser.CallsComeOnce | rust/src/sse.rs:480-546 | when all pieces come before the first flush, each call is emitted once |
| ParserText.EveryStreamSays | rust/src/sse.rs:359-531 | for every stream, also one given up: text, thinking and errors since the last retry read are those of the payloads, the text without the line breaks it begins with; a stream read to its end closes with the counts and the reason that held at the last [DONE], or with an error |
| ChatParser.Parser.EmitPending | rust/src/sse.rs:533-546 | emits the calls up to the first that cannot be built |
| ChatParser.Parser.Parse | rust/src/sse.rs:359-531 | the loop emits exactly the specified events, and says whether it gave up |
| Accumulator.DisplayForgets | c/agent.c:219-236 | after a retry the streaming consumer holds what the second part alone gives, timestamps aside |
| Accumulator.AccumForgetsIff | c/transport.c:1065-1082 | the side consumer holds the same in everything but the error, and in the error exactly when the second part has one or the first had none |
| Accumulator.AccumHolds | c/transport.c:993-1083 | behind any stream both consumers hold the text, the thinking, the calls with the input pieces behind each, the stop and the last positive counts since the last retry; the last error since then, or at all; and the timestamps of the last usage |
| Accumulator.CallsNext | c/transport.c:1004-1042 | one more event begins a call, adds a piece to the last one, or leaves the calls alone |
| Accumulator.SseAccumulator.AppendTool | c/transport.c:1004-1042 | a call is appended, the array doubled when it is full |
| Accumulator.AccumAll | c/transport.c:993-1083 | the callback over a whole stream computes the fold |
| Accumulator.DisplayAll | c/agent.c:125-236 | so does the streaming callback |
| JsonSpan.ValueOver | c/json.c:37-149 | a legal value, in any layout and wherever it stands, is parsed and the cursor stops exactly behind it |
| JsonSpan.ValueSound | c/json.c:37-149 | every span the parser returns is the text of a legal value of that kind |
| JsonSpan.ValueSpells | c/json.c:37-149 | a text stands at a position as a tree's pieces exactly when it stands there as the tree's rendering |
| JsonSpan.ParseRendered | c/json.c:115-139 | the rendering of a legal tree is parsed with its exact span |
| JsonSpan.ParsedIsRendered | c/json.c:115-139 | a parsed span is the rendering of a legal tree, with white space before it |
| JsonSpan.RootOfRendered | c/json.c:141-149 | a whole text with white space around it is accepted with its kind and span |
| JsonSpan.RootAcceptsIff | c/json.c:141-149 | a C string is accepted exactly when it is the rendering of a legal tree with white space around it |
| JsonQuery.ReadValue | c/json.c:115-134 | the recursive procedure computes the specified parse and terminates |
| JsonQuery.ReadArray | c/json.c:72-87 | the array loop computes the specified parse |
| JsonQuery.ReadObject | c/json.c:90-112 | the object loop computes the specified parse |
| JsonQuery.ReadRoot | c/json.c:141-149 | accepts exactly the texts of legal values |
| JsonQuery.ArrayQueries | c/json.c:240-287 | on an array's span the length is the number of elements and an index gives that element's span, or null out of range |
| JsonQuery.ObjectQuery | c/json.c:155-195 | on an object's span a lookup gives the span of the first member whose raw key bytes match, or null |
| JsonQuery.JsonArrayLen | c/json.c:240-257 | the counting loop computes the specified length |
| JsonQuery.JsonArrayGet | c/json.c:259-287 | the indexing loop computes the specified span, for negative indexes too |
| JsonQuery.JsonGet | c/json.c:155-195 | the lookup loop computes the specified span |
| StrBuf.Buffer.Ensure | c/util.c:28-36 | makes room and keeps the contents |
| StrBuf.Buffer.AppendN | c/util.c:44-50 | appends and terminates; nothing happens for no bytes |
| JsonString.RoundTrip | c/util.c:80-108 | every byte string without a zero byte survives writing, parsing at any place of a text, and decoding |
| JsonString.NoControlIsWritten | c/util.c:80-108 | what is written holds no control character |
| JsonString.DecodeMeans | c/json.c:293-375 | every well-formed body decodes to its meaning: the UTF-8 of each code point, surrogate pairs joined |
| JsonString.DecodedFits | c/json.c:293-302 | the decoded bytes are never more than the body's, malformed escapes included |
| JsonString.Utf8Inverse | c/json.c:349-363 | reading back the bytes written for a code point gives the code point |
| JsonString.AppendJsonString | c/util.c:80-108 | the writer appends the quoted, escaped text, and null for a null pointer |
| JsonString.DecodeUnicode | c/json.c:319-363 | one escape with its digits and, after a high surrogate, those of a low one |
| JsonString.JsonStringVal | c/json.c:293-375 | the decoder's loop stays inside its buffer and leaves the decoded bytes, terminated |
| Utf8Sanitizer.FixedPointIff | c/util.c:127-178 | a text is unchanged exactly when it is what the sanitizer takes for UTF-8; the output is always such a text, so sanitizing twice is sanitizing once |
| Utf8Sanitizer.Utf8IsUnchanged | c/util.c:127-178 | every valid UTF-8 text (section 4 of RFC 3629) is unchanged |
| Utf8Sanitizer.SanitizedIsUtf8Iff | c/util.c:127-178 | the output is valid UTF-8 exactly when no sequence of the input that passes has its second byte outside the range of its lead byte |
| Utf8Sanitizer.LooseButNotUtf8Iff | c/util.c:151-168 | a sequence passes without being valid exactly when its second byte is outside the narrower range of its lead byte |
| Utf8Sanitizer.EncodedIsUtf8Iff | c/json.c:349-363 | what the JSON decoder writes for a code point is valid exactly when the code point is no surrogate, and always passes the sanitizer |
| Utf8Sanitizer.ReplacementReads | c/util.c:122-125 | what stands for a replaced byte is the JSON escape of U+FFFD |
| Utf8Sanitizer.LengthBound | c/util.c:130-133 | the output is at most six times as long as the input |
| Utf8Sanitizer.SanitizeUtf8 | c/util.c:127-178 | the loop computes the specified text, and terminates its buffer when the input is not empty |
| Translate.ChatFollowsIff | rust/src/transport.rs:295-334 | the chat messages follow the protocol, each assistant message followed by exactly its tool messages, exactly when the conversation answers its calls in order |
| Translate.ChatKeepsPairing | rust/src/transport.rs:295-334 | so a well-formed conversation gives well-formed chat messages |
| Translate.ItemsKeepPairing | rust/src/transport.rs:244-284 | in the responses form of a well-formed conversation calls and outputs have the same ids in the same order, each output after its call |
| Translate.NothingIsLost | rust/src/transport.rs:244-389 | both forms carry exactly the conversation's calls and results, with names, arguments, outputs and order |
| Translate.ChatKeepsTextIff | rust/src/transport.rs:295-334 | the chat form says everything a conversation says, in order and by the same roles, exactly when no message has text beside tool results |
| Translate.ItemsKeepText | rust/src/transport.rs:244-284 | the responses form says everything a conversation says, in order and by the same roles |
| TranslatedMedia.ChatKeepsReplies | rust/src/transport.rs:336-373 | the chat form has the conversation's replies in order, each with its thinking, text and calls |
| TranslatedMedia.ChatKeepsImagesIff | rust/src/transport.rs:295-334 | the chat form shows every image of the user, in order, exactly when no message has one beside tool results |
| TranslatedMedia.ItemsKeepImages | rust/src/transport.rs:244-284 | the responses form shows every image of the user, in order |
| Translate.ConvertAssistantMessage | rust/src/transport.rs:336-373 | text and thinking joined, calls in order |
| Translate.ConvertMessagesToOpenAI | rust/src/transport.rs:295-334 | the loop computes the specified chat messages |
| Translate.ConvertMessagesToResponses | rust/src/transport.rs:244-284 | the loop computes the specified items |
| EventText.FourPassesAreOneMap | rust/src/lib.rs:491-496 | the four replacements are one map over the characters |
| EventText.EscapeRoundTrip | rust/src/lib.rs:491-519 | unescaping undoes escaping, and escaped text holds no tab and no line break |
| EventText.UnescapeText | rust/src/lib.rs:498-519 | the loop computes the specified text, for malformed input too |
| EventText.ToolCallRoundTripIff | rust/src/lib.rs:404-424 | a tool call comes back from its rendered form exactly when the JSON library reads back its input, its name, id and keys hold no tab and its order lists its field keys |
| EventText.RenderToolCall | rust/src/lib.rs:406-424 | the renderer computes the specified payload |
| EventText.ParseToolCallPayload | rust/src/lib.rs:521-544 | the parser computes the specified result, its failures included |
| TokenStats.Session.SetInt | c/store.c:651-700 | a write of one field changes that counter and keeps the other nine |
| TokenStats.Session.RecordReply | c/agent.c:1146-1178 | a reply with tokens is logged and counted once, its context and speed noted; no other counter changes |
| TokenStats.Session.RecordSubAgent | c/agent.c:2044-2117 | a sub-agent's tokens and requests are logged and counted; no other counter changes |
| TokenStats.Session.RecordCompaction | c/agent.c:3134-3158 | a compaction with tokens is logged and counted once, in its own counter and the totals; no other counter changes |
| TokenStats.GoalIsTheDifference | c/agent.c:886-898 | all usage events together exceed the counted ones by those of the goal judge |
| TokenStats.Session.Run | c/agent.c:1146-1165 | at every boundary of every session the four totals are the sums over the logged usage of replies, compactions and sub-agents, and over all usage exactly when the goal judge used nothing; the other counters are the numbers of turns, requests, compactions and sub-agents, and the context and speed of the last reply that had them |

## Left out

- HTTP, processes, threads and the file system as such: requests succeed or fail as the script says, pushes find memory, and file operations succeed.
- The terminal: rendering, line editing, titles, clipboard images.
- Assembling system prompts, skills and instructions, and the classifier of shell commands.
- The Go and Rust versions of the compaction search, which repeat the C one with their own default prices; in the run loop the best cut is any cut and the verdict of the search is any verdict.
- The C, Rust and other run loops: the C loop saves calls without results when the stop reason is not one for tools, so it keeps only one direction of the pairing.
- The C stream decoder, and the Rust parsers of Claude and responses streams, apart from reassembly and accumulation; which tool inputs the Rust builder accepts is a parameter.
- The prefixes of stream lines and the JSON decoding of their data: SseStream and ChatParser start from a line's kind and the fields the code extracts.
- White space beyond ASCII, which Go also trims from the ends of a conversation file's lines.
- JSON texts whose last string ends in a backslash: the C cursor then steps past the terminator, while the model reads zero characters there and reports the error.
- Numbers, object iteration and raw copies of JSON values: `json_get_int`, `json_number_val`, `json_as_string` and the object iterator.
- JSON numbers beyond their spelling, and duplicate keys beyond the first in the C queries.
- ConversationLog.ToldIff: JSON decoding is a parameter; encoding/json is not part of this model.
- UserLines.JsonInputsAreTold: what a decoder of JSON makes of an object is its assumption, for objects whose keys and roles are spelled without escapes and capitals.
- EventText.ToolCallRoundTripIff: printing and reading JSON values are parameters, and whether a value is read back from its own text is part of the condition; serde_json is not part of this model.
- EventText.ParseToolCallPayload: takes the same parameters.
- The empty text of an injection in a script: the Go line editor sends none (go/linenoise/linenoise.go:130-133), and other results are written under a headline.
- BackgroundTasks.NoLostWakeup: says nothing once the input queue is closed, when no wake-up can be queued any more; WaitEndsIff and EndOfSession cover that phase.
- Sub-agents as agents of their own: a sub-agent is a worker that pushes one result.
- Texts that are not UTF-8: the Go store writes replacement characters for bytes it cannot read, and the model's texts are sequences of characters.
- BackgroundTasks.EveryResultIsSeen: takes no short stop in the run, since with one it is false (UnseenAtTheLimit).
- Timestamps: usage events carry none in SseStream, and Accumulator names the one place where a retry keeps them.
- Wrap-around of token totals and of counts, and rounding of doubles.
