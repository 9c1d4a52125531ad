# Ziya's streaming engine, verified

Ziya turns a model's event stream, cut into arbitrary pieces, into displayed
text, tool calls, and a conversation fit for the next request. This project
models the state machines that do it and proves what holds for every stream,
every cut and every run. Providers, tools and users are arbitrary: a provider is
any sequence of events, a tool any result or failure, a user any sequence of
messages.

Run `dafny verify dfyconfig.toml`.

| file | models |
|---|---|
| `DeltaFilter.dfy` | the filter that strips meta tags from a live delta stream, against a one-shot stripper |
| `ToolStream.dfy` | interleaved tool calls of one response |
| `ToolExecution.dfy`, `Feedback.dfy` | one tool call as a sequence of events; user feedback |
| `OutcomeDecider.dfy`, `ToolLoop.dfy`, `Messages.dfy` | iterations of the tool loop, continuation budgets, pairing of calls and results |
| `LoopSteps.dfy` | what an iteration puts on record, message by message |
| `LoopHistory.dfy` | the loop's outcomes read off the steps of the run: user stops, stalls, the intent cap |
| `ProviderLoop.dfy` | the tool loop over provider events |
| `TextPipeline.dfy` | a run's text, thoughts and tool starts on their way to the screen, over many responses |
| `TextTracking.dfy` | which of the shown text the fence tracker sees |
| `TextBuffering.dfy`, `FenceSpacing.dfy` | where text waits before it is shown; blank lines put before fences |
| `FenceTracker.dfy` | the fence tracker against section 4.5 of the CommonMark Spec 0.31.2 |
| `RewindStack.dfy` | the terminal's fence stack and its rewind |
| `ConversationBuilder.dfy` | sanitising of input messages |
| `Repetition.dfy` | the live repetition detector |
| `Backoff.dfy` | retries, waiting, token limit, inter-tool delay (over reals) |
| `FileSections.dfy` | file sections of the prompt and the tokens attributed to them |
| `TaskSplice.dfy`, `BeadForest.dfy`, `FeedbackHub.dfy` | splicing of task results, the task tree, the feedback websocket's queues |
| `Strings.dfy` | Python's white space, `strip`, `find`, `split`, `join` |

Where the source changes state step by step, the model is a class or a method
with loops, and it is proved against functions of the history (all text fed, all
events read, all operations done); the theorems are about those functions. Tags,
prompt texts and the sentence normaliser are parameters where nothing depends on
their wording.

## Where the code and its promises differ

The model does what the code does. These are the places where a promise made by
comments, documentation or the obvious reading holds only under a condition; the
member named states the exact one.

- Shown text departs from recorded text when something is shown past text that
  waits in the optimizer: a thought, a closing thinking tag, or text held for a
  fence that overtakes white space; and recorded text departs from the order in
  which it came when a thought is recorded past text held for a fence
  (`RunInOrderIff`, `ThoughtOvertakesIff`).
- `flush_remaining` never lets go of a blank buffer, and the buffer outlives its
  response: a response's last white space is shown in front of the next
  response's text, or deleted by a retry (`AfterStop`, `ResponseShows`,
  `WhiteSpaceStays`, `WhiteSpaceComesLater`).
- The fence-spacing substitution splits tagged fences of four or more backticks,
  unless they follow another character on their line (`FenceWholeIff`).
- The stream filter shows less than the regular expression for complete strings
  leaves, as soon as an opener is never closed (`StripVersusReSub`).
- Duplicate tool calls are recognised by `name_id`, which different calls can
  share: the second is then dropped and gets no result (`OpensIff`,
  `DroppedGetsNothing`, `SignaturesCollide`).
- If something raises behind a finished tool's result, the call records two
  results, and the model is sent both unless it was showing the first that
  raised (`Plan`, `OutcomeIsExact`).
- The intent cap is meant to be reset by tool work, but the decider reads the
  counter before the caller resets it, so a reached cap is final
  (`IntentFollowedIff`, `IntentCapIsFinal`, `CapIsReached`).
- Fence transitions are counted per response, so "progress" of an open code block
  compares counters of different responses: a response that opened or closed a
  fence can still count as a stall (`BlockStallIff`).
- The fence tracker does not see text that a tool start flushes out of the
  optimizer (`RunTracks`).
- Feedback after a tool iteration is meant to follow the answer once; as only the
  last three messages are searched for it, the answer is put in again in front
  of every third message (`FeedbackIsWoven`).
- Interrupts drained after an iteration without tools are dropped
  (`UserStopIff`, `InterruptsDropped`).
- Sanitising that blanks a shown answer makes the prefill guard end the next
  iteration (`AssistantLastIff`, `BlankedAnswerEndsRun`).
- A token limit below 2048 is raised by an error (`TokenLimitRisesIff`); from
  2048 on it only falls (`LimitNeverRises`).
- Closing "the" open block on a rewind closes only the innermost
  (`RewindClosesIff`).
- With a list as system prompt, token attribution divides by the number of parts
  (`ListPromptOverflows`, `NeverOverflowsIff`). Line labels of seven digits are
  not recognised (`AnnotatedReadsBack`), and files read back from the combined
  prompt have escaped backticks and have grown by a line, the last one by two
  (`CombinedThenRead`).
- When the first feedback connection leaves, the next one can deliver again what
  the monitor had consumed (`NothingTwiceIff`, `SuccessorRepeatsIff`,
  `TakeoverRepeats`).

## Model

| member | source | states |
|---|---|---|
| DeltaFilter.BorderLemma | app/cli_card_runner.py:131-151 | keeping only the longest tail that begins the closing tag loses no later match: the first match and every later tail are the same from there |
| DeltaFilter.ScanExtend | app/cli_card_runner.py:139-170 | chunk invariance: scanning on from where a shorter text stopped is scanning the longer text from the start, in text shown, held-back position and mode |
| DeltaFilter.ScanLeavesNormal | app/cli_card_runner.py:149-168 | held-back text is a proper beginning of the closing tag inside a block; outside it is empty, a proper beginning of an opening tag, or a self-assessment tag without `>` |
| DeltaFilter.ScanIsStrip | app/cli_card_runner.py:139-180 | what a stream shows, flush included, is the one-shot stripping of the complete text |
| DeltaFilter.StripIsSubsequence | app/cli_card_runner.py:139-180 | nothing is invented or reordered |
| DeltaFilter.StripKeepsIff | app/cli_card_runner.py:157-169 | text passes unchanged exactly if no opener and no closed self-assessment tag occurs in it |
| DeltaFilter.StripVersusReSub | app/cli_card_runner.py:101-111 | without self-assessment tags the stream equals the regular expression's result exactly if every opener is closed; otherwise it is shorter |
| DeltaFilter.DeltaFilter.TailPrefixLen | app/cli_card_runner.py:131-137 | the largest `k` such that the last `k` characters begin one of the tags |
| DeltaFilter.DeltaFilter.Feed | app/cli_card_runner.py:139-170 | the output is what the scan of all text fed adds, and the state is that scan's state |
| DeltaFilter.DeltaFilter.Flush | app/cli_card_runner.py:172-180 | everything shown is the one-shot stripping; an open block is dropped |
| DeltaFilter.RenderTask | app/cli_card_runner.py:114-180 | for every cut of a stream, feeding and flushing shows the one-shot stripping of the concatenation |
| ToolStream.ResultsAreCompletions | app/streaming_tool_executor.py:2792-3146 | without imitated calls and stops, result ids are exactly the ids of first ends, in completion order, whatever the outcome of each call |
| ToolStream.CompletedRefines | app/streaming_tool_executor.py:2792-3146 | the first end of an active call moves the mutable tables to what the longer event history means |
| ToolStream.InputRefines | app/streaming_tool_executor.py:2764-2774 | a fragment goes to the call that owns its index and to no other |
| ToolStream.StartRefines | app/streaming_tool_executor.py:2599-2630 | a start with a new id, index and signature opens exactly one call |
| ToolStream.Response.Handle | app/streaming_tool_executor.py:2569-3146 | the whole new state after any event, duplicates and late ends included, and that the tables still are the meaning of the events read |
| ToolStream.Response.Complete | app/streaming_tool_executor.py:2792-3146 | the first end of an active call yields one result among all outcomes, or stops |
| ToolStream.EndAddsIff | app/streaming_tool_executor.py:2803-2865 | which result that is: a skip after feedback; else the rejection of arguments that are neither blank nor in braces; else what the outcome says, a tool that runs giving exactly its own output |
| ToolStream.CompleteIff | app/streaming_tool_executor.py:2819-2827 | arguments pass for complete exactly if they are blank or stand in braces, white space aside |
| ToolStream.Read | app/streaming_tool_executor.py:2432-3177 | what ends the reading and the state then, for any stream; for any interleaving with distinct ids and indices the tables are the meaning of the events; results are there exactly if a tool ran |
| ToolStream.OpensIff | app/streaming_tool_executor.py:2599-2620 | in any stream a start opens a call exactly if no earlier start of the response has its signature; otherwise its index is skipped and nothing else changes |
| ToolStream.DroppedGetsNothing | app/streaming_tool_executor.py:2764-3146 | fragments and ends at an index where no call was opened change nothing, whatever else is streamed |
| ToolStream.SignaturesCollide | app/streaming_tool_executor.py:2604-2610 | two calls with different ids and one signature: the second is dropped and its end produces no result |
| ToolExecution.Plan | app/tool_execution.py:82-426 | which results a call records, which of them the model is sent, and what feedback is deferred: exactly one result unless the user stopped first (none) or something raised behind the result: while it was shown, in the delay or in the feedback drain (two); the model is sent every result but one whose showing raised |
| ToolExecution.ToolExecContext.ExecuteSingleTool | app/tool_execution.py:69-426 | the exact event sequence of a call, its deferred feedback, flags and delay |
| ToolExecution.ToolExecContext.Drain | app/tool_execution.py:107-130 | feedback is deferred in order up to the first stop, and what comes after the stop is dropped |
| ToolExecution.ScriptAddsUp | app/tool_execution.py:69-426 | the events add up to the plan: results, what the model is sent, confirmed feedback equal to deferred feedback shortened, and nothing after the end of the stream |
| ToolExecution.OutcomeIsExact | app/tool_execution.py:148-426 | a call records what its outcome stands for in the response model exactly unless something raised behind the result |
| Feedback.DrainMidStream | app/streaming_tool_executor.py:2483-2499 | the drain between stream events stops on any stop message, and otherwise puts everything back unchanged and in order |
| Feedback.BeforeStop | app/streaming_tool_executor.py:2320-2333 | the longest beginning without a stop message |
| Feedback.StopsIff | app/streaming_tool_executor.py:2320-2333 | a message stops exactly if it is an interrupt or has one of five words in it, whatever the case |
| OutcomeDecider.Decide | app/streaming_tool_executor.py:600-744 | exactly when each of the fourteen verdicts is reached, every reason for an end included |
| OutcomeDecider.SpendingEndsMore | app/streaming_tool_executor.py:600-744 | a run that ends with less spent also ends with more spent |
| OutcomeDecider.AllSpentGoesOnIff | app/streaming_tool_executor.py:600-744 | with every budget spent, exactly what still goes on |
| ToolLoop.PairedIterate | app/streaming_tool_executor.py:3254-3336 | an iteration from a paired conversation sends and leaves a paired one, whatever the response, errors and feedback |
| ToolLoop.PairedRun | app/streaming_tool_executor.py:3254-3336 | over whole runs every request pairs each assistant turn's tool calls, in order, with the results in the next message, and no result stands alone |
| Messages.PlainIsPaired | app/streaming_tool_executor.py:3254-3336 | a history of plain messages is one to start from |
| ToolLoop.AssistantIds | app/streaming_tool_executor.py:3267-3287 | the calls of an assembled assistant message are, in order, the ids of its results |
| ToolLoop.ResponseIsRecorded | app/streaming_tool_executor.py:3265-3336 | a response that ran tools is recorded right behind the request: the answer with every call (name without prefix, arguments of the first call with its id), one user turn with what history keeps of every result at its place (a text as it is, or its lines that do not begin with a shell prompt, trimmed; of images their texts joined by blanks), then deferred feedback |
| ToolLoop.IterateKeeps | app/streaming_tool_executor.py:2118-2410 | a request is the history with at most more messages behind it; an iteration changes nothing before its last message |
| ToolLoop.KeptRun | app/streaming_tool_executor.py:2118-3736 | over whole runs no turn is ever changed, dropped or moved, except that a nudge adds a block to the last one |
| ToolLoop.AssistantLastIff | app/streaming_tool_executor.py:3366-3736 | without prefill, an iteration that goes on leaves an assistant turn last exactly if sanitising blanked a shown answer, no correction was due and the user was silent |
| ToolLoop.NoPrefillRun | app/streaming_tool_executor.py:2372-2382 | if no answer is blanked, no iteration of any run starts with an assistant turn last and the guard never fires |
| ToolLoop.BlankedAnswerEndsRun | app/streaming_tool_executor.py:2372-2382 | after a blanked answer and a silent user the guard ends the run |
| ToolLoop.BudgetsOfRun | app/streaming_tool_executor.py:3366-3736 | over any run at most 3 nudges and graces, 2 empty retries, 2 hallucination retries that go on, 5 error retries, less what was spent before |
| ToolLoop.IntentsBetweenTools | app/streaming_tool_executor.py:3574-3596 | between two iterations that run tools at most cap + 1 = 4 intent continuations |
| ToolLoop.IntentCapIsFinal | app/streaming_tool_executor.py:681-686 | once the cap is reached no intent continuation follows in the run, tools or not |
| ToolLoop.SpacedRunNeverStalls | app/streaming_tool_executor.py:3574-3596 | with a tool iteration between every two intent continuations the counter stays at most 1 and the cap never ends the run |
| ToolLoop.BlockStallsInARow | app/streaming_tool_executor.py:3597-3626 | at most 5 block continuations in a row without progress |
| LoopSteps.CalledIff | app/streaming_tool_executor.py:2118-2410 | the provider is called exactly if nobody cancelled or stopped the iteration and the prefill guard lets it pass |
| LoopSteps.RequestIs | app/streaming_tool_executor.py:2316-2401 | a request is the history, the feedback that waited as user turns in order, and in every fifteenth iteration a reminder unless the last message is a block message or has its phrase |
| LoopSteps.ToolsAppend | app/streaming_tool_executor.py:3404-3475 | what goes on record behind the results: a warning after five empty calls in a row, and feedback up to the first stop, woven with the answer |
| LoopSteps.FeedbackIsWoven | app/streaming_tool_executor.py:3449-3466 | the answer stands in front of the first feedback message and again of every third one after it |
| LoopSteps.FeedbackIsDelivered | app/streaming_tool_executor.py:3476-3520 | directives that waited behind a text answer go on in one turn, joined by blanks, behind the answer, and exactly then the verdict is not asked for |
| LoopSteps.VerdictIs | app/streaming_tool_executor.py:3526-3736 | how the iteration goes on by the decider's verdict on exactly these facts, and every message it adds |
| LoopSteps.HallucinationAppends | app/streaming_tool_executor.py:3366-3403 | corrections after a fabricated result, and the end with the third |
| LoopSteps.ErrorAppendsNothing | app/streaming_tool_executor.py:3857-3895 | an exception leaves the request as the history, is retried exactly if it is a timeout or a transient one among the first five, and is counted unless it is none of the known kinds |
| LoopSteps.CountersAre | app/streaming_tool_executor.py:3366-3736 | every counter of the loop after an iteration, by how it went: a block's progress resets its stalls, tools since the last intent reset the intent stalls |
| ProviderLoop.StreamWithTools | app/streaming_tool_executor.py:2118-3736 | for any provider events the loop's requests are those of the run, in order: all paired, all continuing the history, and none ending in an assistant turn when no answer is blanked |
| ProviderLoop.RoundsAreConsistent | app/streaming_tool_executor.py:2432-3336 | reading any provider events gives rounds for which the pairing theorem holds |
| LoopHistory.UserStopIff | app/streaming_tool_executor.py:3436-3452 | exactly when the user's feedback ends a run: a stop drained at the start of an iteration, or after a response that ran tools |
| LoopHistory.InterruptsDropped | app/streaming_tool_executor.py:3478-3520 | after a response without tools the iteration is the same as if its interrupts had never been sent |
| LoopHistory.RunReflects | app/streaming_tool_executor.py:3574-3626 | over any run the intent and transition counters are functions of the steps so far |
| LoopHistory.BlockStallIff | app/streaming_tool_executor.py:3597-3626 | a block continuation is a stall exactly if its response was small and changed fences no more often than the last continued response |
| LoopHistory.IntentFollowedIff | app/streaming_tool_executor.py:3574-3596 | an announced action is followed up exactly if fewer than three intent continuations came since the last one that followed a tool iteration |
| LoopHistory.IntentsAreCounted | app/streaming_tool_executor.py:3574-3596 | that count, as a number of steps |
| LoopHistory.CapIsReached | app/streaming_tool_executor.py:674-686 | from any start three announcements, any number of tool iterations and one more announcement end in a refusal |
| TextPipeline.RunInOrderIff | app/streaming_tool_executor.py:2573-2790 | over any run of responses, thoughts, tool starts, stops and retries: shown text plus what the optimizer holds is recorded text after every event exactly if no event shows anything past text that waits there; recorded text plus what waits for a fence is what was fed, in order, exactly if no event records anything past text held |
| TextPipeline.InOrderNowIff | app/streaming_tool_executor.py:2573-2790 | at any single point of such a run, unless a thought began where a `<` waited: shown text is in order exactly if every event so far kept the order; what departed never comes back |
| TextPipeline.CalmRunInOrder | app/streaming_tool_executor.py:2775-2790 | it is enough that both buffers are empty where thoughts begin and at retries, and one of them at tool starts and stops |
| TextPipeline.RunConserves | app/streaming_tool_executor.py:2432-3177 | whatever the order, every character fed is recorded, held or deleted by a retry, and every character recorded is shown, waits in the optimizer or was deleted; recorded text is what was passed on with newlines put in |
| TextPipeline.AfterStop | app/message_stop_handler.py:85-122 | after a stop in an ordered run everything recorded is shown exactly if the optimizer is left empty; it keeps white space at most, and nothing waits for a fence |
| TextPipeline.ResponseShows | app/streaming_tool_executor.py:2411-2445 | a response shows the white space left by the one before, then its own recorded text without what it leaves itself |
| TextPipeline.ThoughtOvertakesIff | app/streaming_tool_executor.py:2775-2790 | a thought that begins where text without `<` waits keeps the order exactly if nothing waits |
| TextPipeline.WhiteSpaceStays | app/utils/streaming_optimizer.py:66-72 | a response of white space is recorded and not shown by any flush |
| TextPipeline.WhiteSpaceComesLater | app/utils/streaming_optimizer.py:49-72 | and the next response shows it in front of its own first sentence |
| TextPipeline.HeldIsEnd | app/text_delta_processor.py:435-457 | text held for a fence is always the end of all text so far, across thoughts and responses |
| TextPipeline.QuietRun | app/text_delta_processor.py:347-486 | what a delta is tested for stands together in the run's text, across thoughts and responses, so a run whose text has nothing special takes no other route |
| TextPipeline.Process | app/streaming_tool_executor.py:2432-3177 | the pipeline of mutable objects shows, records, holds and leaves what the run's meaning says, for any events without special text |
| TextPipeline.Pipeline.Handle | app/streaming_tool_executor.py:2569-2790 | the whole new state after any event, or that the text takes another route |
| TextPipeline.Pipeline.TextDelta | app/text_delta_processor.py:347-486 | closing of a thought, fence-opening buffer, spacing, recording and hand-over |
| TextPipeline.Pipeline.Optimize | app/text_delta_processor.py:909-922 | what the optimizer lets out, all of it at the end of a sentence, and the tracker that follows it |
| TextPipeline.Pipeline.ToolUseStart | app/streaming_tool_executor.py:2573-2597 | optimizer and fence buffer are flushed, in this order, the first without the tracker |
| TextPipeline.Pipeline.MessageStop | app/message_stop_handler.py:85-122 | an open thought is closed and both buffers are flushed |
| TextPipeline.Pipeline.CleanUp | app/streaming_tool_executor.py:1066-1073 | a retry deletes both buffers |
| TextPipeline.OptimizedKeeps | app/text_delta_processor.py:909-922 | at the end of a sentence the optimizer keeps white space at most, otherwise what words leave |
| TextPipeline.EndsSentenceIff | app/text_delta_processor.py:909-922 | a text ends a sentence exactly if a full stop, `!`, `?` or `:` stands before its trailing white space |
| TextPipeline.ThoughtShows | app/streaming_tool_executor.py:2775-2790 | a thought is shown and recorded as it is, the first one behind an opening tag |
| TextPipeline.ThoughtCloses | app/text_delta_processor.py:347-486 | the next text and the end of the response close it |
| TextTracking.StepTracks | app/text_delta_processor.py:909-922 | the tracker sees, in at most two pieces, all that an event newly shows, except thoughts and what a tool start flushes out of the optimizer |
| TextTracking.RunTracks | app/streaming_tool_executor.py:2432-3177 | over any run the tracker is the tracker of the shown pieces it sees since the response began |
| TextTracking.TextRunTracks | app/streaming_tool_executor.py:2432-3177 | without thoughts and tools these are all of the shown text |
| TextTracking.InBlockUnchanged | app/streaming_tool_executor.py:4084-4101 | text that arrives while the pieces shown end in an open block is recorded as it came, and nothing waits |
| TextBuffering.PassageKeeps | app/text_delta_processor.py:435-457 | the part that goes on and the part held make up the text, and a held part has a backtick |
| TextBuffering.LoudSpread | app/text_delta_processor.py:459-483 | normalising creates no visualization fence, imitated tool call or reasoning tag |
| TextBuffering.BreakIsLast | app/utils/streaming_optimizer.py:49-64 | what the optimizer sends ends in white space and what it keeps has none: no word is cut |
| TextBuffering.ReadyIff | app/utils/streaming_optimizer.py:20-64 | the optimizer sends exactly if a word has ended and there are 15 characters, or more than 5000 inside a code block, and then up to the last white space |
| TextBuffering.FencesOneByOne | app/utils/streaming_optimizer.py:40-47 | fences are counted one behind the other |
| TextBuffering.PassageIs | app/text_delta_processor.py:435-457 | exactly what waits: outside a block all of a text that ends in a backtick, and otherwise a last line that opens a fence and may go on |
| TextBuffering.StreamingContentOptimizer.AddContent | app/utils/streaming_optimizer.py:20-64 | one chunk and the rest are the buffer and the new content |
| TextBuffering.StreamingContentOptimizer.FlushRemaining | app/utils/streaming_optimizer.py:66-72 | everything comes out unless it is blank |
| FenceSpacing.NormalizedSpreads | app/streaming_tool_executor.py:4081-4113 | both substitutions only put newlines in |
| FenceSpacing.SpreadErases | app/streaming_tool_executor.py:4081-4113 | with newlines erased the text is the same |
| FenceSpacing.SpreadPart | app/streaming_tool_executor.py:4081-4113 | text on one line of the result also stands in the original |
| FenceSpacing.FenceWholeIff | app/streaming_tool_executor.py:4081-4113 | a tagged fence in a text outside a block comes through both substitutions whole exactly if it is three backticks wide or follows another character on its line; any other loses its first backtick to the line before |
| FenceSpacing.WholeFenceIsSpaced | app/streaming_tool_executor.py:4081-4113 | a tagged fence that comes through whole does so behind a blank line or at the very start |
| FenceSpacing.PlainStays | app/streaming_tool_executor.py:4081-4113 | text without a tagged fence stays as it is |
| FenceSpacing.FenceEndIff | app/streaming_tool_executor.py:4081-4082 | what a tagged fence is: three backticks or more, a letter, name characters, and white space or the end of the text |
| FenceTracker.CodeBlockTracker.Update | app/streaming_tool_executor.py:3959-4057 | the mutable tracker follows the line-by-line transition |
| FenceTracker.UpdateSplits | app/streaming_tool_executor.py:3982-3984 | updating on `a`, newline, `b` is updating on `a` and then on `b` |
| FenceTracker.NarrowLinesKeep | app/streaming_tool_executor.py:4001-4013 | inside a block lines leave the tracker as it is exactly if none has a fence as wide as the opener |
| FenceTracker.TransitionsGrow | app/streaming_tool_executor.py:4020-4057 | the transition counter never falls |
| FenceTracker.BlockTypeIsPlausible | app/streaming_tool_executor.py:3969-3981 | a block type is a plausible language tag, whatever the text |
| FenceTracker.OpenerIs | app/streaming_tool_executor.py:3993-4057 | fence lines outside a block: a plausible tag opens a block of that type and width, no tag an untyped one, an info string with a blank none |
| FenceTracker.InsideIs | app/streaming_tool_executor.py:3993-4040 | fence lines inside a block: content if narrower, else the next block if tagged and the end if not |
| FenceTracker.LineAgreesIff | app/streaming_tool_executor.py:3959-4057 | after a line the tracker and the CommonMark reference agree exactly if the line is one both read alike |
| FenceTracker.DocumentAgreesIff | app/streaming_tool_executor.py:3959-4057 | they agree after every line of a document exactly if every line is such a line in the state it is met in; a tagged line inside a block is one if it is narrower than the opener |
| FenceTracker.UniformDocumentAgrees | app/streaming_tool_executor.py:3959-4057 | documents whose backtick fences have one width, little indentation and single-word tags agree throughout, missing closers included |
| RewindStack.ParseMarkdownState | app/cli.py:1608-1634 | the loop computes the stack of the document's fence lines |
| RewindStack.FenceLineIs | app/cli.py:1613-1620 | white space, three or more backticks or tildes and a word make a fence line of that character and language |
| RewindStack.FenceLineNeeds | app/cli.py:1613-1620 | no other line is one |
| RewindStack.StackIsReducedWord | app/cli.py:1613-1628 | the stack is the fence characters with adjacent equal pairs cancelled |
| RewindStack.ReducedAlternates | app/cli.py:1613-1628 | the reduced word has no two equal neighbours |
| RewindStack.ReducedIff | app/cli.py:1613-1628 | a word is its own reduction exactly if it alternates |
| RewindStack.PairCancels | app/cli.py:1613-1628 | putting in or taking out any adjacent pair changes nothing |
| RewindStack.ReducedWordIsUnique | app/cli.py:1613-1628 | every chain of such changes that ends in an alternating word ends in the stack's word |
| RewindStack.ReducedWordIsReached | app/cli.py:1613-1628 | and there is such a chain |
| RewindStack.HandleRewindMarker | app/cli.py:1636-1666 | what is kept is the text before the last marker line, with a fence if a block was open; what is displayed is the text without its markers |
| RewindStack.UnmarkedKeepsIff | app/cli.py:1636-1666 | stripping markers leaves a text unchanged exactly if it has no complete marker |
| RewindStack.MarkerEndIs | app/cli.py:1636-1666 | what is stripped: the marker, a word without white space, the end of the comment, and a closing span right behind it |
| RewindStack.LastMarked | app/cli.py:1643-1654 | the marked line that cuts the text is the last one |
| RewindStack.RewindPopsInnermost | app/cli.py:1656-1660 | the appended fence pops exactly the innermost block |
| RewindStack.RewindClosesIff | app/cli.py:1656-1660 | no block stays open exactly if at most one was; text with one fence character qualifies |
| ConversationBuilder.BuildConversation | app/streaming_tool_executor.py:1281-1339 | the loops compute the kept turns, merged, and the last system content |
| ConversationBuilder.SystemIsLast | app/streaming_tool_executor.py:1281-1303 | the system prompt is the content of the last system message |
| ConversationBuilder.BuiltIsClean | app/streaming_tool_executor.py:1320-1339 | roles strictly alternate and no turn is empty |
| ConversationBuilder.BuiltKeepsEverything | app/streaming_tool_executor.py:1304-1339 | every non-text block and every character that is not white space is kept once, in order, with its speaker |
| ConversationBuilder.PlainRunIsJoined | app/streaming_tool_executor.py:1325-1328 | a run of plain turns of one speaker becomes their texts as they are, a blank line between them |
| ConversationBuilder.EmptyIffNoAtoms | app/streaming_tool_executor.py:1341-1364 | a content is dropped exactly if it holds nothing to keep |
| ConversationBuilder.BuildTwice | app/streaming_tool_executor.py:1281-1339 | a second application changes nothing |
| Repetition.Detector.Feed | app/streaming_tool_executor.py:2742-2762 | window and suppression depend on the text streamed, not on how it was cut |
| Repetition.CountedIs | app/streaming_tool_executor.py:2750-2753 | sentences of at least twenty characters count, in order |
| Repetition.CutIs | app/streaming_tool_executor.py:2745-2752 | a sentence ends with the white space behind the first full stop, `!` or `?` that has some |
| Repetition.ReadOnExtend | app/streaming_tool_executor.py:2745-2752 | cutting more text into sentences continues cutting less |
| Repetition.ReadOnSeesAll | app/streaming_tool_executor.py:2745-2762 | reading sentence by sentence sees the sequence of counted sentences |
| Repetition.SuppressedIff | app/streaming_tool_executor.py:2753-2762 | suppression happens exactly if some sentence is the third equal one within the window, and until then the window is an ending of the counted sentences |
| Repetition.WindowLength | app/streaming_tool_executor.py:2760-2762 | after `n` sentences the window holds at least min(30, n) and at most min(50, n) |
| Repetition.ThirdCopySuppresses | app/streaming_tool_executor.py:2754-2757 | a third copy within 30 sentences always suppresses |
| Repetition.SuppressionHasThreeCopies | app/streaming_tool_executor.py:2754-2757 | suppression means three copies among 51 sentences in a row |
| Backoff.ErrorHandler.Classify | app/streaming_tool_executor.py:1398-1504 | the new throttle state, the wait and whether a retry follows |
| Backoff.RunWaitsAtMost | app/streaming_tool_executor.py:1479-1504 | over any sequence of errors at most 5 are retried and waiting is at most 88 s, 44 s if all are read timeouts |
| Backoff.RetriedIs | app/streaming_tool_executor.py:1398-1504 | the errors of a run that are retried are exactly those up to the first that is no read timeout or transient one, or is the sixth |
| Backoff.FiveAreRetried | app/streaming_tool_executor.py:1479-1504 | and these are the waits |
| Backoff.TokenLimitRisesIff | app/streaming_tool_executor.py:1487-1499 | an error raises the token limit exactly if it was below 2048; it never ends below 2048 |
| Backoff.LimitNeverRises | app/streaming_tool_executor.py:1487-1499 | over any sequence of errors a limit of at least 2048 never rises and never falls below 2048 |
| Backoff.HandleAll | app/streaming_tool_executor.py:1398-1504 | the handler, exception after exception, leaves the limit these results are about |
| Backoff.DelayRange | app/tool_execution.py:366-372 | the inter-tool delay stays within 0.1 and 3 s; 7 successes in a row bring it to 0.1, 4 retriable errors in a row to 3 |
| FileSections.ExtractSections | app/streaming_tool_executor.py:983-1057 | the parser's loop computes the sections of the text, and text without a header has none |
| FileSections.ExtractFileContents | app/streaming_tool_executor.py:950-1064 | which content is searched, and what is found in it |
| FileSections.LastSection | app/streaming_tool_executor.py:997-1057 | any text: what stands behind the last header is entered under its trimmed path if both are there |
| FileSections.LineContentIs | app/streaming_tool_executor.py:1018-1043 | a line loses a label of three to six digits and a state in brackets, with the character behind it; every other line stays |
| FileSections.PutIs | app/streaming_tool_executor.py:1010-1012 | a path that comes again keeps its place and gets the new content |
| FileSections.FirstSystemIs | app/streaming_tool_executor.py:950-982 | without a system prompt the first system message is searched |
| FileSections.FlatIsJoined | app/streaming_tool_executor.py:950-982 | of a list its text parts, joined by blanks |
| FileSections.PrintThenRead | app/streaming_tool_executor.py:997-1057 | reading a printed document gives its table of files, whatever precedes the first header and even if file lines begin with `File: ` |
| FileSections.TableIsExact | app/streaming_tool_executor.py:997-1057 | for distinct trimmed paths with 1 to 999999 lines the table is the files as printed, in order |
| FileSections.AnnotatedReadsBack | app/streaming_tool_executor.py:1024-1037 | a printed line number is cut off exactly up to 999999 |
| FileSections.CombinedThenRead | app/agents/agent.py:1529-1530 | files read back from the combined prompt have their backticks escaped and have grown by a blank line, the last by two |
| FileSections.EscapedKeepsIff | app/agents/agent.py:1441-1443 | escaping leaves a line unchanged exactly if it has no backtick |
| FileSections.ExtractedAtMost | app/streaming_tool_executor.py:983-1057 | extracted characters never exceed the text's |
| FileSections.RecordedAtMost | app/streaming_tool_executor.py:1818-1832 | with a text as system prompt the attributed tokens lie between 1 and the tokens sent |
| FileSections.NeverOverflowsIff | app/streaming_tool_executor.py:1818-1832 | for any prompt the attributed tokens stay within the tokens sent, however many are sent, exactly if no more characters are extracted than counted |
| FileSections.RecordedAtMostIff | app/streaming_tool_executor.py:1818-1832 | and for a given number of tokens sent, exactly under this inequality |
| FileSections.ListPromptOverflows | app/streaming_tool_executor.py:1827-1832 | a list prompt for which 10 tokens sent are attributed as 40 |
| TaskSplice.InjectTaskResults | app/server.py:176-235 | in-place insertion in descending order gives the simultaneous splice, and every note stands where it belongs |
| TaskSplice.NotesStand | app/server.py:216-235 | every note stands behind exactly the messages up to its own, the last one with its id, or, if that is not known, up to the last one not younger |
| TaskSplice.InsertIsSplice | app/server.py:231-235 | inserting at an index no greater than all before it adds to the splice |
| TaskSplice.SortedSplicesAlike | app/server.py:231-235 | sorting does not change the splice |
| TaskSplice.SpliceErases | app/server.py:176-235 | erasing the synthetic messages gives back the history |
| TaskSplice.BucketInPlace | app/server.py:216-235 | messages with index i have exactly the first i messages of the history before them |
| TaskSplice.BucketReverses | app/server.py:231-235 | equal indices come out in reverse binding order |
| BeadForest.BuildForest | app/cli.py:2305-2313 | roots are exactly the beads whose parent is none of the beads, and every other bead stands under the id of its parent |
| BeadForest.PrintedOnceIff | app/cli.py:2315-2329 | a bead is printed once if its parent chain reaches a root, and otherwise never, cycles included |
| BeadForest.PrintedDepths | app/cli.py:2315-2329 | every line's depth is the length of its bead's parent chain and less than the number of beads |
| BeadForest.PrintedNests | app/cli.py:2315-2329 | each bead stands under its parent, the nearest line above with one step less indentation, and siblings stand in order of creation |
| BeadForest.ReachesRootIff | app/cli.py:2308-2313 | a parent chain reaches a root exactly if it does not end in a cycle |
| BeadForest.SortedKeeps | app/cli.py:2320-2328 | sorting by creation time is a permutation in order |
| BeadForest.SortedIsStable | app/cli.py:2320-2328 | beads created at the same time keep their order |
| FeedbackHub.Hub.HandleMessage | app/server.py:861-891 | a message goes into every queue of its conversation, the oldest one dropped if the queue is full |
| FeedbackHub.Hub.Unregister | app/server.py:897-906 | the socket goes, and the key with the last connection |
| FeedbackHub.Hub.Consume | app/streaming_tool_executor.py:1864-1873 | the monitor takes the oldest message of the first connection |
| FeedbackHub.BroadcastsAre | app/server.py:861-891 | the broadcasts are what clients sent as feedback or interrupts, in order, and nothing else |
| FeedbackHub.HeardIsEnding | app/server.py:866-891 | what a connection has heard are the latest broadcasts |
| FeedbackHub.ListedIffLive | app/server.py:849-906 | after any operations exactly the sockets that registered and have not left are listed, each once |
| FeedbackHub.NothingIsLost | app/server.py:866-891 | consumed or dropped messages followed by the queue are the messages broadcast since the socket registered; at most 100 wait |
| FeedbackHub.UntouchedKeepsAll | app/server.py:866-891 | a connection the monitor has not read from holds the last 100 broadcasts, those consumed elsewhere included |
| FeedbackHub.NothingTwiceIff | app/streaming_tool_executor.py:1864-1873 | with broadcasts numbered, over any operations none is consumed twice exactly if no take finds a number below the highest taken |
| FeedbackHub.TakenAgainIff | app/streaming_tool_executor.py:1864-1873 | a take repeats an earlier one exactly if its broadcast lies below the high mark |
| FeedbackHub.SuccessorRepeatsIff | app/streaming_tool_executor.py:1864-1873 | when an unread connection comes first, it repeats something exactly if the oldest of the last hundred broadcasts since it registered was already passed |
| FeedbackHub.TakeoverRepeats | app/streaming_tool_executor.py:1864-1873 | with two connections that wait for the same broadcasts, taking, the first leaving and taking again consumes one broadcast twice |

## Left out

- Providers, tools, storage, websockets, signing, clocks and sleeping: arbitrary inputs or absent.
- Hallucination detection, visualization routing, imitated tool fences in the text stream and the block-continuation loop at message stop: heuristic or resting on code not modelled; `TextPipeline` reports that a text takes such a route and says nothing after it. Repetition suppression and hallucination hits inside `process_text_delta` are not part of it.
- The text heuristics behind the decider (intent phrases, text after the last block) are the facts a `TextFacts` value lists.
- `_sanitize_assistant_text`, `strip_assessment_tag` and the normalisation of a sentence for comparison are arbitrary functions or values.
- The assembly of an iteration's messages follows the Bedrock builder; providers that send one message per tool result are not modelled. Assembly is taken not to raise.
- The tool loop's state is a value that `ProviderLoop.StreamWithTools` reassigns; aliasing between the conversation list and messages is not captured. Baseline measurement, usage reports, the cancel event inside a response, and the feedback block behind the loop are not part of this model.
- Regular-expression classes are ASCII where the source's are Unicode: word characters in fences, digits in line labels, lower-casing of stop words.
- Container blocks, indented code, HTML blocks and tabs in indentation are not part of the CommonMark reference.
- Waiting times, delays and the share of file characters are exact; floating-point rounding is not modelled.
- A message content of unknown type, which the sanitiser keeps as it is, does not occur in `ConversationBuilder`; a bead's status line, colours and counts do not in `BeadForest`.
