# FruitcakeAI core: a verified model

This project models the deterministic core of FruitcakeAI, the code between the language model and
the database, and proves what it guarantees on every run. The model provider, the tools, the
database and the clock answer whatever they like: they are parameters or the steps of an
interleaving. `dafny verify dfyconfig.toml` checks the whole project.

- **Streams.** `StreamEvents`, `ThinkTags`, `ModelStream`: provider chunks become reasoning, text and
  tool-call events. A marker may be cut anywhere by a chunk boundary; the incremental reader is proved
  to agree with a single left-to-right split of the whole text. `TurnAccumulator`, `OllamaCalls`,
  `ModelTurn`: tool calls are rebuilt from interleaved fragments, and a streamed turn is one split.
- **Histories.** `Messages`, `RecapSelection`, `BoundaryText`, `Transcript`, `HistoryProjection`,
  `ProjectionPolicy`, `HistoryRepair`, `SystemMessages`: old tool results are shortened, everything before
  a cut becomes a recap, and calls without results are stripped. A transcript of whole tool chains stays
  one.
- **The agent loop.** `LoopGuards` ties every counter and window of the convergence policy to the trace
  of executed tool turns, and `StopReasons` says when a trace is stopped and why. `AgentLoop` runs whole conversations and proves what every request of every
  run carries and how a run may end.
- **Protocols and caches.** `AppApproval` (one pending row, any number of resolvers, crashes included),
  `ChatRuns` (running turns and duplicate sends), `SettingsCache` (least recently used with expiry,
  loads interleaved with writes and invalidations).
- **Linked sources.** `LinkedSources` (rescans of files and folders) and `SourceTree` (the folder tree
  and its serialization).
- **Small algorithms.** `DocumentSummary` (even sampling, map-reduce), `TableRow` (Markdown rows),
  `ProcessTree` (memory of a process and its descendants).

Where the code changes state, the model does: classes and loops are proved against a function of the
inputs or the old state, and the lemmas are about that function. `Text` holds the Python string
operations the code relies on, `Basics` what all modules share.

Five promises turned out to hold only under a condition. The code is kept as it is, the condition is
exact, and a failing instance stands beside it:

- A finish reason flushes the buffer, so content after it is not always read as one text with what came
  before. A stream, with any number of finish reasons, is read as one text if and only if none of them
  cuts a marker in two (`ModelStream.ReadAsOneText`; `ThinkTags.ReadApart` for two texts). A failing
  input: `ModelTurn.LateContentReadApart`.
- A complete tool call of a local provider is rebuilt from its own fragment alone exactly when no
  incomplete call of the stream is sent on with its number (`OllamaCalls.CompleteCallsKept`). A failing
  input: `OllamaCalls.RenumberedCallMerged`.
- Compacted evidence fits its limit exactly when it is short already or the limit exceeds the
  55-character marker (`HistoryProjection.EvidenceTextFits`). A failing input:
  `HistoryProjection.EvidenceTextTooLong`.
- A table row printed without padding comes back exactly when its last cell does not end in a backslash
  (`TableRow.TightRoundTrip`). A failing input: `TableRow.TightBackslash`.
- Invalidating a user's cached preferences works, however the run goes on, exactly when every database
  answer then on its way to one of the user's loads is the present row
  (`SettingsCache.FreshAfterInvalidation`). A failing input: `SettingsCache.LateAnswerRevivesOldRow`.

A preference snapshot from the cache was the stored row less than the time to live before it is
returned (`SettingsCache.HitIsWithinTtl`). One from the database is that recent, whatever happens
meanwhile, exactly when the load resumes less than the time to live after the answer
(`SettingsCache.AnswerIsWithinTtl`).

## Model

| member | source | states |
|---|---|---|
| ThinkTags.StreamAppend | app/agent/model_stream.py:228-269 | reading a text in two pieces, carrying only the mode and the held suffix across, is reading it in one piece |
| ThinkTags.TaggedText | app/agent/model_stream.py:228-255 | text between an opening and the next closing marker is reasoning, the text around it is visible |
| ThinkTags.StreamFlushed | app/agent/model_stream.py:228-255 | flushing what is held completes the one-shot split |
| ThinkTags.HeldIsLongest | app/agent/model_stream.py:257-262 | what is held is the longest suffix, after the last consumed marker, that is a proper prefix of the marker now sought; everything before it was let through |
| ThinkTags.ReadApart | app/agent/model_stream.py:215-255 | two texts read with a flush between them are read as one if and only if no marker lies across the place between them |
| ModelStream.PossibleMarkerSuffixLength | app/agent/model_stream.py:348-353 | the returned length is that of the longest suffix that may still become the marker |
| ModelStream.ModelStreamNormalizer.SplitTaggedContent | app/agent/model_stream.py:228-269 | the while loop emits and keeps exactly what one pass over buffer and content does, in non-empty text events only |
| ModelStream.ModelStreamNormalizer.FeedDelta | app/agent/model_stream.py:178-206 | a delta's reasoning field, its split content and one fragment for each tool call with its position, and no reports |
| ModelStream.ModelStreamNormalizer.Feed | app/agent/model_stream.py:167-219 | a chunk's characters, fragments and reports, all of them; a finish reason flushes the buffer and its event comes last |
| ModelStream.ModelStreamNormalizer.Finish | app/agent/model_stream.py:221-226 | the held characters go out, and the turn ends once only |
| ModelStream.NormalizeStream | app/agent/model_stream.py:272-278 | the events of a whole stream are its characters, its fragments in order, and exactly one closing event if no chunk finished the turn |
| ModelStream.StreamOutVisible | app/agent/model_stream.py:178-188 | reasoning that comes in a field of its own never reaches the visible text |
| ModelStream.ReadChunksIsStream | app/agent/model_stream.py:167-219 | between calls the normaliser is where a single read of everything so far would have left it |
| ModelStream.ChunkInvariance | app/agent/model_stream.py:167-269 | for every way of cutting a text into chunks, with any number of finish reasons none of which cuts a marker, the characters are those of one split of the whole |
| ModelStream.ReadAsOneText | app/agent/model_stream.py:215-269 | a stream with any number of finish reasons is read as one text if and only if none of them cuts a marker |
| ModelStream.NothingAfterIsUnstraddled | app/agent/model_stream.py:215-219 | a stream with nothing after a finish reason cuts no marker, so it is read as one text |
| ModelStream.HeldBetweenChunks | app/agent/model_stream.py:257-262 | between chunks the buffer is the longest possible beginning of a marker and nothing more |
| ModelStream.UsageReported | app/agent/model_stream.py:208-213 | a chunk yields a usage report exactly when something in it is positive, cached tokens and durations included |
| ModelStream.NormalizedMeans | app/agent/model_stream.py:312-345 | every count of a report keeps its place, none is negative, and only a missing total is made up |
| TurnAccumulator.ModelTurnAccumulator.Add | app/agent/model_stream.py:79-116 | after every event the fields are what all events so far amount to |
| TurnAccumulator.ModelTurnAccumulator.AddFragment | app/agent/model_stream.py:97-116 | the dictionary holds each key's own fragments merged, in order of first appearance |
| TurnAccumulator.ModelTurnAccumulator.Finish | app/agent/model_stream.py:118-153 | the turn is formed from all events, its calls are what their own fragments say, or it fails with the first call that cannot be formed |
| TurnAccumulator.RepresentsMore | app/agent/model_stream.py:97-116 | if the dictionary holds the calls of some fragments, then extended by one more, at whatever key, it holds those of all |
| TurnAccumulator.OfMeans | app/agent/model_stream.py:97-116 | the fragments of a key are its own ones, in stream order |
| TurnAccumulator.OrderMeans | app/agent/model_stream.py:97-116 | the keys are those of the fragments, in the order in which they first appear |
| TurnAccumulator.RebuiltMeans | app/agent/model_stream.py:108-116 | a rebuilt call joins the names and argument texts of its own fragments in stream order; of ids and argument objects the last one counts |
| TurnAccumulator.CallsMean | app/agent/model_stream.py:118-153 | what each returned call is, or which error the turn fails with, in terms of the fragments alone |
| TurnAccumulator.ExchangeNeighbours | app/agent/model_stream.py:97-116 | neighbouring fragments of different calls may be exchanged anywhere in a stream unless both open their call |
| TurnAccumulator.IdsDistinct | app/agent/model_stream.py:145 | two calls of a turn never share a generated id |
| OllamaCalls.ChunkParser.NumberCalls | app/agent/litellm_ollama_patch.py:103-108 | each complete call is numbered by the complete calls before it in the stream, others are left alone |
| OllamaCalls.TranslateStream | app/agent/litellm_ollama_patch.py:94-111 | over a whole stream, complete and incomplete calls mixed over its chunks, the n-th complete call is sent on with index n and the others with the index they have or, without one, with any |
| OllamaCalls.CompleteKeysDiffer | app/agent/litellm_ollama_patch.py:103-108 | two complete calls never share a key |
| OllamaCalls.CompleteCallsKept | app/agent/litellm_ollama_patch.py:77-108 | a complete call is rebuilt from its own fragment alone if and only if no incomplete call of the stream is sent on with its number as an index |
| OllamaCalls.RenumberedCallMerged | app/agent/litellm_ollama_patch.py:77-108 | an instance in which an unindexed incomplete call, numbered from zero in its own chunk, shares the key of a complete one |
| OllamaCalls.AllCompleteKept | app/agent/litellm_ollama_patch.py:77-108 | in a stream of complete calls all are rebuilt, each by itself and in order |
| ModelTurn.AccumulateTurn | app/agent/core.py:3714-3748 | accumulating event by event gives the turn the whole list stands for |
| ModelTurn.StreamTurn | app/agent/core.py:3714-3748 | a streamed turn carries all characters by channel, the last finish reason, the last usage that counts, and the calls that the fragments of the stream say |
| ModelTurn.TurnIsOneSplit | app/agent/model_stream.py:228-278 | the visible answer is the visible part of one split of all content, whatever the chunk boundaries, if no finish reason cuts a marker |
| ModelTurn.LateContentReadApart | app/agent/model_stream.py:215-218 | an instance in which a finish reason cuts a marker, which is let through as text |
| Messages.CompactTextFits | app/agent/compaction.py:83-87 | when shortened text fits its limit, both ways |
| Messages.CompactTextStarts | app/agent/compaction.py:83-87 | what is kept is the beginning of the text with single blanks, as long as the limit allows |
| Text.CollapseMeans | app/agent/compaction.py:83-87 | texts collapse alike exactly when they have the same words |
| Text.LinesMean | app/agent/compaction.py:175-181 | lines end at line breaks, a carriage return with a line feed being one, and nowhere else |
| RecapSelection.SelectRecapMessages | app/agent/compaction.py:97-118 | head and tail, in order, exactly as many as asked for; a dropped high-signal message is earlier than every kept tail one; a tail count of zero keeps all high-signal ones |
| RecapSelection.PreferredIsOptimal | app/agent/compaction.py:103-117 | no other choice of as many messages holds more high-signal ones |
| RecapSelection.ConclusionsFirst | app/agent/compaction.py:90-117 | no tool result or mere request for tools is kept at the price of what a user said or the assistant concluded |
| RecapSelection.PickAt | app/agent/compaction.py:117 | the kept messages stand in their order, each in its place |
| RecapSelection.ChosenSet | app/agent/compaction.py:108-112 | the last high-signal positions are all of them or as many as asked for, and any left out is earlier than every chosen one |
| BoundaryText.RenderedIsRecognised | app/agent/compaction.py:227-260 | every rendered boundary, in any mode and with any payload, is recognised as one |
| BoundaryText.RecognisedMeans | app/agent/compaction.py:259-260 | a text is taken for a boundary exactly when it begins, after whitespace, with one of the headers |
| BoundaryText.RenderedTells | app/agent/compaction.py:227-252 | a rendered boundary tells all of its payload, in order, under the titles of its mode |
| BoundaryText.RecapLinesFromMarker | app/agent/compaction.py:168-181 | metadata wins; otherwise the list items of the text up to the continuity section |
| BoundaryText.ParseRendered | app/agent/compaction.py:168-252 | parsing a rendered boundary returns the carried items, then the recap or its default line; tool-state items are added unless a continuity section precedes them |
| HistoryProjection.EvidenceTextFits | app/agent/core.py:1335-1344 | compacted evidence meets its limit exactly when it is short already or the limit exceeds the 55-character marker |
| HistoryProjection.EvidenceTextTooLong | app/agent/core.py:1335-1344 | a text of 56 characters under a limit of 55 comes back twice as long |
| HistoryProjection.SummaryFits | app/agent/core.py:1316-1321 | every summary fits a limit above the marker's length |
| HistoryProjection.CompactToolResults | app/agent/core.py:1482-1527 | each tool result is compacted by its class, age and limit or stays as it is, and the count is that of the changed ones |
| ProjectionPolicy.ShortenedByAge | app/agent/core.py:1482-1517 | aggressive limits shorten every result; otherwise recent ones stay up to the budget of their tool and older ones up to half of it, and any that is longer is shortened to that, unless this saves nothing |
| ProjectionPolicy.RecentMeans | app/agent/core.py:1483-1485 | recent results are those followed by fewer others than are kept |
| ProjectionPolicy.BudgetMeans | app/agent/context_budget.py:128-140 | how long a result may be, by its tool, the configured length and the history budget |
| ProjectionPolicy.ClassesAre | app/agent/context_budget.py:25-35 | which class of evidence a tool's results are |
| ProjectionPolicy.NamesTell | app/agent/context_budget.py:25-44 | classes and known roles are told apart by the names they are shown under |
| ProjectionPolicy.LimitsMean | app/agent/core.py:1459-1468 | the limits in force are those given, none below its floor, else those configured |
| ProjectionPolicy.NamedByLatest | app/agent/core.py:1295-1303 | a result belongs to the tool that the latest call with its id names |
| ProjectionPolicy.NotNamed | app/agent/core.py:1492 | a result whose id no call names belongs to an unknown tool |
| ProjectionPolicy.ShortenedTells | app/agent/core.py:1306-1332 | a shortened result names its tool, class, call, fingerprint and first length, and gives the summary |
| ProjectionPolicy.EvidenceTextEnds | app/agent/core.py:1335-1344 | cut evidence keeps seven tenths of its room for the beginning of the text and the rest for its end |
| ProjectionPolicy.SummaryIs | app/agent/core.py:1316-1321 | a catalog is shown in full if it fits, else by its identities; only then is a text cut |
| ProjectionPolicy.CompactedNeedsNoMore | app/agent/core.py:1482-1527 | compaction never adds tokens |
| ProjectionPolicy.TokensAddUp | app/agent/compaction.py:71-80 | tokens are counted message by message, by contents and calls |
| ProjectionPolicy.EstimateMeans | app/agent/compaction.py:50-52 | a token for every four characters, and one for any text that is not empty |
| HistoryProjection.CompactionKeepsShape | app/agent/core.py:1486-1517 | roles, calls and call ids are kept, only contents of tool messages change, and none grows |
| HistoryProjection.CompactedFits | app/agent/context_budget.py:128-140 | a compacted result carries a summary for the limit it was given, which is never below the smaller of 400 and the configured one; above 55 the summary fits it |
| HistoryProjection.SnapCutToToolChain | app/agent/core.py:1444-1449 | the last position up to the cut that is no tool result |
| HistoryProjection.RecapSummaries | app/agent/compaction.py:143-158 | one line for each selected message of the prefix, in order |
| ProjectionPolicy.LineTells | app/agent/compaction.py:121-141 | a line names whose message it is and gives its beginning, or the first five tools it requests |
| ProjectionPolicy.RecapTells | app/agent/core.py:1429-1441 | a recap says what it is and gives all of its lines |
| HistoryProjection.BuildCompactionBoundaryMessage | app/agent/core.py:1429-1441 | a recap of the selected messages that is itself recognised as a boundary |
| HistoryProjection.CutHistory | app/agent/core.py:1529-1549 | the cut separates no results from their calls and leaves the most recent messages alone; earlier boundaries, at most one new recap, and the suffix |
| HistoryProjection.ProjectHistory | app/agent/core.py:1452-1552 | the whole projection with its report: tokens, changed results, collapsed and preserved messages, which add up to the cut |
| HistoryProjection.ProjectionKeepsBoundaries | app/agent/core.py:1533-1548 | no boundary of the history is lost or reordered, and at most one is added at the cut |
| ProjectionPolicy.BoundariesAndOthers | app/agent/core.py:1536-1537 | a prefix falls into its boundaries and its other messages, each in order |
| HistoryProjection.CompactionKeepsWhole | app/agent/core.py:1482-1527 | compaction breaks no tool chain |
| HistoryProjection.CutKeepsWhole | app/agent/core.py:1530-1548 | neither does cutting and putting boundaries and a recap in front |
| HistoryProjection.ProjectionKeepsWhole | app/agent/core.py:1452-1552 | whole chains stay whole chains through a projection |
| HistoryRepair.SanitizeHistoryToolChains | app/agent/core.py:393-427 | the backward pass strips exactly the assistant messages with a call not answered later, and counts them |
| HistoryRepair.SanitizedIsAnswered | app/agent/core.py:404-424 | on any history every remaining call is answered later |
| HistoryRepair.StrippedIsUnanswered | app/agent/core.py:417-422 | a message is changed exactly when one of its calls is not answered later, and only loses its calls |
| HistoryRepair.SanitizedTwice | app/agent/core.py:393-427 | a second pass repairs nothing |
| HistoryRepair.WholeNeedsNoRepair | app/agent/core.py:393-427 | a transcript of whole chains is left as it is |
| SystemMessages.CoalescedIsStrict | app/agent/litellm_ollama_patch.py:159-186 | a system message can only come first, carries the text of all in order, and the other messages are as they were |
| Transcript.SystemAndOthers | app/agent/litellm_ollama_patch.py:159-186 | a history falls into its system texts and its other messages, each in order |
| SystemMessages.CoalescedTwice | app/agent/litellm_ollama_patch.py:166-172 | merging twice is merging once |
| SystemMessages.CoalescedIsWhole | app/agent/litellm_ollama_patch.py:159-186 | merging breaks no tool chain |
| LoopGuards.AgentLoopState.RecordSignatures | app/agent/core.py:3299-3326 | counters are trailing runs of the trace minus one; the lists are the ends of the trailing exploration block and of the family signatures |
| LoopGuards.AgentLoopState.ExecuteToolTurn | app/agent/core.py:3338-3546 | the decision to stop is that of the trace, threshold by threshold and in order |
| LoopGuards.AgentLoopState.StopByHistory | app/agent/core.py:3367-3546 | after deletes, handoffs and failed searches, what the recorded signatures decide is what the whole trace demands, with a synthesis of its own for each check that asks for one |
| LoopGuards.ChurnOnWindow | app/agent/core.py:2634-2642 | the kept window shows churn exactly when the whole exploration block does |
| StopReasons.StopMeans | app/agent/core.py:3338-3546 | a run is stopped for a reason exactly when the turns of its trace show what that reason asks for and nothing an earlier one does, and goes on exactly when they show nothing of the kind |
| StopReasons.NoExplorationChurn | app/agent/core.py:2634-2642 | no run goes on after a window of exploration turns with no more different signatures than permitted |
| LoopGuards.NoRepeatedSignature | app/agent/core.py:3367-3384 | no run goes on after threshold + 1 equal consecutive tool turns |
| LoopGuards.NoRepeatedSemantic | app/agent/core.py:3386-3429 | nor after threshold + 1 consecutive turns with one non-empty semantic signature |
| LoopGuards.NoFailedSearchLoop | app/agent/core.py:3346-3365 | nor after five consecutive failed searches |
| LoopGuards.NoFamilyAtThreshold | app/agent/core.py:3431-3458 | nor with any feed-query family at its threshold among the last six |
| AgentLoop.PreparedIsWhole | app/agent/core.py:1244-1248 | digests, notes and guidance break no chain |
| AgentLoop.NoteInserted | app/agent/core.py:1244-1248 | a note stands before a user message that ends the history, or at the end, and nothing else has changed |
| AgentLoop.PreparedKeeps | app/agent/core.py:1032-1064 | the digest, the note and the guidance stand in their places, and the rest of the history is as it was |
| AgentLoop.BuiltIsWhole | app/agent/core.py:259-319 | neither way of adding system messages breaks a chain |
| AgentLoop.BuiltCarriesHistory | app/agent/core.py:259-319 | a request ends in exactly the history behind its system messages; or it has one system message, the other messages in order, and the context in the latest user message |
| Text.NonBlankParts | app/agent/core.py:286-300 | of the parts of a context the blank ones go, and the others are stripped and keep their order |
| AgentLoop.Request | app/agent/core.py:430-518 | a request carries the projected and repaired history, dressed for its provider, and a whole history needs no repair |
| AgentLoop.DispatchToolCalls | app/agent/tools.py:1042-1077 | one result per call, in order, with the call's id and what the tool returned |
| AgentLoop.RewriteHeadlineCalls | app/agent/core.py:2162-2203 | in a run for headlines every feed call after the first loses its refresh, and all of them are counted |
| AgentLoop.RewrittenAt | app/agent/core.py:2162-2203 | a call changes only in its arguments: a later feed call loses a refresh it asks for, a web-context call gets its own |
| AgentLoop.RefreshOnce | app/agent/core.py:2162-2203 | over a whole run for headlines, at most one executed feed call refreshes the feeds |
| AgentLoop.MakeAttempt | app/agent/core.py:430-592 | one request, and after an overflow a second, tighter one with half the budget; the response is the answer to the last |
| AgentLoop.TurnAttempts | app/agent/core.py:3549-3613 | the attempts of a turn: a native stream where enabled, a completion if that fails before its first event, and one without tools if a local model cannot call them |
| AgentLoop.AttemptsAscend | app/agent/core.py:3549-3798 | a turn tries each way of asking at most once, in order, and another only when those before it gave no reply |
| AgentLoop.LastAttemptDecides | app/agent/core.py:3801-3860 | a turn acts on the calls or the text of its last reply, and on nothing after an exception |
| AgentLoop.AttemptsMean | app/agent/core.py:3549-3798 | why a turn asks again, and in which way: both directions |
| AgentLoop.AskModel | app/agent/core.py:3669-3935 | the attempts of a turn, and a second pass that streams the answer exactly when it is plain, not empty, wanted as a stream and did not come from one |
| AgentLoop.ToolTurn | app/agent/core.py:3259-3302 | the assistant message with its rewritten calls and all their results join the history, the guards see this turn, and the feed calls are counted |
| AgentLoop.AfterStepCarries | app/agent/core.py:3259-3302 | the history grows by the assistant message with all calls, in order, and by what the tool said to each |
| AgentLoop.SignatureTells | app/agent/core.py:3299 | the signature names each tool with the fingerprint of its own result |
| AgentLoop.RunTurn | app/agent/core.py:3669-3935 | one turn of the loop goes on or ends as its reply, the exceptions raised while asking and the trace demand |
| AgentLoop.RunAgent | app/agent/core.py:3619-3938 | a run is a log of turns, each starting from the history its predecessor left; at most the allowed turns, at most one empty answer survived, and an ending, exceptions included, that the log justifies |
| AgentLoop.RunStaysWhole | app/agent/core.py:3619-3938 | every request of every run carries a projection in which nothing had to be repaired, and so whole chains, if the first conversation did: first ones, overflow retries, completions after a failed native stream, those without tools and second passes; and nothing of that conversation is lost |
| AppApproval.AtMostOneCall | app/api/artifacts.py:187-237 | over every interleaving with crashes: at most one call, with the recorded intent, only after a committed approval, never on a denied row |
| AppApproval.StatusMoves | app/api/artifacts.py:214-237 | status moves only from pending to denied, or through executing to completed or failed |
| AppApproval.AnswersAreTrue | app/api/artifacts.py:194-237 | what a resolver is told agrees with the row and with who made the call |
| AppApproval.DecisionsAreKept | app/api/artifacts.py:187-237 | only an owner who approves executes or is told of an outcome, only one who does not is told of a denial, and who is turned away is so because of the row |
| AppApproval.CallsAreApproved | app/api/artifacts.py:214-237 | a call is only made after an approval |
| AppApproval.OutcomesAreTrue | app/api/artifacts.py:221-237 | who is told of success has a call that returned, who is told of failure one that did not |
| AppApproval.UninterruptedResolves | app/api/artifacts.py:187-237 | among any number of resolvers, one that is not interrupted does to the row what the method does |
| AppApproval.DenialIsFinal | app/api/artifacts.py:214-217 | after a denial nothing calls the tool or changes the row |
| AppApproval.StoredRequestIsCalled | app/api/artifacts.py:128-157 | a row stored for a request can only ever cause that request's call |
| AppApproval.StoredRequestCanBeCalled | app/api/artifacts.py:128-157 | and approved by the user it was stored for, it does |
| AppApproval.ResolveToolApproval | app/api/artifacts.py:187-237 | which calls are made, what becomes of the row and what is answered, for every row, user, decision and outcome |
| ChatRuns.GrantsAreSeparated | app/chat_runtime.py:168-238 | two granted claims of a prompt are separated by another prompt's claim or by more than the window since its last touch |
| ChatRuns.QuickRepeatIsTurnedDown | app/chat_runtime.py:175-182 | a repeat within the window of every touch is turned down |
| ChatRuns.OnlyRepeatsAreTurnedDown | app/chat_runtime.py:168-190 | nothing but a repeat within the window of the last touch is turned down |
| ChatRuns.NormalizedMeans | app/chat_runtime.py:105-107 | a prompt has a key exactly if it is not blank, and two share one exactly if they are the same words |
| ChatRuns.EntryIsLastTouch | app/chat_runtime.py:168-225 | the entry is stamped with the last touch and active exactly when that was a claim |
| ChatRuns.StoredTogether | app/chat_runtime.py:116-132 | a stored task is the one last registered, and its run id was registered with it |
| ChatRuns.StaleClearIsIgnored | app/chat_runtime.py:124-132 | clearing with an old task never removes a newer one |
| ChatRuns.ChatRunManager.RegisterRun | app/chat_runtime.py:116-122 | a registration replaces task and run id together |
| ChatRuns.ChatRunManager.ClearRun | app/chat_runtime.py:124-132 | only the session's own task is cleared |
| ChatRuns.ChatRunManager.RequestStop | app/chat_runtime.py:134-140 | cancels the session's unfinished task and nothing else |
| ChatRuns.ChatRunManager.RequestStopRun | app/chat_runtime.py:142-153 | cancels exactly the task registered with the given run id, if it is still current and unfinished |
| ChatRuns.ChatRunManager.ClaimPrompt | app/chat_runtime.py:168-190 | granted or turned down as the history of claims demands, reporting whether the first send is still active, with the fingerprint of the prompt as it is normalised |
| ChatRuns.ChatRunManager.ClaimClientSendId | app/chat_runtime.py:192-212 | the same for client send ids |
| ChatRuns.ChatRunManager.MarkPromptFinished | app/chat_runtime.py:214-225 | finishing touches only the entry of this prompt |
| ChatRuns.ChatRunManager.MarkClientSendIdFinished | app/chat_runtime.py:227-238 | the same for client send ids |
| SettingsCache.UserSettingsResolver.LookUp | app/settings_service.py:176-180 | a fresh entry is returned and moved to the end; otherwise nothing changes |
| SettingsCache.UserSettingsResolver.Store | app/settings_service.py:197-200 | the entry is stored last and the oldest ones go until the cache fits |
| SettingsCache.UserSettingsResolver.Invalidate | app/settings_service.py:167-169 | this user's entry goes, the others keep their order |
| SettingsCache.StoredMeans | app/settings_service.py:197-200 | storing replaces the user's entry; of all others the latest stay as they were, as many as fit |
| SettingsCache.CacheServes | app/settings_service.py:176-180 | what a load has stored is given to another one without asking the database if and only if that begins within the time to live |
| SettingsCache.CacheIsOrderly | app/settings_service.py:171-201 | after every step of every interleaving the cache fits its size and is in order of last touch |
| SettingsCache.ReturnedIsRecent | app/settings_service.py:171-201 | a returned snapshot was the stored row at some moment since its load started or less than the time to live before |
| SettingsCache.HitIsWithinTtl | app/settings_service.py:176-180 | a snapshot from the cache was the stored row less than the time to live before it is returned |
| SettingsCache.AnswerIsWithinTtl | app/settings_service.py:182-201 | a snapshot from the database was that recently stored, whatever happens meanwhile, if and only if the load resumes less than the time to live after the answer |
| SettingsCache.FreshAfterInvalidation | app/settings_service.py:167-201 | after an invalidation no pending load of the user returns an older row, however the run goes on, if and only if every database answer on its way to one of them is the present row |
| SettingsCache.LateAnswerRevivesOldRow | app/settings_service.py:182-197 | an instance in which an answer on its way brings an old row back |
| LinkedSources.FastPathAgrees | app/library_sources.py:108-120 | the stat-only path is taken exactly when the slow one would report no change, and leaves the same document |
| LinkedSources.OutcomeMeans | app/library_sources.py:423-446 | new and out-of-date documents with content are queued with what the file now shows, and any other is only seen |
| LinkedSources.Document.SyncWith | app/library_sources.py:584-618 | fields are updated in place to what the slow path prescribes |
| LinkedSources.ScannedMore | app/library_sources.py:423-446 | scanning one more file in place, among old and new documents, gives what that file alone demands and leaves all others as they are |
| LinkedSources.RescanCombined | app/library_sources.py:422-453 | the loop over files and the loop over unseen documents together make a rescan |
| LinkedSources.LinkedSource.RescanFolder | app/library_sources.py:413-459 | after a rescan every file seen has its document scanned, every other document is missing, nothing else changed |
| LinkedSources.LinkedSource.RescanFile | app/library_sources.py:362-411 | the same for a single linked file, whose documents are dropped when it has become empty |
| LinkedSources.StatsAddUp | app/library_sources.py:345-353 | each file seen is counted once, queued is created plus updated, missing is the number of documents not seen |
| LinkedSources.SecondRescanIsQuiet | app/library_sources.py:423-453 | a second rescan of an unchanged tree queues exactly the documents whose ingestion failed in between |
| LinkedSources.ReturningIsQueued | app/library_sources.py:423-453 | files that one rescan missed are queued by the next one if they have content, even with the recorded size and time, besides the documents whose ingestion failed, and none is created twice |
| SourceTree.InsertedInfo | app/library_sources.py:485-518 | one law for every path: the inserted one is marked, those on the way exist, all others are as before |
| SourceTree.FolderTree.InsertPath | app/library_sources.py:495-518 | the cursor walk over the dictionaries has the effect of that law |
| SourceTree.FolderTree.InsertAll | app/library_sources.py:462-482 | so has a sequence of inserts |
| SourceTree.BuiltInfo | app/library_sources.py:485-518 | nodes are the non-empty prefixes of the inserted paths, excluded by any insert at that node, otherwise as the last insert said |
| SourceTree.BuiltWellFormed | app/library_sources.py:501-513 | siblings have distinct names and each node's path is its names from the root |
| SourceTree.SerializedIsSorted | app/library_sources.py:521-542 | siblings are strictly sorted at every level |
| SourceTree.SerializedInfo | app/library_sources.py:521-542 | serialization shows the same at every path |
| SourceTree.SerializedTree | app/library_sources.py:462-542 | the serialized nodes are the non-empty prefixes of the inserted paths, once each, sorted |
| DocumentSummary.RoundHalfEven | app/agent/tools.py:131 | the nearest integer, and the even one of two |
| DocumentSummary.SpreadGap | app/agent/tools.py:129-133 | neighbouring positions are floor(last / (n - 1)) apart or one more |
| DocumentSummary.PositionsAreEven | app/agent/tools.py:129-134 | exactly n strictly increasing positions from the first to the last |
| DocumentSummary.SampleIsEven | app/agent/tools.py:124-134 | what is sampled, for every budget |
| DocumentSummary.SummarizeBatches | app/agent/tools.py:1955-1965 | the batch loop cuts the list into consecutive batches, the last one shorter |
| DocumentSummary.BatchesKeepLeaves | app/agent/tools.py:1955-1965 | batching keeps all chunks in order and makes as many calls as there are batches |
| DocumentSummary.FewCalls | app/agent/tools.py:1838-1839 | at most size + 1 calls for size * size chunks |
| DocumentSummary.Summarize | app/agent/tools.py:1950-1968 | the loops end; the tree's leaves are the chunks in order, no call reads more than a batch, and no tree is lower |
| DocumentSummary.SummarizeDocument | app/agent/tools.py:1901-1968 | a document is summarised from its even sample in at most nine calls |
| TableRow.SplitMarkdownTableRow | app/agent/chat_content.py:229-253 | the character loop yields the cells of the row's inside |
| TableRow.PrintedIsSplit | app/agent/chat_content.py:229-253 | splitting a printed row gives the stripped cells, with one more exactly without padding and after a final backslash |
| TableRow.TightRoundTrip | app/agent/chat_content.py:234-235 | stripped cells printed without padding come back if and only if the last one does not end in a backslash |
| TableRow.TightBackslash | app/agent/chat_content.py:234-235 | a single backslash, printed that way, comes back as two cells |
| TableRow.SplitIsCanonical | app/agent/chat_content.py:229-253 | any line, split and printed with padding, splits into the same cells again |
| ProcessTree.ReadRows | scripts/probe_pi_runtime.py:29-34 | the last line of a process counts, and each is iterated once |
| ProcessTree.Descendants | scripts/probe_pi_runtime.py:35-42 | the loop ends, on cyclic parents too, with exactly the processes that lead to the root |
| ProcessTree.SumOf | scripts/probe_pi_runtime.py:43 | each chosen row is added once, in whatever order the set is read |
| ProcessTree.ProcessTreeRss | scripts/probe_pi_runtime.py:20-43 | the total over the tree, or nothing without a root |
| ProcessTree.TreeTotalIsUnique | scripts/probe_pi_runtime.py:43 | there is only one such total |

## Left out

- Model, HTTP, subprocess and database calls, asyncio and the event loop: methods that hold a lock or do not await are atomic, the others are cut at their awaits.
- LiteLLM: it is assumed to keep a call index that is already set, to give any index to a call without one, and to write an argument object as its JSON text; the second reasoning split inside the patched iterator is not part of the model.
- JSON: arguments are opaque texts, the decoder of streamed arguments, the two renderings of a catalog and content fingerprints are arbitrary functions. Counts in a usage report are integers; the code reads anything else as zero.
- Floating point: the 70/30 split of evidence and the sampling positions use exact rationals.
- Unicode: whitespace and line breaks are Python's fixed sets, without case folding; names are compared by code point.
- Roles: a message role is one of the four known ones or a label, without surrounding whitespace; multi-part message contents and `reasoning_content` on history messages are not modelled.
- `_rewrite_web_context_tool_calls`: an arbitrary rewriting of the arguments of web-context calls; reading and clearing the refresh field of feed arguments is given by two functions, since JSON is opaque, and `AgentLoop.RefreshOnce` takes it that a cleared field does not ask for a refresh.
- Semantic, feed-family, failed-search, delete and handoff recognisers, and evidence synthesis: vocabulary heuristics, given to the guards as facts of a turn; only the requests of an evidence synthesis carry histories of their own and are outside the main loop.
- Exceptions raised by tools, callbacks and event emitters; those raised while asking the model are modelled. A failure in the middle of a second pass, after part of the answer has gone out, is not told apart from one before it.
- The wording of the loop's notes is shortened, and text of a native stream that has gone out before the stream breaks off is not modelled.
- `plan_request_budget`: only its history limit enters, as an arbitrary number per turn.
- Orphan tool results: the repair pass leaves them in place, as the code does; histories that are not whole chains are covered by `HistoryRepair.SanitizedIsAnswered` and `HistoryRepair.StrippedIsUnanswered` only.
- Reasoning summaries, progress events, callbacks, metrics and logs.
- The second audit row of a read-only app call, and the texts of approval results beyond their kind.
- `is_active` and `active_run_id` of the run manager: they read what `ChatRuns.StoredTogether` describes.
- A negative cache size; the layering of resolved settings over deployment defaults.
- Two stats of one file within one rescan are taken to be equal; display names, titles, mime types and the removal of search-index entries are not modelled.
- Nested dictionaries of the tree: one map keyed by path stands for them, and path parsing is given as a list of parts; processing status and sync status are one text.
- The wording and labels of summary prompts, and the softening of unsupported totals.
- The scan for whole tables, alignment rows and chart hints; parsing of the process listing's text.
- Routing, validation, intents, personas, secrets, path approval and shell policy.
