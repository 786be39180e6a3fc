# AtlasClaw message machinery, verified

A Dafny model of the parts of AtlasClaw that decide what a language model gets to see and what a user gets to
read: replay and persistence of tool calls, compaction and pruning of long histories, the streaming chunkers, the
agent router, the gateway's idempotency cache, and the prompt-file resolver.

    dafny verify dfyconfig.toml

## How it is laid out

| module | what it is about |
|---|---|
| `Transcripts`, `Pairing` | transcript entries; matching tool rows to pending calls; a simulation between two such passes |
| `HistoryMemory` | the loops of history replay, each against a function of its input |
| `StripProofs`, `HistoryProofs` | removing unresolved tool calls is idempotent, and so is building a history |
| `HistoryRows`, `ReplayTexts` | a built history message by message, and by which identity rows go; what the model reads, kind by kind |
| `ReplayProofs`, `ReplayBalance`, `ReplayTraps` | every tool return has its call; when calls and returns are in bijection; transcripts for which they are not |
| `ToolEvidence`, `PersistProofs`, `StoredCalls`, `StoredTexts` | what a turn persists: exactly which messages, with which calls and which texts |
| `FirstClaims`, `ReplayedCalls` | what replay reads of a turn's claims; exactly when it keeps every call of a transcript |
| `Rebasing`, `ReloadProofs`, `ReloadBalance`, `ReloadExact`, `ReloadTraps` | persisting and then reloading, behind any past: when no call is lost, exactly; when calls and returns balance; stored turns whose calls replay loses |
| `SessionRuns` | sessions of any number of turns |
| `Compaction`, `SplitProofs`, `GreedyCuts`, `ChunkOptimality`, `HistoryShare` | token estimates, splitting, what determines the chunks, optimal chunking, the history budget |
| `StagedSummary`, `SummaryProofs`, `CompactRuns` | staged summaries, and that nothing said is lost in them; runs of appended messages and compactions |
| `ContextPruning`, `PruningProofs` | soft trimming and hard clearing of tool results |
| `BlockChunking`, `ChunkerReturns`, `ChunkerRuns` | the block chunker: one turn of its loop, when the loop stops, what runs of it emit |
| `ResponseHandling`, `ResponseTexts`, `ThinkingStream`, `TextBreaks` | two more ways of cutting a stream of text |
| `Sequences`, `Wrappers` | joining lists, and the optional value |
| `StableSorting`, `Routing` | binding rules kept sorted by specificity |
| `Idempotency`, `GatewayRuns`, `GatewayServer` | the cache, interleaved requests, the gateway's operations |
| `PromptContext` | prompt files within budgets, and their cache |

Loops are methods, objects with mutable fields are classes, and each is proved against functions on values; the
lemmas then say what those functions guarantee. `hide` statements keep definitions a step does not need away from
the solver.

## How the source is read

- Names, ids, roles and texts are already trimmed, and lower-cased where the source lower-cases them; `""` is an
  absent field. Argument dictionaries are opaque strings, the two aliases of a field are one field, and attachments
  that have a model input are only counted.
- The match keys `id:...` and `seq:...` are the two constructors of `Pairing.Key`, so the two kinds never collide.
- Arithmetic on floats is arithmetic on reals or, cross-multiplied, on integers: the 1.2 safety margin is 5/6 of
  the maximum, the 0.6 of the thinking window is 6/10. Rounding is not modelled.
- Regular expressions and `str.find` are functions or scans that find the first or last match.
- The summarizer, the fallback digest, the tests for prunable tools and for leaked tool-call text, the narrowing of
  workflow rows and the parsing of control markers are parameters: any function, and for the summarizer one that
  may fail.
- Time is a parameter that never goes backwards. In the gateway a request is three steps - lookup, handler, store -
  and the steps of any number of requests interleave.
- A generator collects what it yields in a list.

## Findings

- Replay can leave a call without a return in three ways, each with a family of transcripts: two calls with one id,
  a row paired only as a last resort, a row with an id and no name (history_memory.py:333-366, 593-624;
  `ReplayTraps`). `ReplayBalance.BalancedExactly` says exactly when calls and returns are in bijection.
- The two passes of turn persistence number calls alike if and only if assistants alone carry calls
  (runner_tool_evidence.py:1001-1025, 1176-1191; `StoredCalls.CountersAgreeExactly`); otherwise an answered call
  without an id can be dropped (`ReloadTraps.CounterTrap`; exactly which, in `StoredCalls.AnsweredIsStored`).
- Persistence also accepts the role spellings `toolresult` and `tool_result`, results carried by any message, further
  identities of a row, and calls without a name (runner_tool_evidence.py:1183-1239); replay does not, so a call
  settled that way is stored and then dropped (`ReloadTraps`). `ReloadExact.SurvivesExactly` says exactly when every
  stored call survives: when they have names and the first identity of each row of role `tool` settles them all.
- A final answer is read back from the stored turn if and only if the turn starts inside the transcript or at its
  end; past the end it is appended before the position that is read from (runner_tool_evidence.py:1076-1095,
  1364-1383; `PersistProofs.FinalAnswerReadBack`).
- The 1.2 safety margin does not keep a chunk's estimate under its maximum (compaction.py:419-438): the true bound is
  7/4 of the reduced maximum, it is reached, and it is above the maximum from four tokens on
  (`ChunkOptimality.ChunkCanExceed`).
- `feed` does not return for every text below certain limits (stream.py:227-267, 345-362): exactly which
  configurations do is in `ChunkerReturns.FeedReturnsExactly`, a text for each that does not in `TrapNeverStops`. Below a maximum of
  4, a forced chunk is longer than the maximum.
- Soft trimming lengthens short texts, and every text when no tail is kept (context_pruning.py:143-154;
  `PruningProofs.TrimLengthensExactly`).
- A handler whose result is `None` is run again at once, and so is one whose request overlaps another with the same
  key (gateway.py:120-128, 282-348; `GatewayRuns.EmptyResponseRunsAgain`, `OverlapRunsTwice`). A connection can be
  served another's response exactly when one id with a colon behind it begins the other (gateway.py:204-207;
  `CollisionExactly`, `ColonServesAnother`).

## Model

| member | source | states |
|---|---|---|
| `Pairing.PickIsFirst` | app/atlasclaw/agent/history_memory.py:411-433 | a row claims the first pending call with its id; only if there is none the first with its name; otherwise nothing |
| `Pairing.PickAgrees` | app/atlasclaw/agent/history_memory.py:504-524 | the matcher that claims a call in a longer pending list claims the same call in every order-preserving sublist that still holds it |
| `Pairing.PickOrOnlyAgrees` | app/atlasclaw/agent/history_memory.py:602-624 | the same for the matcher with the last resort, although the last resort may apply to only one of the lists |
| `Pairing.IssueFollows` | app/atlasclaw/agent/history_memory.py:532-582 | registering the kept calls of a message keeps the later pass in step with the earlier one although the sequence numbers shift |
| `Pairing.PickTight` | app/atlasclaw/agent/history_memory.py:411-433 | if every claim of the earlier pass is of a kept call, the later pass makes the same claims |
| `Pairing.KeptIsMatched` | app/atlasclaw/agent/history_memory.py:593-600 | every call kept for its old key has its renumbered key matched by the next pass, duplicate ids included |
| `HistoryMemory.ConsumePending` | app/atlasclaw/agent/history_memory.py:411-433 | the two list scans compute `Pick` and remove exactly that entry |
| `HistoryMemory.ConsumePendingWithKey` | app/atlasclaw/agent/history_memory.py:602-624 | the scans and the last resort compute `PickOrOnly`, its match key, and the remaining list |
| `HistoryMemory.InferIdentity` | app/atlasclaw/agent/history_memory.py:466-501 | a row's identity is its own, else its first result's, else that of the first pending call that has one |
| `HistoryRows.AnonymousGoesBy` | app/atlasclaw/agent/history_memory.py:466-501 | a row without a name, an id or a result that has one goes by the first pending call that has an identity |
| `HistoryMemory.RegisterCalls` | app/atlasclaw/agent/history_memory.py:534-541 | named calls, and only they, are numbered and become pending |
| `HistoryMemory.FilterCalls` | app/atlasclaw/agent/history_memory.py:573-581 | of the named calls, numbered as before, exactly those with a matched key are kept |
| `HistoryMemory.StripUnmatchedToolCalls` | app/atlasclaw/agent/history_memory.py:526-591 | both loops compute `Strip`; inferred identities are written into the given messages |
| `HistoryMemory.BuildMessageHistory` | app/atlasclaw/agent/history_memory.py:181-221 | identity repair followed by stripping |
| `HistoryRows.RowsAnswerInOrder` | app/atlasclaw/agent/history_memory.py:181-221 | behind any past that leaves no call waiting: after an assistant message whose calls all have names, the k-th of at most as many anonymous rows goes by the k-th call |
| `HistoryRows.HistoryAnswersInOrder` | app/atlasclaw/agent/history_memory.py:181-221 | and the built history ends in these rows, with these identities |
| `HistoryRows.HistoryHolds` | app/atlasclaw/agent/history_memory.py:181-221 | a built history holds, in order and with their texts, roles and images, all messages but assistants' without text and kept calls; an assistant's has exactly its named calls with a matched key; only rows gain what their identity lacked, and one that carries identities goes by the first |
| `HistoryMemory.BuildSyntheticCalls` | app/atlasclaw/agent/history_memory.py:368-389 | each identity of a row claims a pending call; a named one that finds none gets a synthetic call |
| `HistoryMemory.BuildReturnParts` | app/atlasclaw/agent/history_memory.py:333-366 | one return part for the row's name and one for each named result, in order |
| `HistoryMemory.ToModelMessageHistory` | app/atlasclaw/agent/history_memory.py:223-282 | the loop computes `ToModel`: kept system summaries first, then requests and responses in order |
| `ReplayTexts.RowReturns` | app/atlasclaw/agent/history_memory.py:333-366 | a row's return parts are, in order, its named entries - its own, then its results - with name, content and id |
| `ReplayTexts.ModelReads` | app/atlasclaw/agent/history_memory.py:223-282 | the model reads the kept summaries, then the user's prompts with their images; every text of an assistant; every named result of every row with its content; and every named call of an assistant with its arguments, among made-up ones without any; each kind in the order of the history |
| `ReplayTexts.ReplayAppends` | app/atlasclaw/agent/history_memory.py:223-282 | each message appends to what the model got before it: nothing, one request or response, or made-up calls and then returns; a response has at most one text, first |
| `StripProofs.RematchFollows` | app/atlasclaw/agent/history_memory.py:526-591 | matching what stripping left follows the first matching call for call and leaves every row as it is |
| `StripProofs.StripIdempotent` | app/atlasclaw/agent/history_memory.py:526-624 | stripping twice is stripping once, on every transcript |
| `HistoryProofs.RepairFollows` | app/atlasclaw/agent/history_memory.py:181-221 | identity repair of what stripping left of a repaired transcript changes no row, whichever keys were kept, and leaves no call waiting that was not waiting before, although it also numbers calls of other roles and has no last resort |
| `HistoryProofs.HistoryIdempotent` | app/atlasclaw/agent/history_memory.py:181-221 | building a history from a built history changes nothing, on every transcript |
| `ReplayProofs.ReturnPartsNamed` | app/atlasclaw/agent/history_memory.py:333-409 | a row's return parts are exactly its named identities, in order |
| `ReplayProofs.ClaimSpots` | app/atlasclaw/agent/history_memory.py:368-433 | each named identity of a row gets a call of its own: one that was waiting, or its synthetic one |
| `ReplayProofs.EveryReturnHasItsCall` | app/atlasclaw/agent/history_memory.py:223-433 | on every history, each return part sent to the model is assigned, injectively, an earlier call part with the same id or name |
| `ReplayBalance.BalancedIsZeroSurplus` | app/atlasclaw/agent/history_memory.py:223-282 | with such an assignment, a bijection exists exactly when calls and returns are equally many |
| `ReplayBalance.BalancedExactly` | app/atlasclaw/agent/history_memory.py:223-433 | calls and returns are in bijection, call before return, if and only if replay ends with no pending call and no nameless row has claimed one |
| `ReplayBalance.ReplayFollows` | app/atlasclaw/agent/history_memory.py:181-282 | replay of a stripped history claims the calls that the matching pass of stripping claimed, when no row was left to the last resort |
| `ReplayBalance.ReplayBalanced` | app/atlasclaw/agent/history_memory.py:181-282 | for rows that are named or anonymous and never left to the last resort: replay is balanced if no unresolved call shares its id with a resolved one, and only then when rows carry no results |
| `ReplayBalance.ReplayBalancedExactly` | app/atlasclaw/agent/history_memory.py:181-282 | for rows without results that are never left to the last resort, named or not: replay is balanced if and only if no unresolved call shares its id with a resolved one and no row claims a call by its id alone |
| `ReplayBalance.ReplayBalancedDistinctIds` | app/atlasclaw/agent/history_memory.py:181-282 | it is enough that the ids of the transcript's named assistant calls are distinct |
| `ReplayTraps.DuplicateIdTrap` | app/atlasclaw/agent/history_memory.py:593-600 | two calls with one id and a row for the first: replay is not balanced |
| `ReplayTraps.LastResortTrap` | app/atlasclaw/agent/history_memory.py:622-624 | a row of another tool, paired as a last resort: replay is not balanced |
| `ReplayTraps.NamelessRowTrap` | app/atlasclaw/agent/history_memory.py:333-366 | a row with an id and no name claims its call and returns nothing: replay is not balanced |
| `ToolEvidence.ConsumeMatching` | app/atlasclaw/agent/runner_tool_evidence.py:1261-1283 | the scans compute `PickOrOnly` and its match key |
| `ToolEvidence.RegisterTurnCalls` | app/atlasclaw/agent/runner_tool_evidence.py:1176-1191 | every call of an assistant message is numbered, named or not |
| `ToolEvidence.CollectMatchedKeys` | app/atlasclaw/agent/runner_tool_evidence.py:1166-1205 | the loop computes the ledger of the turn: results of any role settle calls, an anonymous row the only pending one |
| `ToolEvidence.FilterTurnCalls` | app/atlasclaw/agent/runner_tool_evidence.py:1003-1025 | exactly the calls with a matched key are kept |
| `ToolEvidence.ScreenTurn` | app/atlasclaw/agent/runner_tool_evidence.py:1003-1047 | the turn's messages without unmatched calls, planning text cleared, emptied attempts left out; earlier messages as they were |
| `ToolEvidence.NarrowRows` | app/atlasclaw/agent/runner_tool_evidence.py:1049-1059 | only contents of tool rows of the turn change |
| `ToolEvidence.RestoreUserMessage` | app/atlasclaw/agent/runner_tool_evidence.py:1061-1074 | the first user message of the turn gets the user's own words |
| `ToolEvidence.WriteFinalAssistant` | app/atlasclaw/agent/runner_tool_evidence.py:1076-1095 | the answer replaces the text of the turn's last assistant message without calls, or is appended |
| `ToolEvidence.SanitizeTurnMessages` | app/atlasclaw/agent/runner_tool_evidence.py:983-1095 | all stages of turn persistence together compute `Sanitize` |
| `StoredTexts.StoredTurn` | app/atlasclaw/agent/runner_tool_evidence.py:983-1095 | for every start, without its stages: behind the unchanged past come, in order, all messages of the turn but assistants' attempts that kept no call and whose text is blank then, each with the calls settled under their numbers; a text differs only if planning is cleared and it is an attempt's, if it is the first user's and the user's words are known, if a row is narrowed, or if it is the last plain assistant's and there is an answer, which otherwise comes last |
| `StoredCalls.RowSettles` | app/atlasclaw/agent/runner_tool_evidence.py:1193-1239 | a row with one identity answers the call that the matcher finds |
| `StoredCalls.AnonymousSettles` | app/atlasclaw/agent/runner_tool_evidence.py:1207-1239 | a row without any identity answers the only waiting call, and none if none or several wait |
| `ToolEvidence.ExtractLatestAssistant` | app/atlasclaw/agent/runner_tool_evidence.py:1364-1383 | the last non-blank text of an assistant message without calls |
| `PersistProofs.LatestExactly` | app/atlasclaw/agent/runner_tool_evidence.py:1364-1383 | what is read back is the last non-blank text of an assistant without calls, and nothing only if there is none |
| `PersistProofs.EarlierMessagesUnchanged` | app/atlasclaw/agent/runner_tool_evidence.py:983-1095 | messages before the turn are stored as they were, for every start index |
| `PersistProofs.FinalAnswerReadBack` | app/atlasclaw/agent/runner_tool_evidence.py:1076-1095 | a non-empty final answer is exactly what is read back if and only if the turn starts no later than the end of the transcript |
| `StoredCalls.CountersAgreeExactly` | app/atlasclaw/agent/runner_tool_evidence.py:1001-1025 | the second pass numbers the turn's calls as the first (1176-1191) did if and only if assistant messages alone carry calls |
| `StoredCalls.StoredExactly` | app/atlasclaw/agent/runner_tool_evidence.py:983-1095 | for every start and every turn: the stored calls are those of the past followed, in order, by exactly the calls of the turn whose key, under their number in the second pass, was settled; the key of every answered call was settled under its number in the first |
| `StoredCalls.AnsweredIsStored` | app/atlasclaw/agent/runner_tool_evidence.py:1003-1025 | an answered call with an id is stored in every turn; one without is stored if and only if the call whose number it gets, shifted by the calls of non-assistants before it, has its name, no id and an answer (1166-1205) |
| `Rebasing.RebaseIssue` | app/atlasclaw/agent/history_memory.py:532-541 | registering calls after a past in which every call was claimed is registering them from the start, numbers shifted |
| `Rebasing.RebaseSettle` | app/atlasclaw/agent/history_memory.py:543-558 | so is letting a row claim a call, match keys included |
| `FirstClaims.FirstsSettleFewer` | app/atlasclaw/agent/runner_tool_evidence.py:1207-1239 | the first identities of the rows of role `tool` settle no call that all claims of the turn leave unsettled |
| `ReplayedCalls.KeptWholeExactly` | app/atlasclaw/agent/history_memory.py:526-600 | replay keeps every call of a transcript if and only if every assistant's call has a name and a matched key; it then leaves out only assistant messages with neither text nor calls |
| `ReloadProofs.ReloadFollows` | app/atlasclaw/agent/runner_tool_evidence.py:1003-1205 | repairing and matching what is stored of a turn, under any keys and behind any past with nothing pending, follows call for call the ledger of the claims that replay reads |
| `ReloadProofs.PersistedCallsSurvive` | app/atlasclaw/agent/runner_tool_evidence.py:983-1095 | persist, then reload, from any start: if the past has no call pending or unnamed, and in the turn assistants alone carry calls, the settled ones have names and what replay reads settles them too, replay keeps every stored call and leaves out only assistant messages with neither text nor calls |
| `ReloadExact.SurvivesExactly` | app/atlasclaw/agent/runner_tool_evidence.py:983-1095 | behind a past in balance, for a turn in which assistants alone carry calls, rows name pending calls and no id of the past is used again: replay keeps every stored call if and only if they all have names and what replay reads of the turn settles every call that the turn's claims settle |
| `ReloadTraps.CounterTrap` | app/atlasclaw/agent/runner_tool_evidence.py:1003-1025 | a call on a user message shifts the second pass's numbers: the answered call is dropped |
| `ReloadTraps.RowlessReplay` | app/atlasclaw/agent/history_memory.py:526-591 | a stored transcript without a row of role `tool` replays without any call |
| `ReloadTraps.AliasTrap` | app/atlasclaw/agent/runner_tool_evidence.py:1207-1239 | a row with another spelling of its role: the turn is stored unchanged and its call is lost on replay |
| `ReloadTraps.OwnResultsTrap` | app/atlasclaw/agent/runner_tool_evidence.py:1207-1239 | results on the assistant message itself: the same |
| `ReloadTraps.NamelessTrap` | app/atlasclaw/agent/runner_tool_evidence.py:1183-1191 | a call without a name, answered by its id, is stored and lost on replay |
| `ReloadExact.SurvivalNeedsNames` | app/atlasclaw/agent/history_memory.py:299-331 | names are needed: if replay keeps every stored call, every settled call of the turn has one, and every assistant's call of the past |
| `ReloadTraps.SecondIdentityTrap` | app/atlasclaw/agent/runner_tool_evidence.py:1207-1283 | a row's second identity takes the other call by the last resort: it is stored unanswered and lost on replay |
| `ReloadBalance.PersistedIsBalanced` | app/atlasclaw/agent/runner_tool_evidence.py:983-1095 | persisted, reloaded and replayed to the model, calls and returns are in bijection, behind any past that is itself in balance, if each row of the turn names a call that is pending, what replay reads settles the settled calls, and these have names and share no id with an unsettled one |
| `SessionRuns.PruneSummaryMessages` | app/atlasclaw/agent/history_memory.py:626-637 | the loop leaves out exactly the system messages that are no summary |
| `SessionRuns.PrunedSameModel` | app/atlasclaw/agent/history_memory.py:223-282 | the model gets the same with and without them |
| `SessionRuns.SteadyLoads` | app/atlasclaw/agent/runner_tool/runner_execution_prepare.py:2068-2070 | loading a transcript in balance loses no call, gives a history in balance, and the model sees calls and returns in bijection |
| `SessionRuns.TurnSteady` | app/atlasclaw/agent/runner_tool/runner_execution_flow_post.py:1174-1181 | a turn persisted behind such a history gives a transcript in balance that carries the history's calls and those the turn settled; the conditions are on the turn alone |
| `SessionRuns.SessionKeepsCalls` | app/atlasclaw/agent/runner_tool/runner_execution_flow_post.py:690-697 | after every run of such turns, each appended to what the stored transcript is loaded as, the stored transcript and its history carry exactly the calls that the turns settled, in order, and the model sees each with one return |
| `Compaction.CountTokens` | app/atlasclaw/agent/compaction.py:131-159 | one floor division of all characters by four |
| `Compaction.SplitMessagesByTokenShare` | app/atlasclaw/agent/compaction.py:389-417 | the loop computes `SplitByShare` |
| `Compaction.ChunkMessagesByMaxTokens` | app/atlasclaw/agent/compaction.py:419-438 | the loop computes `ChunkByMax` |
| `Compaction.NormalizeParts` | app/atlasclaw/agent/compaction.py:440-445 | the number asked for, or the number of messages if that is smaller; at least one |
| `Compaction.RepairToolResultPairing` | app/atlasclaw/agent/compaction.py:546-579 | both loops compute `RepairPairing` |
| `SplitProofs.SplitPartitions` | app/atlasclaw/agent/compaction.py:389-417 | non-empty chunks, at most as many as asked for, that concatenate to the input |
| `SplitProofs.TotalPerCost` | app/atlasclaw/agent/compaction.py:131-159 | the characters of a list are at most seven times its summed per-message costs |
| `SplitProofs.SplitMakesProgress` | app/atlasclaw/agent/compaction.py:389-417 | two or more messages always give at least two chunks |
| `GreedyCuts.SplitExactly` | app/atlasclaw/agent/compaction.py:389-417 | the split into n parts is the one way of cutting the list into at most n non-empty chunks in which each but the last costs more than an n-th of the total with the next message, and each before the n-th is a single message or costs at most that |
| `GreedyCuts.ChunkingExactly` | app/atlasclaw/agent/compaction.py:419-438 | chunking by maximum is the one way of cutting the list into chunks that are single or within the limit, and, but for the last, over it with the next message |
| `ChunkOptimality.ChunkingOptimal` | app/atlasclaw/agent/compaction.py:419-438 | the chunks are a partition into single messages or chunks within the limit, and no such partition has fewer parts |
| `ChunkOptimality.ChunkEstimate` | app/atlasclaw/agent/compaction.py:419-438 | a chunk of several messages is estimated at no more than 7/4 of the reduced limit |
| `ChunkOptimality.ChunkEstimateReached` | app/atlasclaw/agent/compaction.py:419-438 | that bound is reached for every limit of two or more |
| `ChunkOptimality.ChunkCanExceed` | app/atlasclaw/agent/compaction.py:419-438 | a chunk of several messages can be estimated above the maximum asked for if and only if that maximum is at least four tokens |
| `HistoryShare.PruneHistoryForContextShare` | app/atlasclaw/agent/compaction.py:601-638 | the loop terminates and computes `PruneHistory` |
| `HistoryShare.PruningFits` | app/atlasclaw/agent/compaction.py:601-638 | dropped and kept, before repair, concatenate to the input; the kept part is never empty, and within budget or a single message; a history that fits loses nothing |
| `HistoryShare.DropsNoMore` | app/atlasclaw/agent/compaction.py:601-638 | what was dropped last is the oldest chunk of a history that was over budget with it |
| `SummaryProofs.BudgetBounds` | app/atlasclaw/agent/compaction.py:610-612 | the budget is the configured share of the window, between a tenth and all of it, and at least one token |
| `HistoryShare.RepairIdempotent` | app/atlasclaw/agent/compaction.py:546-564 | repair removes exactly the results that name an unknown call, keeps the known ids, and changes nothing the second time |
| `HistoryShare.RepairKeepsSome` | app/atlasclaw/agent/compaction.py:546-564 | repair never empties a history and never raises its estimate |
| `HistoryShare.RepairKeeps` | app/atlasclaw/agent/compaction.py:546-579 | repair keeps, in order, every message but results naming a call that no assistant of the history makes, in a history in which calls are made |
| `StagedSummary.MaxChunkTokens` | app/atlasclaw/agent/compaction.py:365-387 | at least the configured minimum and half the adaptive base, which is 15 to 40 percent of the window, and no more than the larger of the two |
| `StagedSummary.SummarizeChunk` | app/atlasclaw/agent/compaction.py:331-342 | unless the summarizer raises, every batch of the chunk reaches it, in order; the text is its answer, or the digest, or the merge of several |
| `StagedSummary.SummarizeInStages` | app/atlasclaw/agent/compaction.py:316-347 | unless the summarizer raises, every leaf batch reaches it, in order; the text is the merge of the chunks' |
| `StagedSummary.MergeCarries` | app/atlasclaw/agent/compaction.py:447-456 | a merge asks for all partial summaries that are not blank, in order, after the instructions |
| `StagedSummary.GenerateSummary` | app/atlasclaw/agent/compaction.py:272-299 | the dropped part, then the kept part, are summarized; the text puts the older one first under its own heading |
| `StagedSummary.LeavesCover` | app/atlasclaw/agent/compaction.py:316-347 | the leaf batches concatenate to the history; in stages each is one message or within the limit |
| `StagedSummary.SummaryCovers` | app/atlasclaw/agent/compaction.py:272-299 | a successful summary has seen every message once, in order, but for results whose call was dropped |
| `SummaryProofs.SummaryHolds` | app/atlasclaw/agent/compaction.py:272-363 | if every answer of the summarizer, or the digest where it says nothing, holds the contents it was asked about, the summary is a part that holds all contents of the dropped history, under its heading, followed by one that holds all of the kept history, through all stages and merges |
| `CompactRuns.Compact` | app/atlasclaw/agent/compaction.py:224-270 | the rebuilt transcript: prompt, summary, at most one image turn, recent messages; the given one if the summarizer fails |
| `CompactRuns.CompactedExactly` | app/atlasclaw/agent/compaction.py:189-270 | a transcript is compacted exactly if it is longer than the recent turns and one message, something lies between its prompt and them, and the summarizer answers on that; it then is the prompt, a system message with the prefix, a line feed and the answer, at most one earlier message, and the recent ones |
| `CompactRuns.SummarySays` | app/atlasclaw/agent/compaction.py:224-270 | over every run, each summary in the transcript is, whole, the answer that one of the run's compactions was given on the messages it replaced |
| `CompactRuns.OneSummaryAndPrompt` | app/atlasclaw/agent/compaction.py:189-270 | over every run of appends and compactions a summary stands only in its place and the system prompt stays at the head |
| `CompactRuns.SummaryUnique` | app/atlasclaw/agent/compaction.py:208-213 | hence there is at most one summary |
| `CompactRuns.CompactionBounds` | app/atlasclaw/agent/compaction.py:189-270 | a compaction leaves at most 2 * keep_recent_turns + 3 messages |
| `CompactRuns.CompactedKeepsImage` | app/atlasclaw/agent/compaction.py:255-264 | a compaction keeps the latest image turn if the model may look at it |
| `CompactRuns.ImageTurnKept` | app/atlasclaw/agent/compaction.py:224-270 | over every run, that turn stays as long as no later message has attachments |
| `ContextPruning.EstimateContextChars` | app/atlasclaw/agent/context_pruning.py:110-111 | the sum over all messages |
| `ContextPruning.FindAssistantCutoff` | app/atlasclaw/agent/context_pruning.py:114-124 | the index of the n-th assistant message from the end, if there is one |
| `PruningProofs.CutoffProtects` | app/atlasclaw/agent/context_pruning.py:114-124 | the cutoff protects exactly the wanted number of assistant messages, and is missing exactly if there are fewer |
| `PruningProofs.PressureExactly` | app/atlasclaw/agent/context_pruning.py:161-190 | pruning starts exactly if it is on, the window known, at least the soft share of it filled, and there are enough assistant messages |
| `ContextPruning.FindFirstUser` | app/atlasclaw/agent/context_pruning.py:127-131 | the first user message |
| `ContextPruning.SoftTrimResults` | app/atlasclaw/agent/context_pruning.py:197-223 | the soft loop computes `SoftPass` with its running total and prunable indexes |
| `ContextPruning.HardClearResults` | app/atlasclaw/agent/context_pruning.py:239-250 | the hard loop computes `HardPass` |
| `ContextPruning.PruneContextMessages` | app/atlasclaw/agent/context_pruning.py:161-252 | all exits together compute `Prune` |
| `ContextPruning.PruningSession.ShouldApply` | app/atlasclaw/agent/context_pruning.py:48-71 | when pruning applies, and the time it records |
| `ContextPruning.ApplicationsApart` | app/atlasclaw/agent/context_pruning.py:48-71 | over every run of a session, two applications are at least the time-to-live apart and a refusal comes less than that after the last one |
| `PruningProofs.SoftTotal` | app/atlasclaw/agent/context_pruning.py:197-223 | the running total is the estimate of the current list |
| `PruningProofs.HardClearsShortest` | app/atlasclaw/agent/context_pruning.py:239-250 | hard clearing clears the shortest prefix of the prunable indexes that brings the ratio below the limit, or all |
| `PruningProofs.PruneResult` | app/atlasclaw/agent/context_pruning.py:161-252 | under pressure, every prunable message of the range is trimmed, then that prefix is cleared, unless one of the three exits is taken |
| `PruningProofs.PruningFrame` | app/atlasclaw/agent/context_pruning.py:161-252 | only contents of successful, prunable tool results between the first user message and the cutoff change |
| `PruningProofs.TrimLength` | app/atlasclaw/agent/context_pruning.py:143-154 | when a text is trimmed, and how long it is then, from its length and the settings alone |
| `PruningProofs.TrimmedReads` | app/atlasclaw/agent/context_pruning.py:143-154 | a trimmed text is its beginning, an ellipsis, its end (the whole of it for a tail of 0), and a notice with the numerals of head, tail and length |
| `PruningProofs.TrimLengthensExactly` | app/atlasclaw/agent/context_pruning.py:143-154 | trimming lengthens a text if and only if no tail is kept or head, tail, six characters and the notice are longer than the text |
| `PruningProofs.TrimAgain` | app/atlasclaw/agent/context_pruning.py:143-154 | a trimmed text is left alone by the next trimming if and only if head, tail (the whole text for a tail of 0), six characters and the notice come to no more than max_chars |
| `PruningProofs.EmptyTailGrows` | app/atlasclaw/agent/context_pruning.py:143-154 | with no tail, each further trimming trims and lengthens once more |
| `PruningProofs.PruneIdempotent` | app/atlasclaw/agent/context_pruning.py:161-252 | pruning twice is pruning once, whichever exits are taken, when the placeholder, and by their length alone the texts that are trimmed, come to no more than max_chars |
| `ChunkerRuns.BlockChunker.Feed` | app/atlasclaw/agent/stream.py:227-267 | for every configuration that returns, the loop emits the chunks of `Drain`; the log of what was fed and emitted stays seamed |
| `ChunkerRuns.BlockChunker.Flush` | app/atlasclaw/agent/stream.py:269-284 | the rest is emitted, and everything emitted is what was fed with one seam for each forced split |
| `ChunkerReturns.EmitShrinks` | app/atlasclaw/agent/stream.py:227-267 | each turn of a loop that goes on makes its state smaller, although forced splits add text and may leave the buffer longer |
| `ChunkerReturns.FeedReturnsExactly` | app/atlasclaw/agent/stream.py:227-267 | `feed` returns for every text, and from every state, if and only if min_chars is at least 1 and max_chars is at least 9, or 2 or 3, or 4 to 8 with min_chars at most 3, or 6 with at most 5, or 7 with at most 6, or 1 with at least 5 |
| `ChunkerReturns.TrapNeverStops` | app/atlasclaw/agent/stream.py:227-267 | for every other configuration, a text after which a new chunker's loop never stops |
| `ChunkerRuns.DrainStops` | app/atlasclaw/agent/stream.py:227-267 | the loop's result is the state its turns lead to, after as many turns as it emits chunks |
| `ChunkerRuns.EmitConserves` | app/atlasclaw/agent/stream.py:345-362 | for every configuration, a turn loses nothing and inserts one seam exactly when it forces a split |
| `ChunkerRuns.RunConserves` | app/atlasclaw/agent/stream.py:227-284 | over every run of feeds, output and rest are the input with one seam inserted for each forced split |
| `ChunkerRuns.ChunkSizes` | app/atlasclaw/agent/stream.py:227-267 | for max_chars of at least 4, every chunk has between min(min_chars, max_chars) and max_chars characters; the loop stops only below min_chars or in an open fence |
| `ChunkerRuns.ForcedChunk` | app/atlasclaw/agent/stream.py:345-362 | a forced chunk keeps to max_chars if and only if that is at least 4 |
| `BlockChunking.BreakIsPreferred` | app/atlasclaw/agent/stream.py:305-343 | the cut ends the first match of the most preferred pattern that has one; without a cut no pattern has any |
| `BlockChunking.FindBreakFacts` | app/atlasclaw/agent/stream.py:305-343 | there is a cut if and only if some character at or after min_chars is a break, and the cut is past the first of them |
| `ResponseHandling.FindBreakPoint` | app/atlasclaw/api/response_handler.py:236-300 | the result is the break point: the rightmost break of the best class that has one in the window, else max_chars, else none |
| `ResponseHandling.BreakPointUnique` | app/atlasclaw/api/response_handler.py:236-300 | that condition determines the break point |
| `ResponseHandling.CutBounds` | app/atlasclaw/api/response_handler.py:206-300 | a piece has between min_chars and max_chars characters, one more only if it ends in a paragraph break |
| `ResponseHandling.NoCutMeans` | app/atlasclaw/api/response_handler.py:236-300 | without a break point the text is shorter than max_chars and has no break at or after min_chars |
| `ResponseHandling.CutsJoin` | app/atlasclaw/api/response_handler.py:206-234 | the pieces and the rest are the text |
| `ResponseHandling.ResponseHandler.SplitBuffer` | app/atlasclaw/api/response_handler.py:206-234 | each piece is cut at the break point of what was left, until there is none |
| `ResponseHandling.ResponseHandler.ProcessDelta` | app/atlasclaw/api/response_handler.py:159-190 | one delta: chunks and buffer grow by its text, chunks are numbered on, and sizes keep their bounds |
| `ResponseHandling.ResponseHandler.Process` | app/atlasclaw/api/response_handler.py:142-204 | chunks are numbered 0 to n-1, their texts and the rest are the deltas without the marker, and the rest is the one final chunk, which is last |
| `ResponseTexts.OrderUnique` | app/atlasclaw/api/response_handler.py:272-279 | the classes are tried in the one order with the preferred first, then the coarser, then the finer ones, nearer before further |
| `ResponseTexts.ScrubFirst` | app/atlasclaw/api/response_handler.py:166-172 | of a delta with the marker, the text before its first occurrence stays and what is behind is scrubbed in turn |
| `ResponseTexts.FinalReads` | app/atlasclaw/api/response_handler.py:195-204 | the last chunk is the rest, behind the prefix if it is the first, or for a limit of three and more exactly that many characters of it, the last three dots |
| `StableSorting.FirstIsBest` | app/atlasclaw/agent/routing.py:308-343 | the first match in a stably sorted list is the match with the greatest key that was added earliest |
| `StableSorting.FilterSorted` | app/atlasclaw/agent/routing.py:249-266 | filtering a sorted list sorts the filtered one |
| `StableSorting.RemoveSorted` | app/atlasclaw/agent/routing.py:300-306 | removing from the sorted list removes the earliest equal rule |
| `StableSorting.ResortNext` | app/atlasclaw/agent/routing.py:285-298 | appending to a sorted list and sorting again inserts after all rules at least as specific |
| `Routing.AgentRouter.constructor` | app/atlasclaw/agent/routing.py:200-223 | single-agent mode starts with the default agent alone |
| `Routing.AgentRouter.RegisterAgent` | app/atlasclaw/agent/routing.py:235-247 | the agent is registered; a second one ends single-agent mode; the invariant holds |
| `Routing.AgentRouter.UnregisterAgent` | app/atlasclaw/agent/routing.py:249-266 | the agent and all its rules go, the others keep their order |
| `Routing.AgentRouter.AddBinding` | app/atlasclaw/agent/routing.py:285-298 | refused for an unknown agent; otherwise the rules stay sorted by specificity, earliest first |
| `Routing.AgentRouter.RemoveBinding` | app/atlasclaw/agent/routing.py:300-306 | the earliest equal rule goes, if there is one |
| `Routing.AgentRouter.Route` | app/atlasclaw/agent/routing.py:308-343 | the agent of the matching rule that is most specific and then earliest added, else the fallback; it fails exactly in single-agent mode without its agent |
| `Routing.BestIsUnique` | app/atlasclaw/agent/routing.py:308-343 | that rule is unique |
| `Routing.MatchesExactly` | app/atlasclaw/agent/routing.py:127-139 | a rule matches exactly the requests that meet every condition it sets |
| `Routing.MoreSpecific` | app/atlasclaw/agent/routing.py:141-154 | of rules with one condition and equal priority a peer's is more specific than a guild's, then team, account, channel, none; a peer outweighs any three others |
| `Routing.PriorityDecides` | app/atlasclaw/agent/routing.py:141-154 | between equal conditions priority decides; ten points make up for a channel, a hundred for a peer |
| `Idempotency.IdempotencyCache.Get` | app/atlasclaw/api/gateway.py:120-128 | the latest response set within the time-to-live, whatever expired entries lookups have deleted |
| `Idempotency.IdempotencyCache.Set` | app/atlasclaw/api/gateway.py:130-133 | the log grows by the entry |
| `Idempotency.IdempotencyCache.Cleanup` | app/atlasclaw/api/gateway.py:135-148 | expired entries go and are counted; no lookup can tell |
| `GatewayRuns.CacheKeyInjective` | app/atlasclaw/api/gateway.py:204-207 | without colons in connection ids, the cache key determines connection and key |
| `GatewayRuns.CollisionExactly` | app/atlasclaw/api/gateway.py:204-207 | two connections can share a cache entry if and only if the id of one, with a colon behind it, begins the id of the other |
| `GatewayRuns.RunGood` | app/atlasclaw/api/gateway.py:282-348 | in every interleaving the cache agrees with the log of saves, and every save and every served response has its cause |
| `GatewayRuns.LookupExactly` | app/atlasclaw/api/gateway.py:282-348 | in every interleaving, a lookup starts a handler if and only if the last save under its cache key is absent, a time-to-live old or empty; otherwise it serves that save |
| `GatewayRuns.ServedWasSaved` | app/atlasclaw/api/gateway.py:282-348 | in every interleaving, a served response was saved under the same cache key, within the time-to-live, by a request it had been produced for |
| `GatewayRuns.ServedWasProduced` | app/atlasclaw/api/gateway.py:282-348 | without colons in connection ids, it was produced for the same connection and key |
| `GatewayRuns.HandlerNotRunAgain` | app/atlasclaw/api/gateway.py:282-348 | once a response is saved, no handler starts under its cache key within the time-to-live, provided nothing empty is saved there between |
| `GatewayRuns.OverlapRunsTwice` | app/atlasclaw/api/gateway.py:282-348 | overlapping requests with one key both run the handler |
| `GatewayRuns.EmptyResponseRunsAgain` | app/atlasclaw/api/gateway.py:120-128 | an empty response is saved and still looked up as a miss |
| `GatewayRuns.ColonServesAnother` | app/atlasclaw/api/gateway.py:204-207 | a run in which a connection with a colon in its id is served what was produced for another |
| `GatewayServer.Gateway.HandleRequest` | app/atlasclaw/api/gateway.py:282-348 | which of the four outcomes a request has, whether its handler runs, and what is saved |
| `GatewayServer.EventsNumbered` | app/atlasclaw/api/gateway.py:209-276 | over every run of connecting, disconnecting and pushing (350-385), the events of a connection are numbered 1, 2, 3 and so on from its latest start |
| `GatewayServer.Gateway.PushEvent` | app/atlasclaw/api/gateway.py:350-385 | an event is sent exactly to a connection that exists, with the number that `EventsNumbered` is about |
| `ThinkingStream.SplitThinkingChunks` | app/atlasclaw/agent/thinking_stream.py:22-47 | the pieces join to the text and are the ones the rule prescribes |
| `ThinkingStream.CutUnique` | app/atlasclaw/agent/thinking_stream.py:33-45 | the rule - last delimiter in the window of the first kind that occurs, else the target - leaves one cut |
| `ThinkingStream.PiecesJoin` | app/atlasclaw/agent/thinking_stream.py:31-47 | pieces cut by the rule lose nothing and are at most one longer than the target |
| `ThinkingStream.DeltasExtend` | app/atlasclaw/agent/thinking_stream.py:109-126 | deltas in an open phase extend its text by what they join to |
| `ThinkingStream.ThinkingStreamEmitter.EmitThinkingDelta` | app/atlasclaw/agent/thinking_stream.py:109-126 | a phase is opened unless one is, and the text's pieces follow |
| `ThinkingStream.ThinkingStreamEmitter.EmitAssistantText` | app/atlasclaw/agent/thinking_stream.py:128-162 | an open phase is closed before the text |
| `ThinkingStream.ThinkingStreamEmitter.EmitFromModelResponse` | app/atlasclaw/agent/thinking_stream.py:62-89 | well-bracketed events; the deltas of each phase join to its thinking texts, and assistant text stays outside |
| `ThinkingStream.ThinkingStreamEmitter.CloseIfActive` | app/atlasclaw/agent/thinking_stream.py:102-107 | an end event exactly when a phase is open |
| `PromptContext.ResolveBudgets` | app/atlasclaw/agent/prompt_context_resolver.py:61-104 | the total is 12 percent of the window's characters, at least 1500, the file's 35 percent of that, at least 600, each within its cap and the file's within the total; without a window, the caps |
| `PromptContext.WithinBudgets` | app/atlasclaw/agent/prompt_context_resolver.py:106-161 | however files are read, every text injected is a beginning of its file within the file's budget, and together they keep the total |
| `PromptContext.ResolveNext` | app/atlasclaw/agent/prompt_context_resolver.py:106-161 | each file that can be read, is allowed and not empty adds the longest beginning that its budget and what is left of the total allow, in order, as long as anything is left |
| `PromptContext.TruncatedOnlyByBudget` | app/atlasclaw/agent/prompt_context_resolver.py:106-161 | a truncated file fills its own budget, or is the last one and fills the rest of the total |
| `PromptContext.PromptContextResolver.LoadFileContent` | app/atlasclaw/agent/prompt_context_resolver.py:163-188 | the cached load agrees with a direct read if every write changes modification time or size |
| `PromptContext.PromptContextResolver.ResolveFiles` | app/atlasclaw/agent/prompt_context_resolver.py:106-161 | the loop resolves what the cache gives at its start, keeps both budgets whatever the cache holds, and resolves what is on the disk if files are readable and every write changes modification time or size |
| `PromptContext.StaleWithoutVersions` | app/atlasclaw/agent/prompt_context_resolver.py:163-188 | a write that changes neither goes unseen |

## Left out

- ReplayBalance.ReplayBalancedExactly: for rows without results of their own, since a row's further results may claim the call that an alias left pending; `BalancedExactly` is the exact condition for all histories.
- ReplayBalance.ReplayBalanced: for rows with results one direction only, for the same reason.
- PruningProofs.PruneIdempotent: one direction only, since a text that would be trimmed again can still be left alone by one of the early exits.
- ReloadExact.SurvivesExactly: for rows that name pending calls, since a row left to the last resort may rescue a call in replay, and for ids not used before the turn, since a past call with the same id keeps a call that nothing answered; `ReplayedCalls.KeptWholeExactly` is the exact condition on the stored transcript itself.
- ReloadBalance.PersistedIsBalanced: sufficient conditions; for what is stored, `BalancedExactly` is the exact one.
- SessionRuns.SessionKeepsCalls: compaction, context pruning and hooks between turns are not part of a session, and a stored transcript is read back as it was written.
- CompactRuns.CompactionBounds: for a summarizer that answers; if it fails, the transcript is returned as it was.
- HistoryMemory.BuildReturnParts: does not model the normalization of a result's content for the model, which hides the payload of some dictionaries.
- StagedSummary.GenerateSummary: does not model the compaction of tool results before summarization nor the safeguard's additions to the summary.
- ChunkerReturns.FeedReturnsExactly: `min_chars` and `max_chars` are taken to be natural numbers.
- Tool content: metadata and timestamps are not modelled; a narrowed workflow row is any new content.
- Structured model messages are taken as already expanded into plain entries.
- Summaries: `summarize_overflow` and `prune_tool_results` are not modelled.
- Response handling: the human delay, `suppress_no_reply` and the channel adapters are not modelled; the coalescing clock is one boolean for each delta.
- Routing: tool policies, session scopes and the factory that reads a configuration are not modelled.
- Gateway: authentication is reduced to an optional user; broadcasting, idle cleanup and the wire format are not modelled.
- Thinking stream: hooks, logging, elapsed times and sleeps are not modelled.
- Token policy, agent pool, channel provisioning and the session history view rest on services that are not part of this model.
- Web routes, database services, migrations and configuration loading are input and output with little logic of their own.
