# Verification models of the Zero agent platform

Zero runs teams of agents behind a Telegram interface: it polls updates and merges message bursts,
runs bounded model/tool loops under an approval gate, keeps the knowledge of sub-agent types through
splits, merges and rollbacks, compacts long contexts, and stores artifacts and a derived search index.
This project models those mechanisms in Dafny, in the form they have in the program (classes whose
methods update their tables step by step), and proves what they guarantee over every input, every run
and every crash point. Each method is proved against a specification on values, and the theorems are
about that specification. The modules named Effects, History, Turns and Cuts say the same operations once
more in terms of rows, fields and texts alone, independently of how the specification computes them.

| file | component |
|---|---|
| `Prelude.dfy` | options, sequences, subsequences, whitespace |
| `TelegramPolling.dfy`, `TelegramTurns.dfy` | the polling batch: duplicates, burst merging, dispatch, offset |
| `TelegramRender.dfy`, `TelegramChunker.dfy`, `ChunkConservation.dfy`, `ChunkCuts.dfy` | UTF-16 widths, cuts, chunks with code fences, what chunking keeps and where it cuts, the bounded renderer |
| `AgentTopology.dfy`, `TopologyEffects.dfy` | sub-agent types, knowledge records, instances, snapshots, rollback |
| `ToolLoop.dfy`, `ToolLoopEffects.dfy` | the runtime's tool loop, delegated children, the chat turn |
| `FitLadder.dfy`, `Compaction.dfy` | summarizer input and summary; versions, records, crashes and the no-thrash guard |
| `RateLimiter.dfy` | the token bucket |
| `ApprovalGate.dfy`, `GateHistory.dfy` | the layered tool approval decision and its table |
| `ArtifactStore.dfy` | artifact deduplication and the document index |
| `ChatDispatcher.dfy` | per-chat lanes under every interleaving, and the cursor store |

Tables are sequences or maps; a transaction either commits as a whole or restores what it saved. The
provider, the tools, the gate's patterns, the hash, token counts, the HTML renderer, JSON parsing and
the clock are parameters: fixed but unknown functions, or answers by the number of the question.
`hide` statements in proofs only keep definitions out of the solver's way.

## Where the code differs from its documentation

The models follow the code. Each difference is a theorem, with the exact condition where there is one.

- The cut of long text is said to prefer paragraphs (src/zero/adapters/telegram_render.py:172-173);
  it takes the last newline or space: `ParagraphsAreNotPreferred`.
- Chunking is said never to exceed the limit and to end; the closer of a fence opened behind text can overshoot by
  up to four units (`OvershootIsTheCloser` says exactly when, `ACloserOvershoots`), and a fence whose tag leaves no room
  for its widest character is reopened for ever (`ChunkText` says exactly when, `ALongTagIsStuck`).
- The running maximum of update ids loses a maximum of 0 when more updates follow: `TrackedMaxExact`, `TrackedMaxCanMiss`.
- A rollback does not revive archived knowledge and does not deactivate a type that the snapshot lists as
  inactive: `RollbackExactly`, `RollbackIsExactIff`, `RollbackCanLeaveATypeActive`.
- Delegation is said never to crash the parent (src/zero/app/agent_runtime.py:1606-1607); a `tools` value that
  cannot be sliced and a provider failure both propagate: `ExecuteDelegation` (exactly when), `ANumberCrashesTheParent`.
- Deny rules are said to outrank everything but the hardline floor (src/zero/app/approval_gate.py:265-266); a session
  grant is looked at first: `DenyOutlivesEveryRun`, `AGrantOverridesADenial`. An expired request keeps a NULL decision. Creation times
  are written in UTC and read as local time, which shifts freshness by the time zone: `FreshWhenMinted`.
- A refused compaction is said to leave a record; the table's uniqueness rule refuses that record while
  the thrashing compaction's version is still active: `RefusalIsRecordedIff`, `ARefusalIsLost`.
- A crashed compaction is said to be recoverable; a compaction that died right after its record blocks all later ones
  until a context is built, and one that died right after activation is marked failed though its version is
  active: `RecoveryAfterCrash`, `RetryConflictsUntilRebuilt`.
- Superseding an approved document by an id that does not exist drops it from the index and leaves it
  approved: `AgreementAfter`, `SupersedingByNothingLosesTheEntry`.
- A retiring lane is said to lose nothing (src/zero/app/background_workers.py:1013-1024), but looking a lane up and
  putting a job on it are two steps, so a lane can retire in between and the job is lost for good:
  `RetirementRaceLosesAJob`, `EveryJobRunsOrWaits` (exactly when), `AtomicSubmissionLosesNothing`. Checking for room and
  putting are two steps as well, so a lane can hold more than its limit: `ConcurrentSubmissionsOverfill`, `QueuesStayBounded`.

## Model

| member | source | states |
|---|---|---|
| `TelegramPolling.EligibleIsFirstOccurrences` | src/zero/adapters/telegram.py:900-933 | An event is admitted exactly when it is the first accepted event with its external id in the batch |
| `TelegramPolling.EligibleDistinct` | src/zero/adapters/telegram.py:923-933 | Admitted events have distinct external ids |
| `TelegramPolling.TakeView` | src/zero/adapters/telegram.py:934-990 | One event moves its own scope by one step of that scope and leaves every other scope as it is |
| `TelegramPolling.TurnsAreScopewiseGreedy` | src/zero/adapters/telegram.py:934-992 | The turns of a scope are the greedy segmentation of that scope's own admitted events, however scopes interleave |
| `TelegramPolling.OtherScopesDoNotMatter` | src/zero/adapters/telegram.py:934-992 | Two batches that agree on one scope's admitted events give that scope the same turns |
| `TelegramPolling.SegmentIsGreedy` | src/zero/adapters/telegram.py:960-979 | Within a scope nothing is lost, duplicated or reordered, every turn is one burst, and no burst stops while its next event would extend it |
| `TelegramPolling.GreedyIsUnique` | src/zero/adapters/telegram.py:960-979 | The greedy segmentation is the only one with those properties |
| `TelegramPolling.TurnIdsDistinct` | src/zero/adapters/telegram.py:881-884 | Two turns of a batch never carry the same external id |
| `TelegramPolling.TurnHeadIsAdmitted` | src/zero/adapters/telegram.py:879-884 | A turn starts with an admitted event |
| `TelegramPolling.TurnsExtend` | src/zero/adapters/telegram.py:900-990 | The turns of a prefix of the batch are a prefix of the turns of the batch |
| `TelegramPolling.BurstTest` | src/zero/adapters/telegram.py:955-966 | The date test over the three tables is the burst test of the segmentation, and a failed test flushes exactly the scope's own buffer |
| `TelegramPolling.TrackedMaxExact` | src/zero/adapters/telegram.py:912 | The running maximum is the true maximum unless that is 0 and an update follows it |
| `TelegramPolling.TrackedMaxCanMiss` | src/zero/adapters/telegram.py:912 | A batch with updates 0 and then -5 tracks -5 |
| `TelegramPolling.AdvanceCovers` | src/zero/adapters/telegram.py:993-994 | The offset never goes back and, where the running maximum is exact, lies above every update of the batch |
| `TelegramPolling.AdvanceIsLeast` | src/zero/adapters/telegram.py:993-994 | The offset goes no further than it must: it is at most any bound above the batch and not below the old offset |
| `TelegramPolling.CursorNeverDecreases` | src/zero/adapters/telegram.py:993-994 | Over any run of polls, completed or not, the offset never decreases |
| `TelegramPolling.NothingIsSkipped` | src/zero/adapters/telegram.py:791-995 | An update above all those received so far, and not below the starting offset, is still at or above the offset after any run of polls |
| `TelegramPolling.TurnPartsAreAdmitted` | src/zero/adapters/telegram.py:879-990 | Every part of every turn is an admitted event and came with some update of the batch |
| `TelegramPolling.LaterPollsServeLaterUpdates` | src/zero/adapters/telegram.py:791-995 | Whatever polls fail in between, all updates of a completed poll have smaller ids than those of any later poll |
| `TelegramPolling.NoUpdateInTwoBatches` | src/zero/adapters/telegram.py:791-995 | No update is dispatched by two polls: with a server that returns ids at or above the offset, any part of a turn of a completed poll came with an update of a smaller id than any part of a turn of a later poll |
| `TelegramPolling.PollBatch.DispatchEvent` | src/zero/adapters/telegram.py:840-867 | Appends the event; stops exactly when an inline dispatch raises |
| `TelegramPolling.PollBatch.FlushMerge` | src/zero/adapters/telegram.py:869-898 | Closes one scope's buffer into one turn and keeps the three tables in step |
| `TelegramPolling.PollBatch.Buffer` | src/zero/adapters/telegram.py:934-979 | Starts or extends a burst as the segmentation does |
| `TelegramPolling.PollBatch.Process` | src/zero/adapters/telegram.py:934-990 | Handles one admitted event of any kind as the segmentation does |
| `TelegramPolling.PollBatch.TakeUpdate` | src/zero/adapters/telegram.py:900-990 | One loop iteration consumes one update: skip, duplicate, or step |
| `TelegramPolling.PollBatch.FlushRemaining` | src/zero/adapters/telegram.py:991-992 | Flushes the open buffers in their order |
| `TelegramPolling.PollBatch.Run` | src/zero/adapters/telegram.py:900-995 | Sends exactly the turns of the batch, or a prefix of them when a dispatch raises |
| `TelegramPolling.TelegramAdapter.PollOnce` | src/zero/adapters/telegram.py:791-995 | A completed poll dispatches exactly the turns and moves the offset above every update, where the running maximum is exact, and never further than needed; a raising one leaves the offset behind a prefix |
| `TelegramTurns.WhatIsDispatched` | src/zero/adapters/telegram.py:869-898 | A turn of one message is dispatched as that message; a turn of several as a plain message from the same actor in the same place, with the ids of the first |
| `TelegramTurns.PartsAreJoined` | src/zero/adapters/telegram.py:888 | The text of such a turn is the texts of its parts in order, one newline between neighbours |
| `TelegramTurns.PartsFollow` | src/zero/adapters/telegram.py:775-789 | All parts of a turn are dated plain texts of one actor in one place, each within 120 seconds of the latest date before it |
| `TelegramTurns.TurnsAreMaximal` | src/zero/adapters/telegram.py:960-979 | Of two turns of a scope with none of it in between, the first message of the second could not have joined the first |
| `TelegramTurns.WhatAnEventSends` | src/zero/adapters/telegram.py:934-990 | One admitted event sends the open burst of its scope, unless it joins it, and then itself, unless it is plain text |
| `TelegramTurns.OpenedFirstLeavesFirst` | src/zero/adapters/telegram.py:991-992 | Bursts open at the end of the batch leave in the order of their first messages |
| `TelegramTurns.WhenAPollCompletes` | src/zero/adapters/telegram.py:840-867 | A poll completes exactly if no inline dispatch raises: all are inline without a background sink, and button presses always |
| `RateLimiter.TokensInRange` | src/zero/app/chat_service.py:58-70 | Tokens stay within 0 and the rate for every history |
| `RateLimiter.Potential` | src/zero/app/chat_service.py:58-70 | Requests admitted since the window opened plus tokens in hand never exceed the rate plus the inflow |
| `RateLimiter.AdmissionBound` | src/zero/app/chat_service.py:58-70 | For non-decreasing times the requests admitted in any window are at most rate + seconds * rate / 60 |
| `RateLimiter.SpacedRequestIsAdmitted` | src/zero/app/chat_service.py:58-70 | A request at least 60 / rate seconds after the previous one is admitted |
| `RateLimiter.TokensAreTheLeast` | src/zero/app/chat_service.py:58-70 | The tokens at hand are the least of what the rate and the inflow leave since any earlier request |
| `RateLimiter.AdmittedExactly` | src/zero/app/chat_service.py:58-70 | A request is admitted exactly when, with it, no window from an earlier request on holds more admitted ones than rate plus inflow |
| `RateLimiter.KeysAreIndependent` | src/zero/app/chat_service.py:51-70 | A key's bucket depends on that key's own requests only |
| `RateLimiter.AdmittedForIsOwn` | src/zero/app/chat_service.py:51-70 | What a mixed trace admits for a key is what the key's own times admit |
| `RateLimiter.WindowBound` | src/zero/app/chat_service.py:51-70 | The window bound for one key of any mixed trace |
| `RateLimiter.TokenBucketRateLimiter.Allow` | src/zero/app/chat_service.py:58-70 | Answers and updates the bucket table as the pure history of requests says |
| `RateLimiter.MakeLimiter` | src/zero/app/chat_service.py:47-53 | A limit below one request per minute is refused |
| `TelegramRender.UnitsConcat` | src/zero/adapters/telegram_render.py:49-55 | UTF-16 lengths add up under concatenation |
| `TelegramRender.UnitsAreUtf16` | src/zero/adapters/telegram_render.py:49-55 | The width is the length of the UTF-16 form with its surrogate pairs, which reads back as the text |
| `TelegramRender.FittingIsLongest` | src/zero/adapters/telegram_render.py:178-186 | The hard cut is the longest prefix within the limit |
| `TelegramRender.ParagraphsAreNotPreferred` | src/zero/adapters/telegram_render.py:169-191 | The preferred cut is the last newline or space of the window; a paragraph break never wins over a later space |
| `TelegramRender.CutConserves` | src/zero/adapters/telegram_render.py:169-191 | A cut loses only spaces at the cut, never overfills, and makes progress exactly when the first character fits |
| `TelegramRender.CutExactly` | src/zero/adapters/telegram_render.py:169-191 | The cut is at the last newline or space inside the longest prefix that fits, with the spaces there dropped, or else behind that prefix; and no other cut is |
| `TelegramRender.SplitAt` | src/zero/adapters/telegram_render.py:169-191 | The loop computes that cut, of a text over the limit, and leaves any other whole |
| `TelegramChunker.BlocksConcatenate` | src/zero/adapters/telegram_render.py:214-226 | The fence and text blocks concatenate back to the source |
| `TelegramChunker.BlocksAlternate` | src/zero/adapters/telegram_render.py:214-226 | Blocks are non-empty and no two text blocks are neighbours |
| `TelegramChunker.FenceBodyIsTheGroup` | src/zero/adapters/telegram_render.py:264-271 | The body taken from a block's source is what the pattern's body group matched |
| `TelegramChunker.OvershootIsTheCloser` | src/zero/adapters/telegram_render.py:272-290 | All pieces of the layout fit the budget if and only if no fence is opened behind text that leaves room for its opener but not for its closer; they never exceed it by more than the four units of a closer |
| `TelegramChunker.ChunksFitWithinIff` | src/zero/adapters/telegram_render.py:247-291 | The same equivalence for every slack beyond the budget |
| `TelegramChunker.ACloserOvershoots` | src/zero/adapters/telegram_render.py:272-290 | Sixty characters and an untagged fence, at limit 64, make a chunk of 68 units |
| `TelegramChunker.WrittenFenceIsFound` | src/zero/adapters/telegram_render.py:214-226 | A fence written behind text without backticks is segmented back into that text, that tag and that body |
| `TelegramChunker.CutKeepsInk` | src/zero/adapters/telegram_render.py:169-191 | A cut keeps every non-space character, in order |
| `TelegramChunker.CutKeepsChunkable` | src/zero/adapters/telegram_render.py:282-290 | Cutting a body does not change whether the rest can be chunked |
| `TelegramChunker.ShortTagIsChunkable` | src/zero/adapters/telegram_render.py:264-290 | A tag that leaves two units beside opener and closer always ends |
| `TelegramChunker.StuckIsNotChunkable` | src/zero/adapters/telegram_render.py:282-287 | A fresh chunk that takes nothing means that the fence is not chunkable |
| `TelegramChunker.ALongTagIsStuck` | src/zero/adapters/telegram_render.py:264-290 | A tag of 57 characters over a body of one, at limit 64: a message that is never chunked |
| `TelegramChunker.LayFenceStep` | src/zero/adapters/telegram_render.py:272-290 | One round of a fence in the layout: the whole rest, or one cut and on |
| `TelegramChunker.Chunker.AddText` | src/zero/adapters/telegram_render.py:248-262 | Lays a text block out as specified; its degenerate branch cannot be reached |
| `TelegramChunker.Chunker.StartFence` | src/zero/adapters/telegram_render.py:272-281 | Opens a fence behind the text where its opener fits, else in a new chunk, as the layout does |
| `TelegramChunker.Chunker.LayCut` | src/zero/adapters/telegram_render.py:282-290 | Puts the longest preferred cut of the body into the open fence, or finds that a fresh chunk takes nothing |
| `TelegramChunker.Chunker.FenceRound` | src/zero/adapters/telegram_render.py:272-290 | One round of the fence loop: finished, shorter, or stuck for ever |
| `TelegramChunker.Chunker.AddFence` | src/zero/adapters/telegram_render.py:264-290 | Ends exactly when the fence leaves room for its widest character, and then keeps every inked character |
| `TelegramChunker.Chunker.AddBlocks` | src/zero/adapters/telegram_render.py:247-291 | Lays out all blocks; succeeds exactly when every fence is chunkable |
| `TelegramChunker.Segment` | src/zero/adapters/telegram_render.py:214-226 | The segmentation loop computes the blocks |
| `TelegramChunker.ChunkText` | src/zero/adapters/telegram_render.py:194-296 | The chunks are exactly the numbered pieces of the layout, which carry the ink of the blocks in order, each piece within its size (where they are cut: ChunkCuts.MessageIsLaid); no result exactly when some fence is not chunkable |
| `ChunkCuts.MessageIsLaid` | src/zero/adapters/telegram_render.py:247-292 | The pieces of a message are those of laying its blocks one by one: a text in proper cuts, its last part left lying; a fence behind that text exactly if its opener fits, its body in proper cuts for the room each chunk has |
| `ChunkCuts.TextIsChained` | src/zero/adapters/telegram_render.py:248-262 | Each chunk of a text run is the proper cut of what is left, until the rest fits |
| `ChunkCuts.OpenFenceIsChained` | src/zero/adapters/telegram_render.py:272-290 | Each part of a fence body is the proper cut of what is left for the room beside its markers, and is empty only behind text |
| `ChunkCuts.WhatAPieceShows` | src/zero/adapters/telegram_render.py:264-290 | A piece shows its text and its fence part between balanced markers with the tag |
| `ChunkCuts.AChunkStandsByItself` | src/zero/adapters/telegram_render.py:264-290 | Read as a message of its own, a chunk without backticks in its texts is that text and that fence |
| `ChunkCuts.DecimalReads` | src/zero/adapters/telegram_render.py:293-295 | A numeral stands for its number and has no leading zero |
| `ChunkCuts.HowChunksAreNumbered` | src/zero/adapters/telegram_render.py:293-295 | Chunk i of n shows its piece and (i/n), if numbering is asked for and there are several; else just its piece |
| `ChunkCuts.MatchAtExactly` | src/zero/adapters/telegram_render.py:38 | A fence is found exactly where the pattern holds, and in one way: three backticks, tag, blanks, newline, a body up to the next three backticks or the end |
| `ChunkCuts.NextBudgetExactly` | src/zero/adapters/telegram_render.py:164-166 | The next budget is the largest that the observed expansion allows and that gives up a twentieth, or 64 |
| `ChunkCuts.TheFirstChunkIsRendered` | src/zero/adapters/telegram_render.py:138-166 | What is rendered at a budget is the first chunk |
| `ChunkConservation.OnlySpacesAtCutsVanish` | src/zero/adapters/telegram_render.py:169-296 | With runs of spaces put back behind some of the pieces, the pieces of a message are its text runs and fence bodies character for character, each in its fence |
| `ChunkConservation.FenceHolds` | src/zero/adapters/telegram_render.py:264-290 | The same for one fence laid behind any layout |
| `ChunkConservation.TextHolds` | src/zero/adapters/telegram_render.py:248-262 | The same for one run of text |
| `TelegramChunker.IndicatorFits` | src/zero/adapters/telegram_render.py:293-295 | The numbering fits its reserve of ten units up to 999 chunks |
| `TelegramChunker.NumberedTextFits` | src/zero/adapters/telegram_render.py:293-295 | The chunks of fence-free text at a limit of at least 74, if at most 999, stay within the limit, numbering included |
| `TelegramChunker.NextBudget` | src/zero/adapters/telegram_render.py:164-166 | The next budget is smaller and at least 64 |
| `TelegramChunker.FinalBudgetFits` | src/zero/adapters/telegram_render.py:138-166 | The budget at which the search stops gives a rendering within the bound, or is 64 |
| `TelegramChunker.RoomGrows` | src/zero/adapters/telegram_render.py:264-290 | What can be chunked at one budget can be chunked at every larger one |
| `TelegramChunker.RenderBounded` | src/zero/adapters/telegram_render.py:138-166 | Stops, with the rendering of the first chunk at the first budget whose rendering fits or at 64; a result exactly when the message is chunkable at the budget it stops at, so always for one chunkable at 64 |
| `TelegramChunker.BoundHolds` | src/zero/adapters/telegram_render.py:138-166 | For every message chunkable at 64 the rendered reply is within the bound, for every renderer that keeps sources of at most 68 units within it |
| `AgentTopology.CreateAllExactly` | src/zero/app/agent_type_service.py:458-474 | Creating destinations succeeds exactly when all are named, have a responsibility and a name used neither before nor among them |
| `AgentTopology.MoveAllExactly` | src/zero/app/agent_type_service.py:484-494 | Moving listed records succeeds exactly when each is listed once and owned by the source |
| `AgentTopology.RouteAllExactly` | src/zero/app/agent_type_service.py:475-494 | Routing succeeds exactly when it names destinations only and routes each record once, from the source; then each record has the one owner it was routed to |
| `AgentTopology.SplitExactly` | src/zero/app/agent_type_service.py:447-534 | When a split succeeds, and every row of the state it leaves |
| `AgentTopology.SplitAccountsForEveryRecord` | src/zero/app/agent_type_service.py:475-528 | Each live source record is live under its one destination or archived under the source; none stays live there |
| `AgentTopology.MergeExactly` | src/zero/app/agent_type_service.py:585-634 | When a merge succeeds, and every row it leaves: live source records under the new type with their origin, sources archived and superseded, the union of the tools and the largest limit, and no other type, record or instance changed |
| `AgentTopology.RetireExactly` | src/zero/app/agent_type_service.py:681-710 | When a retirement succeeds; nothing of the type is then live |
| `AgentTopology.NothingDisappears` | src/zero/app/agent_type_service.py:415-845 | Over any run no type, record, instance or snapshot is lost; type names, record contents and instance types are kept; records only change into archived ones |
| `AgentTopology.ApplyKeepsNames` | src/zero/persistence/migrations/0006_agent_types.sql:58 | Type names stay distinct, archived and retired types included |
| `AgentTopology.RunIsSound` | src/zero/app/agent_type_service.py:415-896 | In every reachable topology all owners, instance types and snapshot entries exist |
| `AgentTopology.SnapshotIsOfTheStart` | src/zero/app/agent_type_service.py:851-896 | An operation takes at most one snapshot, of the state it starts from |
| `AgentTopology.RollbackExactly` | src/zero/app/agent_type_service.py:756-825 | What a rollback gives after any history: the snapshot's active types plus those it lists as inactive that are active now; every owned record back with its owner; no record state changed |
| `AgentTopology.RollbackIsExactIff` | src/zero/app/agent_type_service.py:788-800 | The active types are exactly the snapshot's if and only if no type it lists as inactive is active now |
| `AgentTopology.RollbackCanLeaveATypeActive` | src/zero/app/agent_type_service.py:788-800 | A run in which a rollback leaves a type active that the snapshot lists as retired |
| `AgentTopology.RunActivatesNone` | src/zero/app/agent_type_service.py:415-727 | Without rollbacks no inactive type becomes active |
| `AgentTopology.RollbackUndoesMigrations` | src/zero/app/agent_type_service.py:733-845 | After a migration and any operations but rollbacks, rolling back to its snapshot gives exactly the active types and record owners from before, and deletes nothing |
| `AgentTopology.LimitsAreKeptIff` | src/zero/app/agent_type_service.py:290-306 | An operation keeps running instances within the limits unless it lowers a limit below them |
| `AgentTopology.LimitsHoldOverRuns` | src/zero/app/agent_type_service.py:290-306 | Over runs without such an update the limits hold throughout |
| `AgentTopology.CompletionFreesASlot` | src/zero/app/agent_type_service.py:265-327 | Within the limits, completing an instance lets an idle instance of the same type be assigned next |
| `AgentTopology.AgentTypeService.CreateType` | src/zero/app/agent_type_service.py:93-156 | The method performs the specified operation; on an error nothing changes |
| `AgentTopology.AgentTypeService.UpdateType` | src/zero/app/agent_type_service.py:171-215 | Responsibility, tools and limit each change only if given; name and state never do; the limits then hold exactly when the new one leaves room for what is running |
| `AgentTopology.AgentTypeService.AddKnowledge` | src/zero/app/agent_type_service.py:336-374 | One more record, with its owner; the live records of its owner grow by exactly it if it is live, all others stay; a blank text or an unknown owner changes nothing |
| `AgentTopology.AgentTypeService.CreateInstance` | src/zero/app/agent_type_service.py:221-262 | A new instance is idle: no running count changes and the limits stay kept; only for an active type |
| `AgentTopology.AgentTypeService.AssignInstanceToTask` | src/zero/app/agent_type_service.py:265-309 | As above, under the concurrency limit |
| `AgentTopology.AgentTypeService.LeaseInstanceForTask` | src/zero/persistence/repositories/agent_type_repository.py:312-367 | As above, for a running instance |
| `AgentTopology.AgentTypeService.CompleteInstance` | src/zero/app/agent_type_service.py:311-327 | The running count of the type of the instance falls by one and no other changes; limits stay kept; only for a running instance |
| `AgentTopology.AgentTypeService.TakeSnapshot` | src/zero/app/agent_type_service.py:851-896 | Captures the states of all types and the owners of all records |
| `AgentTopology.AgentTypeService.CreateDestinations` | src/zero/app/agent_type_service.py:458-474 | The creation loop of a split |
| `AgentTopology.AgentTypeService.MoveKnowledge` | src/zero/app/agent_type_service.py:484-494 | The inner routing loop of a split |
| `AgentTopology.AgentTypeService.RouteKnowledge` | src/zero/app/agent_type_service.py:475-494 | The routing loop of a split |
| `AgentTopology.AgentTypeService.ArchiveUnrouted` | src/zero/app/agent_type_service.py:495-505 | The archiving loop of a split |
| `AgentTopology.AgentTypeService.SplitType` | src/zero/app/agent_type_service.py:415-556 | The split, all or nothing |
| `AgentTopology.AgentTypeService.MigrateKnowledge` | src/zero/app/agent_type_service.py:618-626 | The migration loops of a merge |
| `AgentTopology.AgentTypeService.ArchiveSources` | src/zero/app/agent_type_service.py:627-634 | The archiving loop of a merge |
| `AgentTopology.AgentTypeService.CheckSources` | src/zero/app/agent_type_service.py:587-595 | The first complaint about the sources, in order |
| `AgentTopology.AgentTypeService.MergeTypes` | src/zero/app/agent_type_service.py:562-654 | The merge, all or nothing |
| `AgentTopology.AgentTypeService.RetireType` | src/zero/app/agent_type_service.py:660-727 | The retirement, all or nothing |
| `AgentTopology.AgentTypeService.RollbackToSnapshot` | src/zero/app/agent_type_service.py:733-845 | The rollback |
| `TopologyEffects.StripExactly` | src/zero/app/agent_type_service.py:356-366 | A stripped text is the text without the white space at its ends, and nothing else is cut |
| `TopologyEffects.SplitSucceedsExactly` | src/zero/app/agent_type_service.py:447-494 | When a split succeeds, in terms of the rows and the routing: names, responsibilities, owners, each record listed at one place |
| `TopologyEffects.SplitWritesTypes` | src/zero/app/agent_type_service.py:458-534 | The types a split makes, with the tools and limit of the source, and what becomes of the source; no other type or instance changes |
| `TopologyEffects.SplitWritesRecords` | src/zero/app/agent_type_service.py:475-505 | A listed record goes to the type of the name it is listed under, with its origin; other live records of the source are archived; no other changes |
| `TopologyEffects.RetireWrites` | src/zero/app/agent_type_service.py:681-710 | When a retirement succeeds and every row it writes |
| `TopologyEffects.RollbackWrites` | src/zero/app/agent_type_service.py:756-825 | Every row a rollback writes |
| `TopologyEffects.MigrationsTakeSnapshots` | src/zero/app/agent_type_service.py:851-896 | Every migration and rollback leaves one snapshot, named for it, of the states and owners it found |
| `TopologyEffects.RunningOfCounts` | src/zero/persistence/repositories/agent_type_repository.py:304-310 | The running count of a type is the number of its running instances |
| `TopologyEffects.CreateWrites` | src/zero/app/agent_type_service.py:93-156 | When a type can be created and the row it becomes |
| `TopologyEffects.UpdateWrites` | src/zero/app/agent_type_service.py:171-199 | An update writes what it is given, of the one type, and nothing else |
| `TopologyEffects.AddKnowledgeWrites` | src/zero/app/agent_type_service.py:336-374 | When a record can be added and the row it becomes |
| `TopologyEffects.InstanceOperationsWrite` | src/zero/app/agent_type_service.py:221-327 | When an instance is created, assigned, leased or completed, and the one row that is written |
| `ToolLoop.PairedConcat` | src/zero/app/agent_runtime.py:1960-1969 | Well-paired histories can be joined |
| `ToolLoop.EveryRequestIsPaired` | src/zero/app/agent_runtime.py:1848-2217 | Every request of a run that follows the request rules carries the task's history followed by a well-paired one |
| `ToolLoop.PairedHistoryStaysPaired` | src/zero/app/agent_runtime.py:1848-2217 | A task history that is paired is paired in every request |
| `ToolLoop.QuietAfter` | src/zero/app/agent_runtime.py:2137-2163 | Counting a failure trips the breaker exactly at the fifth of its signature |
| `ToolLoop.CountedIsTallied` | src/zero/app/agent_runtime.py:2137-2163 | Counting a failure keeps the counts in step with the failures read off the tool outcomes, and breaks no earlier promise of the breaker |
| `ToolLoop.FourPerDelegation` | src/zero/app/agent_runtime.py:1590-1765 | The requests of delegated children number at most four per delegated call |
| `ToolLoop.PacedSend` | src/zero/app/agent_runtime.py:1844-1958 | Sending a request keeps the pacing: a lease renewed for each request but the final nudge and for each call dealt with, boosts sent exactly when due |
| `ToolLoop.ToolRounds.ExecuteDelegation` | src/zero/app/agent_runtime.py:1590-1765 | A delegated subtask sends at most four requests, each the one before plus the whole turn of its reply with what the child reads of each call; it invokes exactly the calls of its replies that are run, in order; refused arguments send none; it raises exactly for tools that cannot be sliced or when its provider raises |
| `ToolLoop.ToolRounds.RunChild` | src/zero/app/agent_runtime.py:1669-1748 | The conversation of the child: well paired, at most four requests, ended by an answer without calls, an exception or the fourth request; every call of every reply is answered with what its tool gave, cut at 2000, or why it was not run, and the invocations are those of the replies, in order |
| `ToolLoop.ToolRounds.ChildTurn` | src/zero/app/agent_runtime.py:1698-1745 | One turn of a child: each call run exactly if there is a tool service, the tool is its own and the arguments are JSON, and answered with its result |
| `ToolLoop.ToolRounds.Invoke` | src/zero/app/agent_runtime.py:2069-2174 | One invocation; its answer is the text for what the tool gave and for how often that failure occurred by then; the breaker trips exactly at the fifth of a signature |
| `ToolLoop.ToolRounds.HandleCall` | src/zero/app/agent_runtime.py:1971-2174 | A call is delegated, rejected with its reason, or invoked exactly once, under a new question to the gate, and answered by exactly one tool message with its id; or it raises, which it does only when the gate does, without a tool service, when its tool crashes, or when its delegation does |
| `ToolLoop.ToolRounds.HandleDelegation` | src/zero/app/agent_runtime.py:1971-1992 | A delegated call is answered as its child ended, with at most four child requests, or raises with its delegation |
| `ToolLoop.ToolRounds.HandleBatch` | src/zero/app/agent_runtime.py:1960-2174 | All calls of the response dealt with in order, the whole turn appended: the assistant message and one answer per call; or the calls up to one that raised, for its cause; a tripped breaker is reported exactly when a signature has failed five times |
| `ToolLoop.ToolRounds.Send` | src/zero/app/agent_runtime.py:2177-2192 | A justified request is sent and noted |
| `ToolLoop.ToolRounds.NudgeWhileEmpty` | src/zero/app/agent_runtime.py:1840-1881 | At most two nudges, only for responses without calls and content, each under a renewed lease; broken off exactly by a lost lease or a failed request |
| `ToolLoop.ToolRounds.BoostIfTruncated` | src/zero/app/agent_runtime.py:1917-1958 | A boost is sent exactly for a truncated response with an unusable call while budget is left |
| `ToolLoop.ToolRounds.ExecuteRound` | src/zero/app/agent_runtime.py:1960-2194 | Deals with the response in hand and asks for the next one; ends early for a tripped breaker, a call that raised, a failed request or a response without calls |
| `ToolLoop.ToolRounds.RunRounds` | src/zero/app/agent_runtime.py:1914-2194 | The rounds end with a response without calls, a lease not held at the last renewal, an exception with its cause, a breaker tripped by five failures of one signature with the whole turn answered, or the rounds used up with the last calls untouched |
| `ToolLoop.ToolRounds.SendFinalNudge` | src/zero/app/agent_runtime.py:2195-2229 | The toolless request after the last turn, executed or not; it adds the nudge and nothing else |
| `ToolLoop.ToolRounds.Run` | src/zero/app/agent_runtime.py:1767-2229 | Whatever happens: at most rounds + 5 requests, each the one its kind stands for; no round once the tools answered one signature with five failures; each executed turn answered call by call as screening, gate, tool or child decided, with a new gate question each time; a lease renewed for every nudge and round; a boost sent exactly when due and no call dealt with that called for one; a lost lease or an exception only for its cause; at most four child requests per delegated call; only legitimate invocations; a returned response has no calls |
| `ToolLoop.ANumberCrashesTheParent` | src/zero/app/agent_runtime.py:1662 | A task whose model delegates with a number as `tools` fails on that response, though provider, tools, gate and lease would all do their part |
| `ToolLoopEffects.HowACallIsAnswered` | src/zero/app/agent_runtime.py:1990-2174 | A call that is not delegated is answered for the first reason that holds (arguments, declaration, gate), or invoked once and answered with what the tool gave, with a warning at the third failure of a kind |
| `ToolLoopEffects.FailsAreFailures` | src/zero/app/agent_runtime.py:2105-2163 | What the breaker counts is the number of own invocations that failed or were refused with that tool and those first 120 characters |
| `ToolLoopEffects.FewerThanFive` | src/zero/app/agent_runtime.py:2137-2163 | No request but the final nudge follows the fifth failure of a kind |
| `ToolLoopEffects.WhenADelegationGoesAhead` | src/zero/app/agent_runtime.py:1628-1660 | A delegation goes ahead with an objective of 1 to 8192 characters at a depth below three |
| `ToolLoopEffects.WhatAChildMayUse` | src/zero/app/agent_runtime.py:1662-1666 | The tools a child may use, and when its arguments are JSON |
| `ToolLoopEffects.WhenABoostIsDue` | src/zero/app/agent_runtime.py:1922-1930 | When a response calls for a boost |
| `ToolLoopEffects.WhatABoostAsks` | src/zero/app/agent_runtime.py:1931-1936 | A boost drops that response and asks with twice the output cap, at most 32768 |
| `ToolLoopEffects.WhatEmptyMeans` | src/zero/app/agent_runtime.py:1840-1844 | A response is empty if it has no calls and nothing but white space |
| `ToolLoopEffects.ATaskReadsItsTool` | src/zero/app/agent_runtime.py:2069-2174 | A run in which the second request carries what the tool answered |
| `ToolLoopEffects.AChildReadsItsTool` | src/zero/app/agent_runtime.py:1698-1745 | A run in which the second request of a child carries what its tool answered, and the second request of its parent what the child answered |
| `ToolLoop.SanitizedIsPaired` | src/zero/app/chat_service.py:232-245 | Prior turns reach the wire as plain text only |
| `ToolLoopEffects.PlainTurnsReachTheWire` | src/zero/app/chat_service.py:232-236 | The prior turns with a known role and a text reach the wire in order, each with its role, and no other |
| `ToolLoop.ChatHistoryIsPaired` | src/zero/app/chat_service.py:297-451 | Every request of a chat turn is well paired, under the native and the text protocol |
| `ToolLoop.CompleteTurn` | src/zero/app/chat_service.py:297-451 | Refused exactly for a blank message or rounds outside 0 to 8; else at most max_tool_rounds + 1 requests, each the one before plus exactly what its response added, well paired, with tools offered only natively and not in the last; it ends with the first response that asks for no tool, the rounds used up, no tool service, or a failing provider |
| `ToolLoopEffects.HowAChatStarts` | src/zero/app/chat_service.py:237-242 | The first request is the plain prior turns and the message |
| `ToolLoopEffects.WhatAChatRequestAdds` | src/zero/app/chat_service.py:316-451 | Each further request adds the reply, which asked for a tool, and one message for each of its calls, or for the call in its text |
| `ToolLoopEffects.ResultsAreCounted` | src/zero/app/chat_service.py:316-451 | Which tool result a message carries |
| `FitLadder.SelectionIsMonotone` | src/zero/app/compaction_service.py:493-503 | Longer selections cost at least as much |
| `FitLadder.ExactlyOneRung` | src/zero/app/compaction_service.py:465-527 | A conversation lands on exactly one rung, which fixes what is kept |
| `FitLadder.WhatEveryRungGuarantees` | src/zero/app/compaction_service.py:465-527 | Every rung but the emergency one fits the budget, and the newest message survives last |
| `FitLadder.NoLongerSelectionFits` | src/zero/app/compaction_service.py:493-505 | No longer suffix of the history would have fitted with the first message |
| `FitLadder.WhenEachRungIsReached` | src/zero/app/compaction_service.py:465-527 | The rung is the first on which what is kept fits |
| `FitLadder.WhatEachRungKeeps` | src/zero/app/compaction_service.py:465-527 | What is kept on each rung, message by message |
| `FitLadder.WhatACutToolKeeps` | src/zero/app/compaction_service.py:506-512 | A tool result over half the budget keeps a quarter of the budget of its characters and a mark |
| `FitLadder.WhatTheEmergencyKeeps` | src/zero/app/compaction_service.py:520-526 | The emergency cut keeps the longest prefix with at most four UTF-8 bytes for each token of the budget |
| `FitLadder.LengthIsUtf8` | src/zero/app/compaction_service.py:520-526 | The length counted is that of the UTF-8 form |
| `FitLadder.Utf8Prefix` | src/zero/app/compaction_service.py:520-526 | The longest prefix within so many bytes |
| `FitLadder.DropHistory` | src/zero/app/compaction_service.py:493-505 | The dropping loop gives the longest selection that fits, or the first and newest message |
| `FitLadder.CutToolResults` | src/zero/app/compaction_service.py:506-512 | Cuts exactly the oversized tool results |
| `FitLadder.FitMessages` | src/zero/app/compaction_service.py:465-527 | The ladder lands on the first rung that fits and keeps what that rung keeps |
| `FitLadder.LowerConcat` | src/zero/app/compaction_service.py:585-588 | Lower-casing character by character distributes over concatenation |
| `FitLadder.TemplateIsValid` | src/zero/app/compaction_service.py:529-589 | The deterministic summary passes validation for every conversation |
| `FitLadder.WhatTheTemplateSays` | src/zero/app/compaction_service.py:529-573 | The deterministic summary, line by line |
| `FitLadder.WhatValidMeans` | src/zero/app/compaction_service.py:575-589 | A summary is valid with ten characters beside white space and the title of every section, letter case aside |
| `FitLadder.ChosenSummaryIsValid` | src/zero/app/compaction_service.py:350-382 | The chosen summary is valid, so the blocker after it cannot be reached |
| `Compaction.FloorTestIsExact` | src/zero/app/compaction_service.py:285-290 | The floored percentage is below ten exactly when less than a tenth was reclaimed |
| `Compaction.ThrashingMeans` | src/zero/app/compaction_service.py:252-290 | A record thrashed if its target kept more than nine tenths of the tokens of its source, both known and the latter not zero |
| `Compaction.GuardCountsTheRun` | src/zero/app/compaction_service.py:252-292 | The guard's count is the length of the run of thrashing compactions directly before |
| `Compaction.CountIsTheThrashRun` | src/zero/app/compaction_service.py:252-292 | Every compaction let through carries that length, at most two |
| `Compaction.NoFourthThrash` | src/zero/app/compaction_service.py:285-312 | After three thrashing compactions in a row the next record is a refusal |
| `Compaction.RefusalIsRecordedIff` | src/zero/persistence/migrations/0007_artifacts_rag_context.sql:235 | A refusal leaves a record exactly when no record has the active version as target; a recorded one resets the count |
| `Compaction.ARefusalIsLost` | src/zero/app/compaction_service.py:285-312 | After three compactions that reclaim nothing the fourth is refused and leaves no record; with a context built in between it leaves one |
| `Compaction.RunIsSound` | src/zero/app/compaction_service.py:246-434 | Every reachable store is sound, crashes, rebuilt contexts and recoveries included |
| `Compaction.CrashLeavesOldOrNew` | src/zero/app/compaction_service.py:325-434 | At every crash point the old or the new version is active; the new one exactly from the fifth write of a compaction let through, with transcript, version and record durable |
| `Compaction.WritesInOrder` | src/zero/app/compaction_service.py:325-434 | Dying after so many writes leaves just those: transcript, record, version with its size, marks and activation in their order |
| `Compaction.RefusalAndBuildWrite` | src/zero/app/compaction_service.py:291-312 | The one record of a refusal, and the version a built context is |
| `Compaction.FinishesIff` | src/zero/app/compaction_service.py:383-434 | A compaction finishes exactly when the guard lets it through and its target is free |
| `Compaction.RecoverAtKeepsSound` | src/zero/app/observability_service.py:1075-1124 | Recovery can complete only the last record |
| `Compaction.RecoveryAfterCrash` | src/zero/app/observability_service.py:1064-1124 | Recovery completes exactly the compactions that died after the version row, before activation, with a version active; one that died later is marked failed though active |
| `Compaction.RetryConflictsUntilRebuilt` | src/zero/persistence/migrations/0007_artifacts_rag_context.sql:235 | A record that claims the next version blocks every compaction until a context is built; then the way is free |
| `Compaction.BuildKeepsSound` | src/zero/app/retrieval_service.py:366-434 | A freshly built context takes the next number and is active |
| `Compaction.BuildFreesTheWay` | src/zero/app/retrieval_service.py:366-434 | No record claims the version after a freshly built one, so the next compaction proceeds unless the guard refuses it |
| `Compaction.CompactionService.ThrashCount` | src/zero/app/compaction_service.py:252-292 | The guard as computed, with floored percentages, is the specified one |
| `Compaction.CompactionService.Compact` | src/zero/app/compaction_service.py:188-434 | The writes in their order, cut off anywhere |
| `Compaction.CompactionService.BuildContext` | src/zero/app/retrieval_service.py:366-434 | The next version is appended and active, the records stay, the store stays sound, and the next compaction proceeds unless the guard refuses it |
| `Compaction.CompactionService.RecoverPartialCompaction` | src/zero/app/observability_service.py:1064-1124 | The recovery loop over the partial records |
| `ApprovalGate.StepKeeps` | src/zero/app/approval_gate.py:466-485 | No operation removes a row or rewrites a decided one |
| `ApprovalGate.RunKeeps` | src/zero/app/approval_gate.py:243-485 | Nor does any run |
| `ApprovalGate.DenyOutlivesEveryRun` | src/zero/app/approval_gate.py:261-283 | Once a deny row matches a call, every later evaluation is denied exactly when the mode is not off and no session grant covers it or the hardline floor catches it |
| `ApprovalGate.AGrantOverridesADenial` | src/zero/app/approval_gate.py:261-283 | A run after which a call with a matching deny row is allowed, through a session grant given for another call |
| `ApprovalGate.VerdictExactly` | src/zero/app/approval_gate.py:243-365 | From the table and the grants as a whole: when a call is allowed, when denied, and else pending on an undecided request of just this call; a session grant covers a call of its own project, tool and execution; only a pending verdict may add one row |
| `ApprovalGate.HardlineFloor` | src/zero/app/approval_gate.py:252-257 | A hardline match is denied in every state, exactly when the mode is not off |
| `ApprovalGate.PermanentDenialIsToolWide` | src/zero/app/approval_gate.py:393-465 | A permanent denial of one request denies the tool for every argument shape |
| `ApprovalGate.AskKeepsOneFresh` | src/zero/app/approval_gate.py:318-365 | Asking keeps at most one fresh undecided row per request key |
| `ApprovalGate.RunKeepsOneFresh` | src/zero/app/approval_gate.py:318-372 | So does every run with a fixed time-to-live and a forward clock |
| `ApprovalGate.AtMostOneFreshRequest` | src/zero/app/approval_gate.py:318-372 | At every reachable state at most one undecided row per project, execution, tool and argument hash is fresh |
| `ApprovalGate.RepeatedCallReuses` | src/zero/app/approval_gate.py:318-340 | A repeated call reuses its request, and changes nothing, exactly while that is fresh |
| `ApprovalGate.ResolvedIsRuled` | src/zero/app/approval_gate.py:393-485 | After a resolution every call the ruling is about finds it: denials and standing allows by a matching row, tool-wide where permanent; a call is newly covered exactly by a session allowance on a request of its project, tool and execution; mode, time-to-live and grants given before stay |
| `GateHistory.VerdictFollowsRulings` | src/zero/app/approval_gate.py:243-485 | After any run from an empty table the verdict is fixed by the mode set last, the floor, the session allowances since the last restart, and the denials and permanent allowances given so far, by project, tool, execution and argument hash |
| `GateHistory.TableMirrorsRulings` | src/zero/app/approval_gate.py:393-485 | The durable table forbids and permits exactly what the rulings did |
| `GateHistory.GrantsAreSessionRulings` | src/zero/app/approval_gate.py:431-439 | A call is covered exactly when a session allowance was given since the last restart on a request of its project, tool and execution |
| `GateHistory.AGrantStaysInItsExecution` | src/zero/app/approval_gate.py:261-262 | A session allowance changes nothing for a call of another execution |
| `GateHistory.EffectIsResolved` | src/zero/app/approval_gate.py:393-485 | When a ruling takes effect, and the rows it writes |
| `GateHistory.AskingOnlyAppends` | src/zero/app/approval_gate.py:318-365 | A pending verdict names a latest waiting row that is young, writing nothing, or a new row, writing only that |
| `GateHistory.UndecidedRowsAreBlank` | src/zero/app/approval_gate.py:466-485 | In every run undecided rows carry nothing of a decision, so closing one out changes nothing |
| `ApprovalGate.FreshWhenMinted` | src/zero/app/approval_gate.py:367-372 | A request just minted is fresh only if the local time zone leaves it so |
| `ApprovalGate.ToolApprovalGate.EvaluateCall` | src/zero/app/approval_gate.py:243-365 | The loops over the table find that verdict; decided rows are kept, and at most one request per key is fresh if it was so before |
| `ApprovalGate.ToolApprovalGate.ResolveRequest` | src/zero/app/approval_gate.py:393-485 | An unknown request is not found, a decided one is given back unchanged, a clash of standing allows changes nothing; otherwise the ruling takes effect as above; decided rows are kept, and at most one request per key is fresh if it was so before |
| `ApprovalGate.ToolApprovalGate.SetMode` | src/zero/app/approval_gate.py:157-178 | Off lets every call run, auto every call that nothing denies; no switch between the modes other than off lifts or adds a denial |
| `ApprovalGate.ToolApprovalGate.SetPendingTtl` | src/zero/app/approval_gate.py:179-185 | Sets a positive time-to-live and refuses any other |
| `ArtifactStore.DeduplicationKeepsProvenance` | src/zero/app/artifact_service.py:95-191 | One provenance row per accepted call, in order; two rows share an artifact exactly when project and content agree |
| `ArtifactStore.OneArtifactPerHash` | src/zero/app/artifact_service.py:95-191 | A project holds one artifact per distinct content hash, and no other |
| `ArtifactStore.ArtifactsAreImmutable` | src/zero/app/artifact_service.py:95-191 | A later call never replaces an artifact |
| `ArtifactStore.StoringWrites` | src/zero/app/artifact_service.py:95-191 | The artifact and the provenance row that storing makes |
| `ArtifactStore.EveryCommitIsSound` | src/zero/app/artifact_service.py:285-454 | At every commit of every operation only approved documents are indexed |
| `ArtifactStore.AgreementAfter` | src/zero/app/artifact_service.py:285-454 | Between operations index and approved documents agree, even when indexing fails, if and only if the operation is not a supersession of an approved document by a missing one |
| `ArtifactStore.AgreementOverRuns` | src/zero/app/artifact_service.py:285-454 | Over every run without such a step they agree throughout |
| `ArtifactStore.SupersedingByNothingLosesTheEntry` | src/zero/app/artifact_service.py:407-434 | A run in which an approved document loses its index entry |
| `ArtifactStore.RebuildChangesNothing` | src/zero/app/artifact_service.py:493-529 | A rebuild of an index in agreement is the identity |
| `ArtifactStore.RebuildRepairs` | src/zero/app/artifact_service.py:493-529 | A rebuild repairs one project and leaves the others |
| `ArtifactStore.IndexedImpliesApproved` | src/zero/app/artifact_service.py:285-454 | However operations are cut short, no unapproved document is indexed |
| `ArtifactStore.IngestWrites` | src/zero/app/artifact_service.py:285-374 | When a document is taken in, the row and entry it becomes, and that no other changes |
| `ArtifactStore.DocumentOperationsWrite` | src/zero/app/artifact_service.py:376-454 | What approval, supersession and archiving write of the one document and its entry, successor included |
| `ArtifactStore.RebuildWrites` | src/zero/app/artifact_service.py:493-529 | The index a rebuild leaves, entry by entry |
| `ArtifactStore.ArtifactService.StoreArtifact` | src/zero/app/artifact_service.py:95-191 | Refuses exactly empty content; otherwise one more provenance row for the artifact of that content, which exists exactly once, and none is replaced; the deduplication invariant is kept for the calls so far and this one |
| `ArtifactStore.ArtifactService.IngestRagDocument` | src/zero/app/artifact_service.py:285-374 | Inserts the document, indexes it if approved, and leaves nothing on failure |
| `ArtifactStore.ArtifactService.ApproveRagDocument` | src/zero/app/artifact_service.py:376-405 | Approves and indexes together or not at all |
| `ArtifactStore.ArtifactService.SupersedeRagDocument` | src/zero/app/artifact_service.py:407-434 | Drops the index entry, then marks the document superseded |
| `ArtifactStore.ArtifactService.ArchiveRagDocument` | src/zero/app/artifact_service.py:436-454 | Drops the index entry, then archives the document |
| `ArtifactStore.ArtifactService.RebuildRagIndex` | src/zero/app/artifact_service.py:493-529 | Clears the project's entries and inserts its approved documents |
| `ChatDispatcher.FindLaneWellFormed` | src/zero/app/background_workers.py:987-1011 | A lookup gives a living lane of the chat or refuses |
| `ChatDispatcher.RunWellFormed` | src/zero/app/background_workers.py:987-1076 | Every interleaving keeps the registry within its cap and every living lane registered for its chat |
| `ChatDispatcher.LanesWithinCap` | src/zero/app/background_workers.py:987-1011 | At no moment are more than max_workers lanes registered |
| `ChatDispatcher.OneJobPerChat` | src/zero/app/background_workers.py:1013-1046 | Two jobs of one chat never run at once, even across retirement and rebuilding |
| `ChatDispatcher.NextLine` | src/zero/app/background_workers.py:1013-1076 | How each step moves a chat's line of jobs |
| `ChatDispatcher.LineInOrder` | src/zero/app/background_workers.py:1013-1076 | Jobs run and jobs waiting are, in order, among the jobs put |
| `ChatDispatcher.RanInOrder` | src/zero/app/background_workers.py:1013-1046 | The jobs run for a chat are a subsequence of those put, in order |
| `ChatDispatcher.EveryJobRunsOrWaits` | src/zero/app/background_workers.py:1013-1076 | All jobs of a chat have run or wait in order if and only if no step of the run put one on a lane that had exited or took down a lane with jobs waiting |
| `ChatDispatcher.MissingNeverShrinks` | src/zero/app/background_workers.py:1013-1076 | The number of jobs missing from the line of a chat is never negative and never shrinks |
| `ChatDispatcher.LostForGood` | src/zero/app/background_workers.py:1013-1076 | What a step loses is still missing at the end of every run |
| `ChatDispatcher.DeadLanesKeepTheirJobs` | src/zero/app/background_workers.py:1013-1046 | A lane that exited stays exited and keeps its jobs for ever |
| `ChatDispatcher.RetirementRaceLosesAJob` | src/zero/app/background_workers.py:1048-1076 | An interleaving in which an accepted job never runs |
| `ChatDispatcher.AtomicSubmissionLosesNothing` | src/zero/app/background_workers.py:1048-1076 | With lookup and put in one piece, and waiting for room in between, no accepted job is lost |
| `ChatDispatcher.SubmitWellFormed` | src/zero/app/background_workers.py:1048-1076 | A submission that waits for room, with any steps of the lanes meanwhile, keeps the registry well formed |
| `ChatDispatcher.WhatASubmissionDoes` | src/zero/app/background_workers.py:1048-1076 | A submission adds its job exactly when accepted, keeps every queue within its limit, and is refused only without a lane and a slot, or with a full lane |
| `ChatDispatcher.QueuesStayBounded` | src/zero/app/background_workers.py:1048-1076 | With submissions in one piece no queue exceeds its limit |
| `ChatDispatcher.ConcurrentSubmissionsOverfill` | src/zero/app/background_workers.py:1048-1076 | Two submissions that look for room at once put two jobs in a queue for one |
| `ChatDispatcher.RoomIsChecked` | src/zero/app/background_workers.py:1062-1066 | A submission goes on exactly if the queue is below the limit |
| `ChatDispatcher.RetiringFreesASlot` | src/zero/app/background_workers.py:1013-1046 | An idle lane without work frees its slot, and the chat can have a new lane at once |
| `ChatDispatcher.WhatTakingDoes` | src/zero/app/background_workers.py:1013-1046 | A lane takes its oldest job, and none while it is busy or dead |
| `ChatDispatcher.ChatSerialDispatcher.LaneFor` | src/zero/app/background_workers.py:987-1011 | Gives a living registered lane of the chat, its own or a new one, or refuses when it has none and every slot is taken; the registry stays well formed and within its cap |
| `ChatDispatcher.ChatSerialDispatcher.SubmitForChat` | src/zero/app/background_workers.py:1048-1076 | Tries, waits, reaps a dead lane and tries again; an accepted job waits on the lane of the chat; the registry stays well formed |
| `ChatDispatcher.ChatSerialDispatcher.DrainTurn` | src/zero/app/background_workers.py:1013-1046 | One turn of the drain loop: start the next job or retire |
| `ChatDispatcher.InMemoryCursorStore.AdvanceCursor` | src/zero/app/background_workers.py:917-921 | An offset only ever advances |

## Left out

- Authorization checks, audit rows, metrics and log lines: a denied caller changes nothing, the rest only records.
- HTTP, long polling, streaming, threads and locks as such: a locked region is one step of a model.
- Several projects in one topology: types, records and snapshots are those of one project.
- Version counters, timestamps, model policies, token budgets and memory scopes of agent types, and the sweeps that release stale instances.
- Row ids are positions in a table; that generated ids never collide is taken for granted.
- ToolLoop.ToolRounds.Run: says nothing about the text-protocol loop it hands over to, nor about the wording of tool messages beyond their reason.
- ToolLoop.ToolRounds.ExecuteDelegation: the payload is reduced to its text, and nesting to the depth limit.
- ToolLoop.CompleteTurn: the text protocol's parser and marker stripping are unknown functions; streamed events, the stored session and the rate limit in front of it are not part of the loop.
- Compaction.CompactionService.ThrashCount: the latest record is the last one inserted; for records created at the same moment the query leaves the order open.
- Compaction.CompactionService.Compact: writes of one compaction are not interleaved with those of another writer; memory deltas after activation are not modelled; it requires a sound store, which every reachable one is.
- HTML rendering: the regular expressions of `render_telegram_html` are one unknown function.
- FitLadder.TemplateIsValid: lower-casing is per character, without context-dependent mappings; the texts between the headings are arbitrary.
- FitLadder.FitMessages: a message is its role, its content and one opaque rest; lone surrogates, which cannot be encoded, are not modelled.
- ApprovalGate.AtMostOneFreshRequest: needs a fixed time-to-live and a clock that moves forward, as its run predicate says.
- ChatDispatcher.AtomicSubmissionLosesNothing: leaves out jobs that take their thread down; EveryJobRunsOrWaits covers those by its condition.
- ApprovalGate.ToolApprovalGate.EvaluateCall: of rows created at the same moment the query may return any; the model takes the last one, which changes the row reported, not the verdict.
- ApprovalGate.FreshWhenMinted: the time zone is fixed; a change to or from daylight saving while a request is open is not modelled.
- The read-only classification, the canonical argument encoding and the hardline patterns of the gate are parameters.
- Search and ranking over documents, secrets, providers, scheduling, worktrees and the command line.
- ChatDispatcher.ChatSerialDispatcher.SubmitForChat: the deadline is a number of further tries, with what the lanes do before each of them; how long one takes is not modelled.
- Dispatcher shutdown and the live user-session host.
