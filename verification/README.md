# Verified protocols of Codex Studio

This project models the parts of Codex Studio that are protocols, indexes or encoders,
and proves what they promise. `dafny verify dfyconfig.toml` checks everything.

Most of the model is a set of state machines. One step is a stretch of code that runs
without an await (TypeScript), or one durable write, observation or signal (Python). A
run is any sequence of steps, so each theorem covers every interleaving and every crash
point. A step whose guard does not hold leaves the state unchanged. Classes model the
objects that the source updates in place; each method is proved to compute a function,
and the theorems are about those functions. For the input queue, the stdout writer and
the catalog cache a `Replay` method drives the object through any run and ties what it
hands out to the run. Loops of the source are loops here.

Where a promise fails for some runs, the failing run is a lemma, and another lemma gives
the exact condition under which the promise holds.

## Parts

- **Input delivery and turn finalization** (`bridge.ts`, `features.ts`,
  `input-messages.ts` of the Claude bridge). `InputMessages` splits an input into native
  messages. `InputQueues` is the queue that the SDK iterates. `SteerSession` is one
  thread: `turn/start`, `turn/steer`, the SDK's pulls, echoes, reply frames and result
  receipts, `finishTurn` and `finalizeTurn` in their awaited stages, Stop, query loss and
  shutdown. An item's `Shows` is what the code holds in its deliveryStatus or its turn's
  startOutcome: Stop writes "cancelled" over any earlier status of a steer. `SteerChange`
  states what a step may change and an invariant that needs no discipline of callers or of
  the SDK, `SteerAlways` proves that every step keeps it, and `SteerRuns` draws theorems
  over all runs. `SteerReads` proves exactly which inputs the SDK can still read,
  `SteerUnread` that what a finalizer takes back was never read (with `SteerHosts`, which
  turn a query serves), `SteerHandover` for which attempt the SDK was given a UUID, and
  `SteerOwners` when an identity gets a second live owner.
  A direct `turn/steer` may reuse an identity that an earlier turn still owns, and an
  interrupt receipt may name an input that is already settled. `SteerInvariant` is the
  stronger invariant of runs in which neither happens (`Disciplined`). Its proof goes by
  kind of step: `SteerQueries`, `SteerEvidence`, `SteerPulls`, `SteerSubmissions`,
  `SteerStarts`, `SteerStages`, `SteerFinalizers`, `SteerStops`, and `SteerSafety` for any
  step and any run. `SteerTheorems` are its theorems. `SteerExact` holds the exact
  conditions, `SteerSweep` the ones of the finalizer's sweep, `SteerFailures` and
  `SteerOverturned` the runs that fail. `ConsumedSteer` is the matching of consumed UUIDs.
- **Native history** (`history-index.ts`, `controls.ts`). `HistoryIndex` is the
  one-pass index, `HistoryWalk` the parent-link walk it must agree with and
  `HistoryAgreement` the agreement. `HistoryOutcome` holds positions and delivery
  outcomes, `Fork` the branch of a thread at a turn.
- **Delivery and recovery** (`recover_backend.py`, `desktop_delivery.py`,
  `deliver_server.py`, `install_update.py`). `StartupRecovery` is the tick that may signal
  a pinned backend, `IntentPointer` the leased pointer, `StateOwner` the bounded
  predecessor chain, `InstallSwap` the app swap.
- **Small concurrent components.** `StdoutWriter`, `AssistantText`, `CatalogCache`.
- **Encoders.** `Base32Encoding`, `Base32Decoding` and `FrameHost` for frame hosts,
  `ProfileExport` for the record chunker.

## Assumptions

- Requests that change a turn are serialized per thread
  (`workspaces/providers/apps/claude-bridge/bridge.ts:4371-4388`). Everything else
  interleaves.
- An `InputQueue` has one consumer. The SDK's echoes, reply frames and result receipts
  name only UUIDs that it was given. Its interrupt receipts may name any input; the
  theorems of `SteerTheorems` take as a hypothesis that a receipt names a submitted steer
  that has left the queue, or a start that is saved.
- Native UUIDs are injective in the identity and part index; SHA-256, UUIDv5 and JSON
  text are opaque identities. How the native history spells a UUID (`NativeText`) may be
  any function.
- A query may be lost at any time, also while a finalizer waits.
- The recovery owner is alone
  (`workspaces/client/apps/desktop/recover_backend.py:1060-1064`), and so is the
  installer. The kernel never assigns a process birth twice.
- The startup tick does not take the delivery lease, so the publisher may save its
  journal copy (`workspaces/client/apps/desktop/deliver_server.py:332-333`) at any time,
  also inside a tick. `SignalsAreBounded` charges each save that erases a recorded stop,
  and `LateSaveSignalsTwice` reaches that bound. `SignalsWithoutSaves` and
  `SignalsAreReached` give the exact number of signals that can follow a state once the
  publisher saves no more; `EarlySaveSignalsOnce` is the case of a last save between
  ticks, before any signal.
- A stream whose `write` returned true buffers less than its high-water mark, which is
  at most the budget; after false it emits one drain.

## Model

| member | source | states |
|---|---|---|
| InputMessages.InputGroups | workspaces/providers/apps/claude-bridge/input-messages.ts:24-50 | fails exactly on an unsupported origin, else yields the groups of the specification: maximal runs of one origin, Studio events before human text |
| InputMessages.GroupsKeepEveryBlock | workspaces/providers/apps/claude-bridge/input-messages.ts:24-50 | grouping loses, repeats and reorders no block within an origin, puts every Studio event first and is never empty |
| InputMessages.SubmissionIdsReadBack | workspaces/providers/apps/claude-bridge/input-messages.ts:59-103 | the ids recorded for a submission are read back unchanged, distinct, and end with the id of the whole input |
| InputQueues.InputQueue.TakeBack | workspaces/providers/apps/claude-bridge/features.ts:168-173 | returns exactly the messages that have not crossed the iterator, in order, and empties the queue |
| InputQueues.InputQueue.RemoveIdentity | workspaces/providers/apps/claude-bridge/bridge.ts:1636-1640 | removes the first queued value of an identity and nothing else |
| InputQueues.InputQueue.Next | workspaces/providers/apps/claude-bridge/features.ts:187-202 | one resumption of the iterator yields, blocks or ends exactly as the pure pull, batches included |
| InputQueues.PullTakesFirst | workspaces/providers/apps/claude-bridge/features.ts:187-202 | a pull takes exactly the first unread message of the flattened queue, and nothing when closed |
| InputQueueTheorems.FifoWithoutRemovals | workspaces/providers/apps/claude-bridge/features.ts:161-203 | without removals, yielded messages followed by the unread ones are everything pushed, flattened |
| InputQueueTheorems.BatchesNeverInterleave | workspaces/providers/apps/claude-bridge/features.ts:187-202 | in every history the yielded messages are prefixes of pushed batches, batch after batch in push order, and yielded, removed and unread messages together are what was pushed |
| InputQueueTheorems.NothingYieldedAfterClose | workspaces/providers/apps/claude-bridge/features.ts:182-202 | nothing is yielded after close, whatever follows |
| InputQueueTheorems.SleeperMissesNothing | workspaces/providers/apps/claude-bridge/features.ts:174-202 | over every history no wake-up is lost: a consumer sleeps only while the queue is open and nothing is unread |
| InputQueueTheorems.Replay | workspaces/providers/apps/claude-bridge/features.ts:161-203 | driven through any history, the object yields exactly the messages of the history and holds a wake-up exactly while its consumer sleeps |
| SteerSession.WithdrawQueued | workspaces/providers/apps/claude-bridge/bridge.ts:1629-1648 | the finalizer's loop computes the withdrawal that the thread model applies |
| ConsumedSteer.ConsumedSteerOutcome | workspaces/providers/apps/claude-bridge/bridge.ts:1280-1289 | the one-pass loop reports delivery exactly when the usable ids are a subsequence of the consumed ones |
| ConsumedSteer.ConsumedIsSubsequence | workspaces/providers/apps/claude-bridge/bridge.ts:1280-1289 | the matching used by the thread model is that same subsequence relation |
| SteerEvidence.EvidenceNamesAttempt | workspaces/providers/apps/claude-bridge/bridge.ts:1264-1276 | a final UUID that the live query was given names this very submission attempt, completely read |
| SteerFinalizers.SweepKeeps | workspaces/providers/apps/claude-bridge/bridge.ts:1625-1652 | withdrawing a turn's queued steers keeps the invariant; each removed value belongs to the steer marked not applied |
| SteerAlways.StepBase | workspaces/providers/apps/claude-bridge/bridge.ts:1422-1709 | whatever callers and the SDK send, each of the 26 kinds of step keeps the base invariant; only a pull reads, only evidence delivers, only the native history proves absence, only a receipt submits a steer of a finishing turn, and only history verdicts, Stop, receipts and the save of the item itself write over an outcome |
| SteerSafety.StepKeeps | workspaces/providers/apps/claude-bridge/bridge.ts:1422-1709 | each of the 26 kinds of step keeps the full thread invariant unless it reuses a live identity or is a receipt about a settled or queued input |
| SteerRuns.StepKeepsExactly | workspaces/providers/apps/claude-bridge/bridge.ts:4039-4086 | a step that is no dishonest receipt keeps the full invariant exactly when it is not a direct steer that becomes an item while its identity is live |
| SteerSafety.RunKeeps | workspaces/providers/apps/claude-bridge/bridge.ts:1422-1709 | every state reached without such a reuse and with honest receipts satisfies the full invariant |
| SteerRuns.ItemsKeepTheirInput | workspaces/providers/apps/claude-bridge/bridge.ts:1625-1709 | over all runs an item never changes turn, identity, content, kind or number of parts, and no read is undone |
| SteerRuns.OutcomeIsKeptExactly | workspaces/providers/apps/claude-bridge/stop-inputs.ts:52-99 | over all runs an outcome, delivered or not applied, is kept exactly as long as no verdict that differs, no Stop that withdraws the whole input as the newest of its identity, no interrupt receipt and no save of the item is applied to it |
| SteerReads.RefusedAtOnceIsNeverRead | workspaces/providers/apps/claude-bridge/bridge.ts:4093-4105 | over all runs an input refused before submission is never yielded to the SDK |
| SteerReads.ReadLaterExactly | workspaces/providers/apps/claude-bridge/features.ts:161-203 | over all runs an input that no request is about to push is read by some continuation exactly when it waits in a queue that is open and whose query has not failed |
| SteerReads.WaitingIsRead | workspaces/providers/apps/claude-bridge/features.ts:187-202 | over all runs a waiting input is read once its query is ready and the SDK has pulled everything before it |
| SteerReads.NotAppliedIsReadExactly | workspaces/providers/apps/claude-bridge/bridge.ts:1625-1652 | over all runs an input reported as not applied is read later exactly when it still waits in such a queue |
| SteerReads.EndedSteerIsReadExactly | workspaces/providers/apps/claude-bridge/bridge.ts:1625-1627 | over all runs a steer of an ended turn is read later exactly when it still waits in such a queue |
| SteerReads.NothingQueuedAfterFinish | workspaces/providers/apps/claude-bridge/bridge.ts:4060-4119 | over all runs no message of a steer enters a queue after its turn began to finish |
| SteerHosts.StepHosts | workspaces/providers/apps/claude-bridge/bridge.ts:1422-1494 | whatever callers and the SDK send, every step keeps that the query of a steer's turn serves this turn until it ends, that no item of another turn of the query follows the steer till then, and that a reserved turn owns no steer |
| SteerUnread.StepOrders | workspaces/providers/apps/claude-bridge/features.ts:161-203 | whatever callers and the SDK send, every step keeps that an input that was read has a ready query in whose queue only later attempts wait |
| SteerUnread.TakenBackIsUnreadExactly | workspaces/providers/apps/claude-bridge/bridge.ts:1625-1652 | over all runs an input is marked as taken back only by a finalizer of its own turn and while no part of it was yielded to the SDK; it stays unread under every continuation exactly when it does not wait in a readable queue after that step |
| SteerUnread.UnreadWasTakenBack | workspaces/providers/apps/claude-bridge/bridge.ts:1625-1652 | over all runs every input marked as taken back unread was so marked by a finalizer of its turn when no part of it had been yielded |
| SteerRuns.DeliveredHasEvidence | workspaces/providers/apps/claude-bridge/bridge.ts:2323-2415 | over all runs every delivered input was delivered by a step that names its UUIDs: an echo of its final one, consumed UUIDs containing all in order, receipts of all, or a history that holds all of them once, in order, as inputs |
| SteerHandover.GivenExactly | workspaces/providers/apps/claude-bridge/features.ts:187-202 | over all runs a query was last given a UUID for an attempt exactly when it read that UUID for this attempt and for no later one of its turns |
| SteerHandover.DeliveredWasHandedOverExactly | workspaces/providers/apps/claude-bridge/bridge.ts:2323-2415 | over all runs an input is delivered by its native history, or by UUIDs that were handed over for this very attempt exactly when the query read them for it and for no later attempt; if they were, all of its parts were read |
| SteerRuns.AbsentHasEvidence | workspaces/providers/apps/claude-bridge/bridge.ts:1669-1709 | over all runs every input reported absent was asked about by its own finalizer, and that history has none of its UUIDs as an input or queued command and no opaque record |
| SteerRuns.VerdictIsShown | workspaces/providers/apps/claude-bridge/bridge.ts:1681-1685 | the verdict on an item is delivered, or not applied, exactly when the history shows that of its native ids |
| SteerOwners.SecondOwnerExactly | workspaces/providers/apps/claude-bridge/bridge.ts:4039-4086 | over all runs a step gives a live identity a second item exactly when it converts a direct steer of that identity, or a turn/start during which, after its check, an item of the identity was revived and has stayed live |
| SteerRuns.NewOwnerNeedsRelease | workspaces/providers/apps/claude-bridge/bridge.ts:3712-3781 | while no input that is not applied is given another status, any step but such a direct steer creates an item of an identity only when no earlier one is live at that moment |
| SteerOwners.OneLiveOwnerExactly | workspaces/providers/apps/claude-bridge/bridge.ts:3712-3781 | every identity always has at most one live owner, its newest item, exactly in the runs without such a step and without a step that revives an item which a newer one surpasses |
| SteerRuns.OneContentExactly | workspaces/providers/apps/claude-bridge/bridge.ts:3712-3781 | recorded items of one identity always share their content exactly in the runs in which no accepted direct steer changes it |
| SteerRuns.TurnsCompleteOnce | workspaces/providers/apps/claude-bridge/bridge.ts:1422-1494 | over all runs, whatever calls finishTurn, a turn completes at most once, exactly when it has ended, and stays ended |
| SteerRuns.NothingSubmittedAfterFinish | workspaces/providers/apps/claude-bridge/bridge.ts:4060-4119 | over all runs a steer whose turn began to finish becomes submitted only by an interrupt receipt that names it as still queued |
| SteerSweep.SteerStaysExactly | workspaces/providers/apps/claude-bridge/bridge.ts:1629-1648 | the sweep leaves a queued steer of the turn in the queue exactly when it is not outstanding or another value of its identity waits before it |
| SteerSweep.SweepClearsExactly | workspaces/providers/apps/claude-bridge/bridge.ts:1629-1648 | the sweep takes every queued steer of the turn out of the queue exactly when each is outstanding and the first value of its identity |
| SteerSweep.FinalSweepExactly | workspaces/providers/apps/claude-bridge/bridge.ts:1507-1652 | over all runs, ending a turn without handed-off steers empties the queue of its steers exactly under that condition |
| SteerSweep.SweptSteerIsReadExactly | workspaces/providers/apps/claude-bridge/bridge.ts:1507-1652 | over all runs, ending a turn without handed-off steers marks each outstanding steer as not applied, and a steer of the turn is read afterwards exactly when its queue can be read and it has begun to be handed over, is not outstanding or waits behind another value of its identity |
| SteerSweep.ExitedSteerIsNeverRead | workspaces/providers/apps/claude-bridge/bridge.ts:1648-1652 | over all runs, once the CLI of a turn has exited no steer of the turn is read any more |
| SteerTheorems.OutcomesAreFinal | workspaces/providers/apps/claude-bridge/bridge.ts:1669-1709 | in disciplined runs delivered and not applied are absorbing, with their evidence or cause, also under Stop, and an item never changes turn, identity or content |
| SteerTheorems.RefusedInputsAreNeverRead | workspaces/providers/apps/claude-bridge/bridge.ts:1625-1652 | an input refused or removed from the queue in a disciplined run has no part yielded to the SDK ever after, whatever follows; that it had none when it was removed holds over all runs (`TakenBackIsUnreadExactly`) |
| SteerTheorems.DeliveredWasHandedOver | workspaces/providers/apps/claude-bridge/bridge.ts:2323-2415 | in disciplined runs an input is delivered by its native history, which says nothing of what was handed over, or by UUIDs that were last handed over for this very attempt; without the history all of its parts were read |
| SteerTheorems.OneLiveOwner | workspaces/providers/apps/claude-bridge/bridge.ts:3712-3781 | in disciplined runs an earlier item of an identity is not applied or erased, and its content is repeated if no accepted direct steer changed it |
| SteerTheorems.EndedTurnLeavesNoSteer | workspaces/providers/apps/claude-bridge/bridge.ts:1507-1652 | in disciplined runs, from the end of a turn on, none of its steers waits where it can be read; its queue is closed, or it holds none of them and each is settled or taken by Stop |
| SteerTheorems.EndedSteersAreNeverReadAgain | workspaces/providers/apps/claude-bridge/bridge.ts:1625-1627 | after a disciplined run no part of a steer of an ended turn is consumed any more, whatever follows |
| SteerFailures.UnreadSteerIsDelivered | workspaces/providers/apps/claude-bridge/bridge.ts:2368-2404 | a run with a reused identity in which the echo of the first input delivers a steer that the SDK never read |
| SteerFailures.RefusedSteerIsRead | workspaces/providers/apps/claude-bridge/bridge.ts:1638-1648 | a run with a reused identity in which a steer reported as not applied stays queued and is read after its turn ended |
| SteerFailures.StopCancelsDelivered | workspaces/providers/apps/claude-bridge/stop-inputs.ts:66-75 | a run with a reused identity in which Stop turns a delivered steer into a cancelled one |
| SteerFailures.StopRevivesNotApplied | workspaces/providers/apps/claude-bridge/stop-inputs.ts:66-75 | a run with a reused identity in which Stop turns a steer that is not applied into a cancelled one, which owns its identity again |
| SteerFailures.LateReceiptDoubles | workspaces/providers/apps/claude-bridge/stop-inputs.ts:88-99 | a run in which an interrupt receipt arrives while turn/start prepares an input and revives the earlier item of its identity, which then gets two live owners |
| SteerOverturned.DeliveredIsOverturned | workspaces/providers/apps/claude-bridge/bridge.ts:1669-1695 | a run with a reused identity in which a history verdict turns a delivered steer into one that is not applied, given that its two native UUIDs are well formed and different |
| HistoryIndex.VerifiedChain | workspaces/providers/apps/claude-bridge/history-index.ts:94-187 | the loop over rows computes the specified index or refuses, and refuses a history without messages |
| HistoryAgreement.AncestryIsTheWalk | workspaces/providers/apps/claude-bridge/history-index.ts:138-162 | in an accepted history every parent walk ends at a root, and the incremental ancestry is the nearest input and message the walk meets |
| HistoryAgreement.RecordsNameParents | workspaces/providers/apps/claude-bridge/history-index.ts:121-154 | the records are the history's rows in order, each with the nearest message above it |
| HistoryAgreement.InputsAreAll | workspaces/providers/apps/claude-bridge/history-index.ts:147-162 | the list of inputs holds every input row once, in file order |
| HistoryAgreement.InputsLieOnOnePath | workspaces/providers/apps/claude-bridge/history-index.ts:145-162 | walking up from the j-th input meets exactly the inputs before it, latest first, skipping none |
| HistoryOutcome.IndexMessages | workspaces/providers/apps/claude-bridge/history-index.ts:40-54 | the loop builds the position map of the specification |
| HistoryOutcomeTheorems.PositionsAreTheScan | workspaces/providers/apps/claude-bridge/history-index.ts:56-64 | a position lookup succeeds exactly when each id occurs once, in order, and returns those positions |
| HistoryOutcomeTheorems.InputCoverage | workspaces/providers/apps/claude-bridge/history-index.ts:123-178 | an id is an input, or uncertain, exactly when some row says so |
| HistoryOutcomeTheorems.DeliveredIsExact | workspaces/providers/apps/claude-bridge/history-index.ts:65-86 | delivered exactly when anchors and ids are usable inputs of the history that occur once, in order |
| HistoryOutcomeTheorems.NotAppliedIsExact | workspaces/providers/apps/claude-bridge/history-index.ts:65-86 | not applied exactly when, under usable anchors, no id is an input or queued command and no record is opaque |
| HistoryOutcomeTheorems.DeliveredNeverBecomesNotApplied | workspaces/providers/apps/claude-bridge/history-index.ts:322-347 | however the history grows, delivered never becomes not applied |
| HistoryOutcomeTheorems.DeliveredStaysDelivered | workspaces/providers/apps/claude-bridge/history-index.ts:322-347 | under accepted growth it stays delivered exactly while no id and no anchor recurs |
| Fork.TurnRecord.Remap | workspaces/providers/apps/claude-bridge/controls.ts:122-160 | rewriting a turn in place succeeds exactly when every retained input has a position in the fork, and computes the remapped turn |
| ForkTheorems.RetainedLieBeforeTheCut | workspaces/providers/apps/claude-bridge/controls.ts:218-243 | the first inputs of all retained turns lie strictly before the cut, in strictly increasing order within and across turns |
| ForkTheorems.ForkSucceedsExactly | workspaces/providers/apps/claude-bridge/controls.ts:215-270 | after the checks before the SDK call, a fork succeeds exactly when it copies the history up to the cut into a new session and every retained input that is not withdrawn has its place there |
| ForkTheorems.ForkKeepsPositions | workspaces/providers/apps/claude-bridge/controls.ts:267-270 | with unique fork UUIDs every later retained input sits at the positions it had, and the boundary does exactly when it is not stale or kept its UUIDs; turns of earlier sessions are unchanged |
| ForkTheorems.RemapKeepsBoundary | workspaces/providers/apps/claude-bridge/controls.ts:122-129 | the turn boundary keeps its positions when the first input is not a withdrawn composite one |
| ForkTheorems.BoundarySitsExactly | workspaces/providers/apps/claude-bridge/controls.ts:122-137 | for every turn the boundary keeps its positions exactly when it is not such a stale one or the fork has each of its parts under the old UUID |
| ForkTheorems.StaleBoundaryIsLost | workspaces/providers/apps/claude-bridge/controls.ts:129-137 | a stale boundary stays readable, unchanged, exactly when the fork reuses one of its UUIDs |
| ForkTheorems.ForkLosesTheBoundary | workspaces/providers/apps/claude-bridge/controls.ts:215-270 | a thread and an accepted fork after which the boundary of a retained turn cannot be read |
| ForkTheorems.RemapOntoItself | workspaces/providers/apps/claude-bridge/controls.ts:164-173 | remapping onto the same history changes no later input, no composite id list and no boundary |
| StartupRecoveryTheorems.SignalsAreBounded | workspaces/client/apps/desktop/recover_backend.py:799-835 | over any ticks, crashes and publisher saves a delivery sends at most one SIGTERM more than the publisher erased recorded stops |
| StartupRecoveryTheorems.SignalsWithoutSaves | workspaces/client/apps/desktop/recover_backend.py:799-835 | from any reachable state, without further publisher saves, no more signals follow than the tick, the journal and the pinned process still allow |
| StartupRecoveryTheorems.SignalsAreReached | workspaces/client/apps/desktop/recover_backend.py:799-835 | exactly that many signals follow in some run, so one more is possible exactly when the tick has confirmed the birth, or the pinned process lives and an unset phase or a requested stop is still held |
| StartupRecoveryTheorems.EarlySaveSignalsOnce | workspaces/client/apps/desktop/deliver_server.py:332-333 | after a last publisher save between ticks and before any signal, at most one signal is sent |
| StartupRecoveryTheorems.LateSaveSignalsTwice | workspaces/client/apps/desktop/deliver_server.py:332-333 | a run in which one late publisher save leads to two signals |
| StartupRecoveryTheorems.SignalsFollowTheBirth | workspaces/client/apps/desktop/recover_backend.py:826-834 | the owner's action before each signal is a read that found the pinned birth |
| StartupRecoveryTheorems.StoppedMeansEnded | workspaces/client/apps/desktop/recover_backend.py:804-820 | stopped is journaled only directly after no process was seen at the pinned PID, and the pinned one never runs again |
| StartupRecoveryTheorems.StartsFollowTheEnd | workspaces/client/apps/desktop/recover_backend.py:800-820 | with the receipt installed, the ordinary start path runs only after a recorded end of the pinned backend |
| IntentPointerTheorems.PointerMovesLegally | workspaces/client/apps/desktop/desktop_delivery.py:269-296 | under every interleaving and crash the pointer moves only by an exclusive link, a replacement of exactly the named predecessor, or its own completion |
| IntentPointerTheorems.NewerPointerSurvives | workspaces/client/apps/desktop/desktop_delivery.py:312-340 | a published pointer outlives every other delivery's completion and every publication naming another predecessor |
| StateOwner.OwnerIffChain | workspaces/client/apps/desktop/recover_backend.py:377-399 | for any journal graph, an owner is returned exactly when a chain of at most 32 distinct predecessors with identical file identities ends at it |
| StateOwner.OwnerHasChain | workspaces/client/apps/desktop/recover_backend.py:377-399 | any owner returned is the direct owner of the last proof on the exact predecessor chain |
| StateOwner.ChainGivesOwner | workspaces/client/apps/desktop/recover_backend.py:377-399 | every such chain within the bound is accepted |
| InstallSwap.Applications.Install | workspaces/client/apps/desktop/install_update.py:211-284 | each outcome describes the directory exactly, whatever fails, and the install is a run of the crash model that reports this outcome |
| InstallSwapTheorems.AppAlwaysSurvives | workspaces/client/apps/desktop/install_update.py:256-277 | over any installs, failures and crashes the app in service is at the installed path or, while that is empty, at the previous one |
| InstallSwapTheorems.OnlyVerifiedAppsReplace | workspaces/client/apps/desktop/install_update.py:237-269 | the app in service is replaced only by a complete app of the offered, newer build, and is then kept as previous |
| InstallSwapTheorems.InstallsOnlyRise | workspaces/client/apps/desktop/install_update.py:233-235 | the builds of successive installed outcomes strictly increase |
| StdoutWriter.Stdout.BeginFlush | workspaces/providers/apps/claude-bridge/bridge.ts:445-450 | hands over all queued lines, joined in order, unless a drain is awaited |
| StdoutTheorems.OutputIsExact | workspaces/providers/apps/claude-bridge/bridge.ts:432-482 | in every run, what left followed by what is queued is everything sent, and the queued count is exact |
| StdoutTheorems.NothingIsStranded | workspaces/providers/apps/claude-bridge/bridge.ts:432-482 | queued lines and waiting readers always have a pending flush or an awaited drain |
| StdoutTheorems.WaitersLeaveInOrder | workspaces/providers/apps/claude-bridge/bridge.ts:459-463 | waiters are released once each, in arrival order |
| StdoutTheorems.FlushEmptiesTheQueue | workspaces/providers/apps/claude-bridge/bridge.ts:445-463 | when the awaited callback, drain or scheduled flush, runs and the write is accepted, everything sent is out and no waiter remains; when none is awaited that is so already |
| StdoutTheorems.Replay | workspaces/providers/apps/claude-bridge/bridge.ts:432-482 | driven through any run, the object writes and releases exactly what the run records |
| AssistantText.AssistantBlocks.OnDelta | workspaces/providers/apps/claude-bridge/bridge.ts:2662-2712 | a delta opens or extends its stream's block and emits it with its separator, unless the block is complete |
| AssistantText.AssistantBlocks.OnFrame | workspaces/providers/apps/claude-bridge/bridge.ts:2771-2801 | the loop over a frame's entries computes the specified merge and keeps the cache honest |
| AssistantText.AssistantBlocks.Read | workspaces/providers/apps/claude-bridge/bridge.ts:313-322 | the lazily cached text is the join of the current non-empty blocks |
| AssistantTextTheorems.ReplayChangesNothing | workspaces/providers/apps/claude-bridge/bridge.ts:2785-2790 | a frame handled once changes nothing when it arrives again, after any events |
| AssistantTextTheorems.FrameCompletesItsBlock | workspaces/providers/apps/claude-bridge/bridge.ts:2791-2798 | a frame repeating an incomplete block completes the first such block and leaves the text alone |
| AssistantTextTheorems.DeltasSpellTheText | workspaces/providers/apps/claude-bridge/bridge.ts:2655-2718 | for in-order non-empty deltas and no frame-only block, the emitted deltas concatenate to the joined text |
| AssistantTextTheorems.SpellingIsKeptExactly | workspaces/providers/apps/claude-bridge/bridge.ts:2655-2718 | while the emitted deltas spell the text, the next event keeps them equal exactly when a delta opens a block, meets a complete one or commutes with the text after its block, or a frame adds no block |
| AssistantTextTheorems.InterleavedDeltasDiffer | workspaces/providers/apps/claude-bridge/bridge.ts:2680-2685 | a run of three deltas after which emitted and joined text differ |
| CatalogCacheTheorems.AtMostOneLoad | workspaces/providers/apps/claude-bridge/catalog-cache.ts:60-87 | at most one load is in flight in every run |
| CatalogCacheTheorems.ServedValuesAreProven | workspaces/providers/apps/claude-bridge/catalog-cache.ts:90-105 | a value is served only if its load began less than the TTL ago and it was confirmed after the last account rejection |
| CatalogCacheTheorems.OneTimerRefreshPerValue | workspaces/providers/apps/claude-bridge/catalog-cache.ts:35-58 | no confirmed value is refreshed by a timer twice |
| CatalogCacheTheorems.RejectionSilencesTheCache | workspaces/providers/apps/claude-bridge/catalog-cache.ts:60-105 | after a load in flight reports a rejected account nothing is served, over any run, until a later load is confirmed |
| CatalogCacheTheorems.NothingAfterClose | workspaces/providers/apps/claude-bridge/catalog-cache.ts:107-110 | after close no timer is armed, no load is requested and nothing is served |
| CatalogCacheTheorems.Replay | workspaces/providers/apps/claude-bridge/catalog-cache.ts:35-110 | driven through any run of its callbacks, the object holds the state and serves the values of the run |
| FrameHost.Encode | workspaces/client/apps/desktop/frame-owner.ts:1-14 | the nested loops over a wrapping 32-bit word compute unpadded lowercase Base 32 for every byte string |
| FrameHost.ServerFrameHost | workspaces/client/apps/desktop/frame-owner.ts:1-16 | the host is the prefix, the encoding in labels of 50, and the domain; an empty id has none |
| Base32Decoding.DecodeEncode | workspaces/client/apps/desktop/frame-owner.ts:1-14 | decoding undoes the encoding for every byte string |
| FrameHost.HostsAreInjective | workspaces/client/apps/desktop/frame-owner.ts:15-15 | different ids never share a host |
| FrameHost.HostFits | workspaces/client/apps/desktop/frame-owner.ts:15-27 | ids of 1 to 128 bytes give labels of at most 63 octets and names of at most 255 octets |
| FrameHost.HostHasOneOwner | workspaces/client/apps/desktop/frame-owner.ts:17-65 | two accepted frames share a host exactly when they have the same owner |
| ProfileExport.ExportStore | workspaces/client/apps/desktop/export-browser-profile.ts:144-197 | terminates; the chunks concatenate to the store once, in key order, each at most 8 MiB unless it is one record, always within 64 MiB and accepted by the receiver; fails exactly when one record is too large |
| ProfileExport.PageIsNext | workspaces/client/apps/desktop/export-browser-profile.ts:166-176 | the page above the last key read is exactly the next 32 records |
| ProfileExport.ReceiverAcceptsEveryChunk | workspaces/client/apps/desktop/export-profile.ts:218-229 | neither size limit of the receiver refuses any chunk within the limits that an export keeps, whatever id it arrives under |

## Left out

- SteerTheorems.OutcomesAreFinal: false in runs that reuse a live identity (`DeliveredIsOverturned`, `StopCancelsDelivered`, `StopRevivesNotApplied`); `OutcomeIsKeptExactly` is the exact condition over all runs.
- SteerTheorems.RefusedInputsAreNeverRead: only its "ever after" is false in such runs, of inputs taken back (`RefusedSteerIsRead`); that they were unread when taken back, and exactly when they stay so, is `TakenBackIsUnreadExactly` over all runs, with `SweptSteerIsReadExactly` for the sweep.
- SteerTheorems.DeliveredWasHandedOver: false in such runs (`UnreadSteerIsDelivered`); `DeliveredWasHandedOverExactly` is the exact condition over all runs. Of an input that the native history proves delivered nothing is claimed about what was handed over.
- SteerTheorems.EndedTurnLeavesNoSteer: false in such runs (`RefusedSteerIsRead`); `FinalSweepExactly` is the exact condition over all runs. A steer of a turn whose queue was closed may stay submitted without an outcome.
- SteerTheorems.EndedSteersAreNeverReadAgain: false in such runs (`RefusedSteerIsRead`); `EndedSteerIsReadExactly` and `SweptSteerIsReadExactly` are the exact conditions over all runs.
- SteerRuns.NothingSubmittedAfterFinish: an interrupt receipt may set a steer of a finishing turn back to submitted; `NothingQueuedAfterFinish` says that nothing enters the queue.
- Whether an input that Stop cancelled was read: in disciplined runs it was submitted, and nothing more is claimed about it.
- An initial input whose start stays uncertain, approvals, usage accounting, persistence formats and the stall watchdog's timing.
- `submittedSteer` looks at the last eight turns; in the model the oldest turn that an echo searches is arbitrary, so it has more runs than the source.
- The SDK's side of readHistoryIndex (file guards, visible message order); the model starts from the rows.
- Row field validation in `history-records.ts`: a row arrives with its kind, or without one when it does not parse.
- The target descriptor and its persistence after a fork, and forks of sessions without history.
- Fork.ForkAtTurn: models the turns on values; the source rewrites clones of them, which `TurnRecord.Remap` models in place.
- `installed_delivery_tick`, which never signals, and the observations inside the verify functions: they are arbitrary answers here.
- StartupRecoveryTheorems.SignalsAreBounded: the plain bound of one is false when the publisher saves late, so the excess is charged to its saves, and the exact count is stated for runs without further saves.
- The other fields of a delivery journal, the pending file and the pre-lock removal of an unreadable pending file.
- InstallSwap.Applications.Install: partial directories after a failed removal are arbitrary leftovers at the next path; the retired directory is not tracked.
- Timer delays of the catalog cache and of every timeout: timers may fire at any time.
- Byte lengths of JSON text in the exporter are given per record; the encoding of values is not modelled.
- URL parsing for frame owners: the parsed parts are inputs.
- Packaging, signing, speech, the Rust runtime and the user interface.
