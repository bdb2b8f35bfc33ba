# Proofs about the agent's stateful protocols

This project models, in Dafny, the parts of the agent that have to keep a promise across several functions, several
processes' lives or several concurrent callers, and proves the promises. Each component has a specification (functions
and transitions on values), the lemmas about it, and, where the program updates objects in place, a class whose methods
are proved to make exactly the specified transitions.

| component | specification | properties | objects |
|---|---|---|---|
| handoff of a branch between two worktrees | `Git`, `HandoffRepository`, `GitHandoffCoordinator`, `HandoffService` | `HandoffRecovery`, `HandoffReports`, `HandoffGuards`, `HandoffTransfer`, `HandoffFinalize`, `HandoffCleanUps`, `HandoffSurvival`, `HandoffSafety`, `HandoffCrashes`, `HandoffLives`, `HandoffTruth`, `HandoffSuccess`, `HandoffCompletion`, `HandoffMessages`, `HandoffRetries`, `HandoffRecords`, `HandoffAdmission` | `HandoffRepository`, `HandoffCoordinator`, `HandoffServiceObject` |
| MCP connection generations | `McpConnectionManager` | `McpOwnership`, `McpGenerations`, `McpHistory` | `McpManagerObject` |
| agent loop | `AgentEvents`, `ToolBatch`, `AgentLoop` | `AgentEvents`, `ToolMeaning`, `AgentLoop`, `AgentStory`, contracts of the objects | `ToolScheduling`, `AgentLoop`, `Agent` |
| provider credential stores | `CredentialStores`, `CredentialOverlap` | `CredentialSafety`, `CredentialOverlap`, `CredentialLosses`, `CredentialCompletion` | `CredentialStoreManager` |
| layered configuration | `ConfigMerge` | `ConfigMerge`, contract of `ConfigReader.Read` | `ConfigReader` |
| writes to configuration files | `WriteQueue` | `WriteOrder`, `WriteTurns` | `ConfigWriter` |
| data directory migration and relocation | `DataMigration` | `DataMigration`, `DataContents`, contracts of the objects | `DataMigrator`, `DataRelocation` |
| output ring and UTF-8 truncation | `Utf8`, `OutputRing` | `Utf8`, `OutputRing`, `OutputExcess`, `Halving` | `OutputRing`, `Truncation`, `Halving` |

## How failures and concurrency are modelled

A command either happens as a whole or fails without an effect. In the handoff a script of verdicts (`Faults`) decides,
for each command, whether it proceeds, is refused, or meets the death of the process, after which nothing happens until
the next start. The credential stores and the migrations use a function from the number of an effect to whether it
happens; a death is a tail of failures. A lemma quantified over all scripts is therefore quantified over every crash
point, every pattern of failing commands and every combination of the two.

Code between two awaits is one step. `HandoffAdmission`, `HandoffCleanUps`, `McpConnectionManager`, `CredentialOverlap` and
`WriteQueue` are transition systems whose runs are all interleavings of such steps. `CredentialSafety` and
`CredentialCompletion` are about calls that do not overlap; a move that nothing overlaps is the same in both
(`CredentialOverlap.UndisturbedMoveIsUpdate`). The selection of a store is written through the configuration service, so
that its writes take effect in the order requested (`WriteOrder.WritesExcludeEachOther`), and one that took effect may be
reported as failed. In the agent loop the order in which concurrently running tools finish is arbitrary, the answers of
the model and the messages others enqueue are input scripts, hooks are functions, and the abort signal may be raised
before any of the places that look at it.

Git is a branch-to-commit map, two worktrees (each with a branch or a detached commit, and a sequence of opaque
patches) and one stash list; a branch is checked out in at most one worktree, and a stash that does not apply leaves the
tree alone. A repository transaction is atomic. SHA-256 and request fingerprints are injective. A rename is atomic.

## What the proofs found

These are properties one might expect that the code does not have. Each is stated as a lemma, with the condition under
which the code does what is expected.

- Rollback can report success without having restored. When one of the two probes of the destination is refused by Git
  (`isAtOriginalDestination`, lines 251-258), or a stash lookup is, the method carries on as if the answer were "no".
  `HandoffRecovery.BlindProbeMisreports` gives an input. `HandoffReports.ReportIsRightExactlyWhen` says exactly when a
  report of success is right: when none of four named refusals meets one of the four states in which it misleads, all
  of which are settled before the rollback begins. `HandoffGuards.UnmistakableExactlyWhen` gives a check of the
  repository and the journal alone that holds if and only if no refusal can mislead. Even a misled rollback loses no work
  (`HandoffLives.NothingIsEverLost`).
- A provider store switch that is refused because its target is not empty empties the target
  (`CredentialCompletion.RefusalEmptiesTheTarget`): the refusal is raised inside the `try` whose `catch` clears it.
- A switch from auth.json to the encrypted store that dies between selecting the target and clearing the source can
  never be completed: startup does not initialise auth.json for it, clearing refuses, and every later start fails
  (`CredentialCompletion.StuckForEver`, reachable by `StuckIsReachable`). No credential is lost. `StartupSettles` says
  exactly which starts succeed. A switch in that direction that dies after the copy, with no store configured, leaves a
  start that succeeds on a store it cannot use (`CrippledIsReachable`).
- Overlapping calls can lose every credential, in two ways. An update to the store still current, made when a move has
  requested its write of the selection and has not yet gone on, writes the selection back behind the move's. Or the
  move's own write takes effect and is reported as failed. Either way the next start comes up on an empty store, and
  trying the move again then empties the store that has everything, because that attempt is refused as above
  (`CredentialLosses.HastyUpdateLosesEverything`, `CredentialLosses.UntoldSelectionLosesEverything`). A change that was let
  in before a move and is written after the move took its snapshot is lost with the move's success
  (`CredentialLosses.LateChangeIsLost`). `CredentialOverlap.OverlappingCallsLoseNothing` says, for every interleaving, exactly
  when the next start serves everything; `CredentialOverlap.PatientCallsAreSafe` that nothing is lost without these three.
- Two acknowledgements that overlap can drop a stash of the user: both look up the same position, and the second drop
  takes the entry behind it (`HandoffCleanUps.OverlappingCleanUpsLoseAStash`). A drop takes the entry it is meant for
  exactly when nothing at or before its position has gone since the lookup (`HandoffCleanUps.TakesItsOwnExactlyWhen`).
- A connection to a required MCP server that closes after its attempt succeeded and before its generation is installed
  goes unnoticed: it counts as connected, and a turn that requires it gets its lease (`McpHistory.EarlyCloseLeases`).
  `McpHistory.ConnectedExactlyWhen` says, over every run, exactly when a connection counts as connected, and
  `McpHistory.EarlyLossIsMissed` that a loss goes unnoticed whenever the current generation does not have the connection.
- Two writers that present the same expected version can both succeed when a third write restores that text in between
  (`WriteOrder.RestoringLetsTwoThrough`). `WriteTurns.SecondPassesExactlyWhen` and `WriteTurns.BothStoredExactlyWhen` say
  exactly when: the last write stored in that file between the two leaves that very text.
- With dots in keys two different paths share an entry of `origins` (`ConfigMerge.DottedKeysShareAName`);
  `ConfigMerge.OriginsNameTheLayer` says exactly when an entry is right.
- The diagnostic context's truncation keeps far too little of text whose characters take three bytes: its first step
  removes half of the excess in bytes as that many code units. A text of such characters at least as long as the bound
  is cut to nothing (`Halving.WideTextIsCutShort`). Text of one- and two-byte characters is cut at most one byte early
  (`Halving.NarrowTextIsCutClosely`). For any text, mixed or with surrogates, at most half the excess of the first
  attempt, and a byte and a half, goes unused (`Halving.LossIsHalfTheExcess`).
- The output ring may exceed its limit by three bytes, and does for a concrete output (`OutputExcess.OverByThree`). It
  exceeds it exactly when a character is cut through so that two or three of its bytes remain
  (`OutputExcess.ExceedsExactlyWhen`).
- The truncation of MCP instructions drops a byte order mark at the beginning of a text it cuts, because the strict
  decoder does (`Truncation.TruncateInstructions`).

## Model

| member | source | states |
|---|---|---|
| HandoffRepository.EveryStepIsTaken | apps/agent/src/handoff/HandoffRepository.ts:231-249 | over every sequence of calls, refused ones included, an operation stands at each step in turn up to the hand-over to the client: none is ever skipped |
| HandoffRepository.RunKeepsSound | apps/agent/src/handoff/HandoffRepository.ts:114-164 | over every sequence of repository calls a source thread has at most one active operation, completed is absorbing, failed never becomes active or completed, no row's step or revision goes back, and a step never rises further than the revision |
| HandoffRepository.CallKeepsSound | apps/agent/src/handoff/HandoffRepository.ts:231-315 | the same for each single call, including calls that throw |
| HandoffRepository.CompletionSwapsVisibility | apps/agent/src/handoff/HandoffRepository.ts:265-295 | completion succeeds exactly for the revision the client saw and a hidden target; target listed and source archived happen together and no other thread changes |
| HandoffRepository.OnlyCompletionTouchesThreads | apps/agent/src/handoff/HandoffRepository.ts:265-295 | no other call changes the visibility of any thread |
| HandoffRecords.CreateExactlyWhen | apps/agent/src/handoff/HandoffRepository.ts:114-151 | creating is accepted exactly for the request its id already stands for, and then changes nothing, or under a new id for a known thread none of whose operations is under way, and then adds one fresh row; each refusal has its code and leaves everything as it was |
| HandoffRecords.RevisionTells | apps/agent/src/handoff/HandoffRepository.ts:231-315 | over every sequence of calls, whoever has seen an operation at a revision has missed nothing that is told about it while the revision is that one |
| HandoffRecords.ErrorIsTheLast | apps/agent/src/handoff/HandoffRepository.ts:297-305 | the error of an operation is that of the last failure reported to it before it was completed |
| HandoffRecords.WarningsAreKept | apps/agent/src/handoff/HandoffRepository.ts:307-315 | over every sequence of calls each warning stays where it was, each that was taken is there, none appears otherwise and none twice |
| HandoffRecords.FirstBindingStays | apps/agent/src/handoff/HandoffRepository.ts:153-164 | the first binding recorded for the target stays; recording is accepted for that one and no other |
| HandoffRecords.CallRecords | apps/agent/src/handoff/HandoffRepository.ts:217-263 | what a patch of the journal does not mention stays, what it mentions replaces what was there, only a running operation takes one, and only clearing takes anything out |
| HandoffRecords.LastMoment | apps/agent/src/handoff/HandoffRepository.ts:114-319 | the store after a sequence of calls is the one after its last moment, to which the statements about moments therefore apply |
| HandoffRepository.HandoffRepository.Create | apps/agent/src/handoff/HandoffRepository.ts:114-151 | the new rows are those of the specified call, and so is the result or the code of the refusal |
| HandoffRepository.HandoffRepository.Advance | apps/agent/src/handoff/HandoffRepository.ts:231-249 | the in-place update is the specified one and keeps the store sound |
| HandoffRepository.HandoffRepository.CompleteAfterClientTransfer | apps/agent/src/handoff/HandoffRepository.ts:265-295 | the transaction is the specified one; when the target cannot be listed, nothing of it remains |
| HandoffRepository.HandoffRepository.Fail | apps/agent/src/handoff/HandoffRepository.ts:297-305 | marks an operation failed or rollback-failed unless it is completed |
| HandoffRecovery.InspectFits | apps/agent/src/handoff/GitHandoffCoordinator.ts:73-106 | a successful inspection plans for exactly the state of both worktrees, and changes nothing |
| HandoffTransfer.TransferIsRecoverable | apps/agent/src/handoff/GitHandoffCoordinator.ts:121-160 | wherever a transfer stops, in either direction and with or without stashes, both worktrees can be rolled back from the durable journal and no reported step is refused; one that runs through has moved the branch and the source's work, with the destination's own work restored on top or still stashed |
| HandoffTransfer.OnStepRecords | apps/agent/src/handoff/HandoffService.ts:151-153 | recording a step makes the transfer's journal durable, or leaves the durable one a journal that still leads back |
| HandoffTransfer.CaptureSourceSafe | apps/agent/src/handoff/GitHandoffCoordinator.ts:231-240 | a capture that dies at any command leaves the work in place or in a stash its marker finds |
| HandoffTransfer.ReleaseSafe | apps/agent/src/handoff/GitHandoffCoordinator.ts:137-144 | releasing the source's branch keeps everything recoverable |
| HandoffTransfer.ApplyDestinationSafe | apps/agent/src/handoff/GitHandoffCoordinator.ts:152-157 | the destination's work is put back and recorded as such, or stays stashed |
| HandoffRecovery.RollbackRestores | apps/agent/src/handoff/GitHandoffCoordinator.ts:174-214 | from every recoverable state and with any verdicts: no stash is dropped; if its probes were not refused the state stays recoverable wherever the rollback dies; and if it also reports success, both worktrees have their original branch or commit and their original work |
| HandoffReports.ReportIsRightExactlyWhen | apps/agent/src/handoff/GitHandoffCoordinator.ts:174-214 | from every recoverable state and with any verdicts, a rollback that reports success has restored both worktrees if and only if no refused lookup or probe met one of four states: the source's work only in an unrecorded stash, the destination's only in one, the destination's own work in place with nothing to bring it back, or what the transfer left there taken for the original |
| HandoffReports.SuccessTells | apps/agent/src/handoff/GitHandoffCoordinator.ts:187-213 | a rollback that reports success has left exactly one repository, given by the state and the refused queries |
| HandoffGuards.UnmistakableExactlyWhen | apps/agent/src/handoff/GitHandoffCoordinator.ts:242-258 | a check of the repository and the journal alone holds if and only if in no environment whatever a report of success is wrong |
| HandoffGuards.ScriptSucceeds | apps/agent/src/handoff/GitHandoffCoordinator.ts:174-214 | any of the four queries that are made can be refused alone or together, and the rollback still reports success when everything else proceeds |
| HandoffSurvival.RollbackHolds | apps/agent/src/handoff/GitHandoffCoordinator.ts:174-214 | no rollback, from any state, with any plan and journal, and whatever is refused or dies in it, loses work of either worktree or drops a stash |
| HandoffRecovery.BenignRollback | apps/agent/src/handoff/GitHandoffCoordinator.ts:174-214 | with no command refused, a rollback dies part-way in a state to resume from, or succeeds and restores; with no crash ahead it succeeds |
| HandoffRecovery.RollbackAgainChangesNothing | apps/agent/src/handoff/GitHandoffCoordinator.ts:187-213 | a rollback of a state already rolled back changes no worktree and no stash: nothing is applied twice |
| HandoffRecovery.BlindProbeMisreports | apps/agent/src/handoff/GitHandoffCoordinator.ts:251-258 | with a refused probe, a rollback can report success and not have restored: a concrete input |
| HandoffRecovery.ResolveBothFinds | apps/agent/src/handoff/GitHandoffCoordinator.ts:242-249 | the stash references used are those of this handoff, from the journal or found by marker |
| HandoffFinalize.DropByIndex | apps/agent/src/handoff/GitHandoffCoordinator.ts:162-172 | dropping the position at which an id is listed removes exactly that entry |
| HandoffFinalize.FinalizeDropsExactly | apps/agent/src/handoff/GitHandoffCoordinator.ts:162-172 | finalize removes only the source stash and, if it was reapplied, the destination stash, whatever fails; when nothing fails it removes exactly those although positions shift between the drops |
| HandoffFinalize.FinalizeLosesNothing | apps/agent/src/handoff/GitHandoffCoordinator.ts:162-172 | after a delivered transfer, finalizing with any verdicts loses no work of either worktree and no older stash |
| HandoffCleanUps.OverlappingCleanUpsKeep | apps/agent/src/handoff/HandoffService.ts:184-199 | any number of overlapping clean-ups, in any order and with any commands refused, drop nothing but what they were to drop, as long as no position moves between its lookup and its drop |
| HandoffCleanUps.TakesItsOwnExactlyWhen | apps/agent/src/handoff/GitHandoffCoordinator.ts:162-172 | over every interleaving a drop takes the entry it is meant for if and only if nothing at or before its position went since it was looked up |
| HandoffCleanUps.TurnsAreInStep | apps/agent/src/handoff/GitHandoffCoordinator.ts:162-172 | clean-ups that take turns, each lookup directly followed by its drop, never drop a position that has moved |
| HandoffCleanUps.AloneIsDropOid | apps/agent/src/handoff/GitHandoffCoordinator.ts:164-170 | one clean-up alone does to the stash list what finalizing does |
| HandoffCleanUps.OverlappingCleanUpsLoseAStash | apps/agent/src/handoff/HandoffService.ts:184-199 | two overlapping acknowledgements drop a stash of the user: a concrete run, for any two stashes |
| HandoffSafety.CheckpointPrepares | apps/agent/src/handoff/HandoffService.ts:147-153 | the recovery journal is durable before the first Git mutation |
| HandoffSafety.HandOverIsAccepted | apps/agent/src/handoff/HandoffService.ts:154-168 | after a delivered transfer every remaining step is accepted, and success ends at await-client-transfer |
| HandoffSafety.BodyIsSafe | apps/agent/src/handoff/HandoffService.ts:137-168 | with any verdicts, no step of a start is refused; it runs through with everything delivered, or leaves a running operation that can be undone |
| HandoffSafety.StartIsSafe | apps/agent/src/handoff/HandoffService.ts:133-177 | with any verdicts: a start that returns has delivered and awaits the client; unless a probe was refused, an operation recorded as failed has both worktrees as they were and one left running can still be undone; and in every case, failed rollbacks and refused probes included, all work of both worktrees is in place or in a listed stash and no stash is gone |
| HandoffSafety.FinalizeOnlyWhenCompleted | apps/agent/src/handoff/HandoffService.ts:184-199 | acknowledging changes the repository only for a completed operation, and completes only one that awaited the client at that revision |
| HandoffSafety.HandoffLosesNothing | apps/agent/src/handoff/HandoffService.ts:184-199 | over a whole handoff, from start to acknowledgement and whatever fails: one that returned has handed over every change set and kept every stash of the user; one that threw still holds everything, whether or not it is acknowledged |
| HandoffLives.NothingIsEverLost | apps/agent/src/handoff/HandoffService.ts:133-218 | a handoff is started and then recovered and acknowledged any number of times in any order over any lives of the process, with any commands refused and deaths anywhere: the work of both worktrees survives, every older stash stays listed, and until the operation is completed so does every stash made for it |
| HandoffTruth.RecoveryIsRightExactlyWhen | apps/agent/src/handoff/HandoffService.ts:206-218 | with any verdicts, a recovery of an operation that can be undone, if it records it as failed, has restored both worktrees if and only if its rollback was not misled |
| HandoffTruth.StartFailureIsRightExactlyWhen | apps/agent/src/handoff/HandoffService.ts:169-176 | the same for the error path of a start; one that failed before it had a plan has not touched them |
| HandoffTruth.AnsweredLivesAreTruthful | apps/agent/src/handoff/HandoffService.ts:133-218 | over any lives, with any other commands refused: as long as the probes and lookups of each rollback are answered, an operation recorded as failed has both worktrees as they were, and one left running can still be undone |
| HandoffCrashes.EveryCrashScheduleRestores | apps/agent/src/handoff/HandoffService.ts:206-218 | the process may die anywhere in the handoff and again in any number of recoveries; once one life ends without dying, the operation is over, and unless it is with the client both worktrees are exactly as before |
| HandoffCrashes.UndisturbedRecoveryRestores | apps/agent/src/handoff/HandoffService.ts:206-218 | one undisturbed recovery is enough |
| HandoffCrashes.JournalPlanSuffices | apps/agent/src/handoff/GitHandoffCoordinator.ts:216-229 | the plan rebuilt from the journal rolls back exactly as the original plan |
| HandoffSuccess.TransferRunsThroughExactlyWhen | apps/agent/src/handoff/GitHandoffCoordinator.ts:121-160 | undisturbed, a transfer runs through if and only if the source's worktree can be parked on its fallback branch; the destination then has the branch and the work of both |
| HandoffSuccess.HandoffSucceedsExactlyWhen | apps/agent/src/handoff/HandoffService.ts:133-168 | undisturbed, a start succeeds if and only if its repository could be seen to allow it beforehand |
| HandoffSuccess.BodySucceedsExactlyWhen | apps/agent/src/handoff/GitHandoffCoordinator.ts:73-106 | undisturbed, a start that the repository does not allow ends with the first obstacle to planning it, or because its source cannot be parked |
| HandoffCompletion.ReturnedStartRecordsThread | apps/agent/src/handoff/HandoffService.ts:154-168 | with any verdicts, a start that returns has recorded the thread it forked |
| HandoffCompletion.UndisturbedAcknowledgementCompletes | apps/agent/src/handoff/HandoffService.ts:184-199 | however a start went that returned, one acknowledgement that nothing disturbs, at the revision of the row, completes the operation, forgets its journal, leaves both worktrees alone and drops exactly the stash of the source and, if that work was put back, of the destination |
| HandoffRetries.RepeatedAcknowledgementFinishes | apps/agent/src/handoff/HandoffService.ts:184-199 | a completed handoff acknowledged any number of times with any verdicts and then once undisturbed has its journal forgotten and has lost only disposable stashes; one of those is left only if a warning says so |
| HandoffRetries.TidiedExactlyWhen | apps/agent/src/handoff/HandoffService.ts:190-194 | a clean-up gets through exactly when finding the worktrees, recording each warning of the finalizing, releasing the workspace and forgetting the journal all succeed |
| HandoffRetries.CleanUpForgetsExactlyWhen | apps/agent/src/handoff/HandoffService.ts:190-198 | the journal is forgotten exactly then; otherwise it stays, with a warning that something is left to do |
| HandoffRetries.FinalizeWarns | apps/agent/src/handoff/GitHandoffCoordinator.ts:162-172 | with any verdicts, if a stash that finalizing should drop is left, it warns |
| HandoffMessages.ReturnedStartWarns | apps/agent/src/handoff/HandoffService.ts:154-155 | a start that returns warns exactly if work of the destination is left in its stash, and work the destination had is in such a stash |
| HandoffMessages.RefusedReapplicationIsAWarning | apps/agent/src/handoff/GitHandoffCoordinator.ts:152-157 | work of the destination that cannot be put back stays in its stash and is a warning, not an error |
| HandoffMessages.UnwindRecords | apps/agent/src/handoff/HandoffService.ts:169-176 | the error path attempts to remove the fork, to roll back with the transfer's journal or else the durable one, and to release what was prepared, whatever fails; the failure, if it can be recorded, counts as undone only if all three were done, and then carries the code of the error |
| HandoffMessages.FailureIsNamed | apps/agent/src/handoff/HandoffService.ts:50-52 | with any verdicts, a start recorded as failed has a code that belongs to the step it had got to, and one not rolled back says so |
| HandoffMessages.UndisturbedFailureNamesObstacle | apps/agent/src/handoff/HandoffService.ts:169-176 | an undisturbed start that the repository does not allow fails with its obstacle and leaves both worktrees as they were |
| HandoffMessages.RecoverRecords | apps/agent/src/handoff/HandoffService.ts:206-218 | with any verdicts, a recovery is recorded as failed exactly if the worktrees were found, the rollback its journal asks for succeeded, the fork was removed and the preparation released, and otherwise as not rolled back |
| HandoffMessages.AdmittedExactlyWhen | apps/agent/src/handoff/HandoffService.ts:138-146 | a start comes to the inspection of Git exactly when each of its calls to others and each step it records succeeds |
| HandoffMessages.HandedOverExactlyWhen | apps/agent/src/handoff/HandoffService.ts:154-168 | after the transfer it returns exactly when each warning and step is recorded and forking and binding succeed |
| HandoffAdmission.TransferAtMostOnce | apps/agent/src/handoff/HandoffService.ts:76-118 | over every interleaving of start calls, repository writes and restarts from any store of earlier operations, the Git transfer of one operation id is entered at most once, never for an id that had a row before, and no thread has two active operations |
| HandoffAdmission.PersistedIsOnlyReplayed | apps/agent/src/handoff/HandoffService.ts:100-116 | in every reachable state, once an operation has a row and no task in flight, no later start call reaches the transfer |
| HandoffAdmission.NextKeepsInv | apps/agent/src/handoff/HandoffService.ts:76-93 | the map of tasks in flight names every live task, at each step of each interleaving |
| HandoffCoordinator.GitHandoffCoordinator.Capture | apps/agent/src/handoff/GitHandoffCoordinator.ts:231-240 | the method's commands make the specified transition |
| HandoffCoordinator.GitHandoffCoordinator.Transfer | apps/agent/src/handoff/GitHandoffCoordinator.ts:121-160 | the method, its early exits included, makes the specified transition |
| HandoffCoordinator.GitHandoffCoordinator.Rollback | apps/agent/src/handoff/GitHandoffCoordinator.ts:174-214 | the method's result and effect are the specified ones; a success it returns is right if and only if it was not misled |
| HandoffCoordinator.GitHandoffCoordinator.IsAtOriginalDestination | apps/agent/src/handoff/GitHandoffCoordinator.ts:251-258 | the probes and their answer, a refused probe counting as no |
| HandoffCoordinator.GitHandoffCoordinator.Finalize | apps/agent/src/handoff/GitHandoffCoordinator.ts:162-172 | both drops are attempted and each failure is a warning |
| HandoffServiceObject.HandoffService.StartOwned | apps/agent/src/handoff/HandoffService.ts:133-177 | the method, its catch block included, makes the specified transition; on a fresh operation it returns if and only if the client is awaited, one that returns has recorded the thread it forked, and whatever it does all work is held |
| HandoffServiceObject.HandoffService.Recover | apps/agent/src/handoff/HandoffService.ts:206-218 | startup recovery makes the specified transition and loses nothing that was held |
| HandoffServiceObject.HandoffService.AcknowledgeClientTransfer | apps/agent/src/handoff/HandoffService.ts:184-199 | completion and clean-up make the specified transition, and the repository changes only once the operation is completed |
| McpConnectionManager.DesiredNamesDistinct | apps/agent/src/mcp/McpConfigService.ts:340-355 | a reconcile asks exactly for the enabled local servers and the enabled user servers whose name no local one has, and their names differ |
| McpOwnership.EveryInterleavingIsSafe | apps/agent/src/mcp/McpConnectionManager.ts:186-214 | in every reachable state a handle's owners are the undisposed generations that hold it plus one for a reconcile that has taken it; no connection of the current or a leased generation was closed by the manager; and close was called once on each connected handle without an owner and on no other |
| McpOwnership.NextKeepsInv | apps/agent/src/mcp/McpConnectionManager.ts:260-360 | every step between awaits keeps the ownership counts, reconciles in flight included |
| McpOwnership.CountsNeverClamp | apps/agent/src/mcp/McpConnectionManager.ts:408-420 | the clamps at zero never fire |
| McpOwnership.GoneForever | apps/agent/src/mcp/McpConnectionManager.ts:276-299 | a handle whose count reached zero is never reused |
| McpOwnership.LeaseKeepsGeneration | apps/agent/src/mcp/McpConnectionManager.ts:199-213 | while a lease is held no step removes a handle from its generation or closes one, even if a reconcile retires the generation |
| McpGenerations.InstalledServesDesired | apps/agent/src/mcp/McpConnectionManager.ts:260-350 | in every run, the generation a reconcile installs has exactly the servers it was asked for, each by the declaration asked for, and requires exactly the required ones |
| McpGenerations.ReuseIsClean | apps/agent/src/mcp/McpConnectionManager.ts:276-299 | a handle of the current generation is used again if and only if it is clean, declared alike and, in a forced reconcile, connected; a new one is opened otherwise |
| McpGenerations.RequiredAreRequired | apps/agent/src/mcp/McpConnectionManager.ts:336 | the names a generation requires are those of its required servers |
| McpHistory.LeaseGrantedExactlyWhenUp | apps/agent/src/mcp/McpConnectionManager.ts:186-199 | over every run, told by its events alone: a turn gets a lease, on the current generation, if and only if each server there whose declaration says it is required was connected and has not been lost since; otherwise nothing changes |
| McpHistory.ConnectedExactlyWhen | apps/agent/src/mcp/McpConnectionManager.ts:300-325 | over every run a handle counts as connected if and only if its attempt succeeded and, while the current generation had it, it neither closed nor lost its authentication |
| McpHistory.ReusedExactlyWhenFit | apps/agent/src/mcp/McpConnectionManager.ts:276-299 | over every run a reconcile serves a server on by the handle it has if and only if the history of that handle makes it fit |
| McpHistory.LossIsRecorded | apps/agent/src/mcp/McpConnectionManager.ts:371-406 | a refused attempt, a closed connection and lost authentication leave their own state, and a loss lets the next request reconcile again |
| McpHistory.EarlyLossIsMissed | apps/agent/src/mcp/McpConnectionManager.ts:376-396 | a loss of a connection that the current generation does not have changes nothing |
| McpHistory.EarlyCloseLeases | apps/agent/src/mcp/McpConnectionManager.ts:371-377 | a connection closed before its generation is installed still gets a turn its lease: a concrete run |
| McpManagerObject.ConnectionManager.TakeHandles | apps/agent/src/mcp/McpConnectionManager.ts:276-299 | the loop over the desired servers shares or opens the specified handles |
| McpManagerObject.ConnectionManager.DisposeRetired | apps/agent/src/mcp/McpConnectionManager.ts:408-420 | the loop over a retired generation's handles makes the specified transition |
| McpManagerObject.ConnectionManager.CommitReconcile | apps/agent/src/mcp/McpConnectionManager.ts:327-350 | installs the new generation and retires the previous one as specified, and keeps the ownership invariant |
| McpManagerObject.ConnectionManager.Release | apps/agent/src/mcp/McpConnectionManager.ts:207-212 | makes the specified transition, so that a second release does nothing, and keeps the ownership invariant |
| AgentEvents.TranscriptIsConserved | packages/pi-agent-core/src/agent.ts:529-542 | after any stream of events the transcript is the one before it followed by exactly the messages the stream completed |
| AgentEvents.PendingEmptyAtTurnEnd | packages/pi-agent-core/src/agent.ts:544-556 | if every tool start has its end in the same turn, the pending set is empty at each turn_end |
| AgentEvents.WellFormedShape | packages/pi-agent-core/src/agent-loop.ts:109-116 | a well-formed stream has one agent_start, first, one agent_end, last, and as many turn ends as turn starts, at least one |
| AgentEvents.PrefixUnbroken | packages/pi-agent-core/src/agent-loop.ts:169-274 | every prefix of a well-formed stream obeys the grammar |
| AgentStory.PendingIsTheLast | packages/pi-agent-core/src/agent.ts:544-556 | after any stream a call is pending exactly if the last event that names it is its start |
| AgentStory.PendingStays | packages/pi-agent-core/src/agent.ts:544-556 | and no event that does not name it changes that |
| AgentStory.StreamingIsTheLast | packages/pi-agent-core/src/agent.ts:529-567 | the message being streamed is the one last started or updated, and none once a message or the run has ended |
| AgentStory.StreamingStays | packages/pi-agent-core/src/agent.ts:529-567 | and no other event changes that |
| AgentStory.ErrorIsTheLast | packages/pi-agent-core/src/agent.ts:558-562 | the error shown is that of the last turn whose answer had one |
| AgentStory.ErrorStays | packages/pi-agent-core/src/agent.ts:558-562 | and no other event changes that |
| ToolMeaning.BatchCoversEveryCall | packages/pi-agent-core/src/agent-loop.ts:656-720 | undisturbed, a batch has one result per call, in source order; one for an unknown tool, rejected arguments, a blocking or a throwing hook is an error with that very message, and its batch does not ask the agent to stop |
| ToolMeaning.RunsOrIsRefused | packages/pi-agent-core/src/agent-loop.ts:656-720 | a call runs if and only if its tool exists, accepts the arguments and no hook blocks it or throws |
| ToolMeaning.CompleteComes | packages/pi-agent-core/src/agent-loop.ts:722-812 | what a call comes to, told by the tool and the hooks: its refusal, or the tool's output or error as the later hook revises it, field by field |
| ToolMeaning.RanExecutes | packages/pi-agent-core/src/agent-loop.ts:548-605 | the calls executed are among those that run, in order, and all of them without an abort |
| ToolScheduling.ToolRunner.PrepareToolCall | packages/pi-agent-core/src/agent-loop.ts:656-720 | the preparation of a call, or its refusal once the abort signal has been seen |
| ToolScheduling.ToolRunner.FailTruncated | packages/pi-agent-core/src/agent-loop.ts:381-406 | every call of a message cut off by the token limit gets an error and none is executed |
| ToolScheduling.ToolRunner.ExecuteStaticSequential | packages/pi-agent-core/src/agent-loop.ts:453-492 | without abort the batch of all calls in order; with abort a prefix of it |
| ToolScheduling.ToolRunner.ExecuteSequential | packages/pi-agent-core/src/agent-loop.ts:500-546 | the same for calls prepared beforehand |
| ToolScheduling.ToolRunner.AwaitAll | packages/pi-agent-core/src/agent-loop.ts:573-593 | whatever the order of completion, each call ends with its own outcome and its own end event |
| ToolScheduling.ToolRunner.ExecuteParallel | packages/pi-agent-core/src/agent-loop.ts:548-605 | for every completion order the same messages and the same terminate flag as in sequence, in source order |
| ToolScheduling.ToolRunner.ExecuteToolCalls | packages/pi-agent-core/src/agent-loop.ts:411-451 | for every strategy, told by tools, hooks and calls alone: each call is refused with its message or executed once, the results follow in source order, and without abort every start is matched by an end; with abort the results are a prefix and nothing is executed that was refused; calls take turns if the agent or a tool asks for it, and otherwise all run together |
| AgentLoop.PendingMessageQueue.Drain | packages/pi-agent-core/src/agent.ts:139-152 | hands out the oldest message or all of them, and keeps the rest |
| AgentLoop.Loop.GetSteeringMessages | packages/pi-agent-core/src/agent.ts:460-466 | a look that is not to be skipped hands out the oldest message or all of them, by mode, of what is queued after the arrivals, and keeps the rest; one that is to be skipped hands out nothing and is skipped once |
| AgentLoop.Loop.Inject | packages/pi-agent-core/src/agent-loop.ts:181-190 | the pending messages are emitted and counted as injected for the queue they come from, in order |
| AgentLoop.LedgerAdds | packages/pi-agent-core/src/agent-loop.ts:155-275 | over any turns, what the run has requested, injected from each queue and executed is exactly the concatenation of what its turns did |
| AgentLoop.Loop.Request | packages/pi-agent-core/src/agent-loop.ts:192-193 | a model request is made only with nothing drained and not yet injected |
| AgentLoop.Loop.StreamAssistantResponse | packages/pi-agent-core/src/agent-loop.ts:281-372 | whatever was streamed, one message is started and ended, and the context ends with the final message only |
| AgentLoop.Loop.RunTurn | packages/pi-agent-core/src/agent-loop.ts:169-225 | a turn adds the pending messages, the answer and its tool results, in this order, to the list, the context and the stream alike; its record says which queue the pending messages came from and which calls were executed; results and executed calls are those that the answer, the tools and the hooks give: none for a failed answer, refusals for one cut off |
| AgentLoop.StandsOn | packages/pi-agent-core/src/agent-loop.ts:164-260 | a turn that follows correctly continues the story of the run: answers in turn, each context the one the turn and its hook left, nothing skipped |
| AgentLoop.CalmTurnResponds | packages/pi-agent-core/src/agent-loop.ts:192-225 | undisturbed, every turn of a story has the results and the executed calls that its answer, the tools and the hooks give |
| AgentStory.TurnsFollow | packages/pi-agent-core/src/agent-loop.ts:164-260 | turn by turn a story uses the answer whose turn it is; a turn begins with the context that the one before left or the hook put in its place, and only if that one neither failed, nor was aborted, nor was stopped by the hook, and its tools ask for more or messages came in |
| AgentStory.GoesOnExactlyWhen | packages/pi-agent-core/src/agent-loop.ts:196-256 | a run goes on after a turn exactly if its answer neither failed nor was aborted and the hook, asked with the context of the next turn, does not stop it |
| AgentStory.ArrivalsAreKept | packages/pi-agent-core/src/agent.ts:460-468 | messages enqueued during a run count in the order of their arrival, every one |
| AgentLoop.ContextIsTranscript | packages/pi-agent-core/src/agent-loop.ts:232-244 | unless a hook replaces it, the context is the initial one and everything produced |
| AgentLoop.RequestIsTranscript | packages/pi-agent-core/src/agent-loop.ts:188-193 | so every model request contains the initial context and all that was produced before it |
| AgentLoop.Loop.RunLoop | packages/pi-agent-core/src/agent-loop.ts:155-275 | on every exit path the run is a story of such turns, over exactly when a turn failed, a hook stopped it, or nothing more was asked and no follow-up was queued; the returned list is what the turns produced and the sequence of completed messages of a well-formed stream; everything drained from a queue is among the pending messages of those turns, in order, and everything executed is what they ran; every turn that no follow-up starts injects what a look at the steering queue took, the first one included unless that look was to be skipped; and a run that ends because nothing more is asked leaves in that queue only what arrived after the last look |
| AgentLoop.Loop.RunAgentLoop | packages/pi-agent-core/src/agent-loop.ts:95-118 | the same for a run with prompts, which come first and, when they were taken from a queue, count as injected from it |
| AgentLoop.Loop.RunAgentLoopContinue | packages/pi-agent-core/src/agent-loop.ts:120-143 | the same for a run without |
| Agent.Agent.Prompt | packages/pi-agent-core/src/agent.ts:339-348 | refused while a run is active; otherwise the transcript grows by exactly the prompts and what the turns injected, answered and ran; the stream is well-formed with no tool call pending at a turn's end unless aborted; and for each queue, what it held and what was enqueued during the run is what those turns injected followed by what it still holds; its first turn injects the oldest message or all, by mode, of what the steering queue held and what arrived before that turn's look, each later turn that no follow-up starts what a look takes, and if nothing more is asked for only what arrived after the last look stays queued |
| Agent.Agent.Continue | packages/pi-agent-core/src/agent.ts:350-377 | after an answer it goes on with queued steering, else follow-up messages, which become the prompts; it fails exactly when a run is active, there is no transcript, or nothing is queued; and for each queue, what it held and what was enqueued is the prompts taken from it, what the turns injected and what it still holds; prompts taken from a queue are its oldest message or all of it, by mode; after steering prompts the first look is skipped, and otherwise the steering queue is looked at as for a prompt |
| CredentialSafety.NoCredentialIsLost | apps/agent/src/auth/ProviderCredentialStoreManager.ts:89-179 | over every run of starts, switches and changes that do not overlap, with failures and crashes anywhere, the store that recovery will choose holds exactly the credentials that accepted changes left |
| CredentialOverlap.OverlappingCallsLoseNothing | apps/agent/src/auth/ProviderCredentialStoreManager.ts:89-179 | over every interleaving of the steps of switches with changes, further updates, writes of the selection, failures, deaths and restarts, as long as no start goes by a selection or a copy that has been overtaken, no overtaken copy is turned to and no change is written to a store no longer current: the store in use has every accepted change; the disk leads back to all of it unless the selection was last written for another store or a copy is overtaken; and with no switch undecided the next start serves everything if and only if that is not so, a switch is left to complete, or there is nothing to lose |
| CredentialOverlap.RunKeepsInv | apps/agent/src/auth/ProviderCredentialStoreManager.ts:89-179 | every step of every such interleaving keeps what each stage of a switch relies on |
| CredentialOverlap.PatientCallsAreSafe | apps/agent/src/auth/ProviderCredentialStoreManager.ts:106-117 | nothing is lost if during a switch nobody updates to the store still current once its write of the selection is requested, that write is not reported failed after taking effect, and no change begun before it is written after its snapshot |
| CredentialOverlap.AdvanceLosesExactlyWhen | apps/agent/src/auth/ProviderCredentialStoreManager.ts:151-158 | a step of a switch takes an accepted change from the store in use if and only if it turns to a copy that has been overtaken |
| CredentialOverlap.FinishLosesExactlyWhen | apps/agent/src/auth/ProviderCredentialStoreManager.ts:266-274 | a change is missing from the store in use after it was accepted if and only if it was for a store no longer current and makes a difference |
| CredentialOverlap.StartServes | apps/agent/src/auth/ProviderCredentialStoreManager.ts:286-306 | a start that comes up serves exactly the store that the journal, or else the selection, leads to |
| CredentialOverlap.UndisturbedMoveIsUpdate | apps/agent/src/auth/ProviderCredentialStoreManager.ts:113-178 | taken step by step with nothing in between, and whatever fails, a switch makes the transition specified for the whole call |
| CredentialOverlap.UndisturbedChangeIsMutate | apps/agent/src/auth/ProviderCredentialStoreManager.ts:266-274 | a change that ends directly after it began makes the transition specified for the whole call |
| CredentialLosses.HastyUpdateLosesEverything | apps/agent/src/auth/ProviderCredentialStoreManager.ts:106-112 | with nothing refused, one update to the store still current lets the next start serve an empty store, and the switch tried again then leaves both stores empty: a concrete run |
| CredentialLosses.UntoldSelectionLosesEverything | apps/agent/src/auth/ProviderCredentialStoreManager.ts:162-170 | so does a write of the selection that takes effect and is reported as failed: a concrete run |
| CredentialLosses.LateChangeIsLost | apps/agent/src/auth/ProviderCredentialStoreManager.ts:132-142 | an accepted change written after the snapshot is in neither store once the switch has succeeded: a concrete run |
| CredentialSafety.SwitchIsSafe | apps/agent/src/auth/ProviderCredentialStoreManager.ts:119-178 | a switch, wherever it stops, leaves the snapshot in the store recovery chooses |
| CredentialSafety.InitializeIsSafe | apps/agent/src/auth/ProviderCredentialStoreManager.ts:60-78 | so does a start, wherever it stops |
| CredentialSafety.RecoverIsSafe | apps/agent/src/auth/ProviderCredentialStoreManager.ts:286-306 | recovery keeps the snapshot, and if it succeeds no journal is left |
| CredentialCompletion.StartupSettles | apps/agent/src/auth/ProviderCredentialStoreManager.ts:60-78 | undisturbed, a start succeeds if and only if no decided move out of auth.json is to be completed; it ends with everything in one store, the other empty and no journal, and that store is usable if and only if it was not left uninitialised by a move taken back |
| CredentialCompletion.StartedExactlyWhen | apps/agent/src/auth/ProviderCredentialStoreManager.ts:60-78 | whatever fails, a start is up if and only if each effect it takes happens, as many as the selection and the journal ask for, and no decided move out of auth.json is to be completed |
| CredentialCompletion.RefusedInitialisationChangesNothing | apps/agent/src/auth/ProviderCredentialStoreManager.ts:122 | a switch into auth.json that cannot initialise it fails and changes nothing |
| CredentialCompletion.ConfirmedExactlyWhen | apps/agent/src/auth/ProviderCredentialStoreManager.ts:106-112 | asking for the store in use succeeds exactly when the selection can be written; it is then that store, and nothing else changes |
| CredentialCompletion.ConfirmedIsUsedAgain | apps/agent/src/auth/ProviderCredentialStoreManager.ts:106-112 | the next undisturbed start then works on that store, with everything in it, and asks the user nothing |
| CredentialCompletion.AsksExactlyWhen | apps/agent/src/auth/ProviderCredentialStoreManager.ts:63-66 | a start asks the user to choose exactly when nothing was selected and there are encrypted credentials, and a choice stops the asking |
| CredentialCompletion.MoveIntoFileAlwaysSettles | apps/agent/src/auth/ProviderCredentialStoreManager.ts:286-306 | encrypted to auth.json: after a crash anywhere and any number of crashed starts, the first undisturbed start ends with the journal cleared, the selected store equal to the snapshot and the other empty |
| CredentialCompletion.MoveSucceedsExactlyWhen | apps/agent/src/auth/ProviderCredentialStoreManager.ts:119-161 | whatever fails, a switch succeeds if and only if the target is empty, no disabled credential is active, a file source is initialised and each of its ten effects happens, eleven if the file store is still to be initialised; then the target is selected and holds all, and the source is empty |
| CredentialCompletion.RefusalEmptiesTheTarget | apps/agent/src/auth/ProviderCredentialStoreManager.ts:162-170 | a switch refused because its target is not empty empties that target |
| CredentialCompletion.StuckForEver | apps/agent/src/auth/AuthJsonCredentialRepository.ts:528-537 | a decided move out of auth.json is never completed by any number of starts, with nothing lost |
| CredentialCompletion.StuckIsReachable | apps/agent/src/auth/ProviderCredentialStoreManager.ts:151-157 | such a state arises when the process dies right after the selection |
| CredentialCompletion.CrippledIsReachable | apps/agent/src/auth/ProviderCredentialStoreManager.ts:299-304 | the state whose recovery leaves auth.json uninitialised arises when the process dies after the copy |
| CredentialStoreManager.ProviderCredentialStoreManager.InitializeStores | apps/agent/src/auth/ProviderCredentialStoreManager.ts:60-78 | the method makes the specified transition, and from any durable state every credential is where recovery looks for it |
| CredentialStoreManager.ProviderCredentialStoreManager.RecoverJournal | apps/agent/src/auth/ProviderCredentialStoreManager.ts:286-306 | the method makes the specified transition |
| CredentialStoreManager.ProviderCredentialStoreManager.Update | apps/agent/src/auth/ProviderCredentialStoreManager.ts:89-179 | the method, its catch block included, makes the specified transition and, wherever it stops, keeps every credential |
| CredentialStoreManager.ProviderCredentialStoreManager.ReplaceAll | apps/agent/src/auth/AuthJsonCredentialRepository.ts:484-513 | replacing or clearing a store is atomic and refused by an uninitialised auth.json |
| CredentialStoreManager.ProviderCredentialStoreManager.GuardMutation | apps/agent/src/auth/ProviderCredentialStoreManager.ts:266-274 | refused while a switch is under way; an accepted change, and only that, changes what is kept |
| ConfigMerge.MergedLeaf | apps/agent/src/config/ConfigService.ts:215-224 | a leaf of a merge is the later value's leaf, or else the earlier value's |
| ConfigMerge.MergeHasExactly | apps/agent/src/config/ConfigService.ts:215-224 | a path is a leaf of a merge if and only if it is one of the later value, or of the earlier value and the later one neither has anything there nor a leaf on the way |
| ConfigMerge.MergedHasExactly | apps/agent/src/config/ConfigService.ts:854-883 | and of the merged configuration if and only if some layer has a leaf there that no later layer covers |
| ConfigMerge.LeafOfLastLayer | apps/agent/src/config/ConfigService.ts:854-883 | every leaf of the merged configuration has the value given by the last layer with a leaf at that path |
| ConfigMerge.OriginsAgreeWithMerge | apps/agent/src/config/ConfigService.ts:854-883 | with dot-free keys, `origins` names that same layer |
| ConfigMerge.OriginsNameTheLayer | apps/agent/src/config/ConfigService.ts:235-246 | for any keys, it does so if and only if no later layer has a leaf whose joined path is the same |
| ConfigMerge.NothingElseIsNamed | apps/agent/src/config/ConfigService.ts:235-246 | a name no layer has a leaf for has no entry |
| ConfigMerge.JoinIsInjective | apps/agent/src/config/ConfigService.ts:244 | dot-free paths have different joined names |
| ConfigMerge.DottedKeysShareAName | apps/agent/src/config/ConfigService.ts:244 | with a dot in a key the entry can name another layer: a concrete input |
| ConfigReader.MergeConfig | apps/agent/src/config/ConfigService.ts:215-224 | the loop over the entries computes the merge |
| ConfigReader.CollectOrigins | apps/agent/src/config/ConfigService.ts:235-246 | the recursion sets exactly the names of the leaves to the scope |
| ConfigReader.Read | apps/agent/src/config/ConfigService.ts:854-883 | told by the arguments alone: each leaf of the result is that of a trusted project, or else of the profile, or else of the user's file, or else of the defaults, whichever covers its path first, and `origins` names that source; the keys that describe a file are never taken from one; and without trust the result is the one without a project |
| WriteOrder.WritesExcludeEachOther | apps/agent/src/config/ConfigService.ts:1142-1154 | in every reachable state, while a write to a file is under way everything requested before it is over and nothing requested after it has begun |
| WriteOrder.ApplyKeepsInv | apps/agent/src/config/ConfigService.ts:1142-1154 | every step keeps chains and order, the conditional removal of a queue entry included |
| WriteOrder.RunKeepsInv | apps/agent/src/config/ConfigService.ts:1142-1154 | so does every interleaving |
| WriteOrder.NeverStuck | apps/agent/src/config/ConfigService.ts:1142-1154 | in every reachable state with a write that is not over, some write can go on |
| WriteOrder.SomethingRestored | apps/agent/src/config/ConfigService.ts:1083-1094 | a file that lost a text and has it again was written with that text in between |
| WriteOrder.AtMostOneUnlessRestored | apps/agent/src/config/ConfigService.ts:1092-1113 | if two writers presenting the same expected version both take effect and the first changed the text, a write between them restored that text |
| WriteOrder.RestoringLetsTwoThrough | apps/agent/src/config/ConfigService.ts:1092-1094 | when one does, two succeed: a concrete run |
| WriteTurns.RunKeepsTurns | apps/agent/src/config/ConfigService.ts:1083-1113 | in every run each write finds the text that the stored writes requested before it, applied in that order, have made; a write that is stored and then reported as failed counts among them |
| WriteTurns.RefusedExactlyWhen | apps/agent/src/config/ConfigService.ts:1092-1112 | and is refused for its version if and only if that text is not the one it expects, and for its edit if and only if that text cannot be edited so |
| WriteTurns.SecondPassesExactlyWhen | apps/agent/src/config/ConfigService.ts:1092-1094 | of two writers presenting the same version, the first stored with a change, the second passes the check if and only if the last write stored between them leaves that version |
| WriteTurns.BothStoredExactlyWhen | apps/agent/src/config/ConfigService.ts:1092-1113 | so, if its edit is valid and its own write does not fail, both take effect exactly then |
| ConfigWriter.ConfigService.RequestWrite | apps/agent/src/config/ConfigService.ts:1142-1150 | a request is chained to the entry found and becomes the entry; chains and order are kept |
| ConfigWriter.ConfigService.ReadAndPatch | apps/agent/src/config/ConfigService.ts:1083-1112 | reading, the version check and patching make the specified step; chains and order are kept |
| ConfigWriter.ConfigService.FinishWrite | apps/agent/src/config/ConfigService.ts:1113-1130 | a stored write whose file cannot be read back is reported as failed, and its text stays; chains and order are kept |
| ConfigWriter.ConfigService.RemoveTail | apps/agent/src/config/ConfigService.ts:1151-1153 | the entry is removed only if it is still this write's; chains and order are kept |
| DataMigration.RestartConverges | apps/agent/src/config/DataDirectoryMigration.ts:206-222 | wherever a migration was left, starting again with the same decision leads to the same files |
| DataMigration.DecidingAgainWouldNotConverge | apps/agent/src/config/DataDirectoryMigration.ts:151-160 | with a decision made afresh it would not: a concrete input, and the reason for the pending entry of the marker |
| DataMigration.OutcomeExtends | apps/agent/src/config/DataDirectoryMigration.ts:126-178 | no file of the target is changed or removed |
| DataMigration.SkippedPrefix | apps/agent/src/config/DataDirectoryMigration.ts:147-149 | sources that are done, absent or in place do not matter |
| DataContents.OutcomeHolds | apps/agent/src/config/DataDirectoryMigration.ts:126-300 | the outcome of a migration, file by file: what the target had stays; anywhere else there is something exactly if a source whose turn comes gives it, told by its kind, its files and the decision about databases, and then the same folders with the same files at any depth |
| DataContents.CopiedIsSame | apps/agent/src/config/DataDirectoryMigration.ts:272-284 | a copied folder has the same folders with the same files, at any depth, and nothing that is neither |
| DataMigrator.LegacyMigration.MigrateDatabaseGroup | apps/agent/src/config/DataDirectoryMigration.ts:206-222 | a main database is copied only after its side files, and not at all if one is there |
| DataMigrator.LegacyMigration.CopyFileIfMissing | apps/agent/src/config/DataDirectoryMigration.ts:285-297 | a file appears whole, once, or not at all |
| DataMigrator.LegacyMigration.CopyTreeIfMissing | apps/agent/src/config/DataDirectoryMigration.ts:256-270 | so does a directory |
| DataMigrator.LegacyMigration.MigratePets | apps/agent/src/config/DataDirectoryMigration.ts:224-240 | in whatever order entries are listed, exactly the valid pets and the catalogue are taken |
| DataMigrator.LegacyMigration.MigrateSource | apps/agent/src/config/DataDirectoryMigration.ts:150-176 | an interrupted source leaves the outcome of the whole migration what it was |
| DataMigrator.LegacyMigration.MigrateLegacyAgentData | apps/agent/src/config/DataDirectoryMigration.ts:126-178 | however an attempt ends, the outcome it was heading for is unchanged and no old file differs; an attempt that succeeds has reached it, and an undisturbed one succeeds; a migrated main database never appears without its side files |
| DataMigrator.InterruptedAttemptsConverge | apps/agent/src/config/DataDirectoryMigration.ts:126-178 | any number of attempts, interrupted anywhere and each started from what the last one left: one that succeeds has made exactly what the first would have made undisturbed, no old file has changed, and a migrated main database never appears without its side files |
| DataRelocation.Relocation.Gather | apps/agent/src/config/DataDirectoryMigration.ts:95-118 | a staging directory that is complete is exactly what moves, with the marker of the operation |
| DataRelocation.Relocation.Relocate | apps/agent/src/config/DataDirectoryMigration.ts:62-124 | undisturbed, it succeeds exactly for a valid operation and a target that is absent, empty or this operation's; success publishes the complete directory or finds it; a failure leaves the target as it was, or removes an empty one; a target in use is never touched |
| DataContents.PublishedHolds | apps/agent/src/config/DataDirectoryMigration.ts:95-118 | the published directory, file by file: at each place what the source has there, if it is one of the known folders or files or a database with its side files, and nothing else |
| Utf8.StrictRoundTrip | apps/agent/src/mcp/McpClientFactory.ts:29-32 | strict decoding accepts every encoding and gives back the text (section 3 of RFC 3629) |
| Utf8.EncodingIsTheTable | apps/agent/src/mcp/McpClientFactory.ts:29-32 | an encoding has the length, the ranges and the payload of the table in section 3 of RFC 3629 |
| Utf8.LossyRoundTrip | apps/agent/src/local-environment/LocalEnvironmentRunner.ts:114 | so does decoding with replacement |
| Utf8.SkipIsTheLongest | apps/agent/src/local-environment/LocalEnvironmentRunner.ts:114 | a replacement stands for the longest part of the rest that an encoding could have begun with, or for one byte |
| Utf8.CutAndDecode | apps/agent/src/local-environment/LocalEnvironmentRunner.ts:126-127 | an encoding cut anywhere decodes to at most three replacements and then the characters after the cut |
| Utf8.StrictPrefix | apps/agent/src/mcp/McpClientFactory.ts:29-35 | a prefix of an encoding decodes strictly only at a character boundary, and one lies at most three bytes before any position |
| OutputRing.AppendIsBounded | apps/agent/src/local-environment/LocalEnvironmentRunner.ts:113-135 | after every append sizes and total agree, sequence numbers are consecutive, the total is at most 64 KiB plus three, and only the oldest output is gone, no more than needed |
| OutputRing.ShortenedSize | apps/agent/src/local-environment/LocalEnvironmentRunner.ts:126-131 | a shortened chunk is a suffix of its characters after at most two replacements, within three bytes of the size asked for |
| OutputExcess.OverByThree | apps/agent/src/local-environment/LocalEnvironmentRunner.ts:113-135 | an empty ring given one output of four-byte and ASCII characters ends three bytes over its limit |
| OutputExcess.ExceedsExactlyWhen | apps/agent/src/local-environment/LocalEnvironmentRunner.ts:113-135 | after any append the ring exceeds its limit if and only if it had to be cut and two or three bytes were left of the character cut through; its size is then known exactly |
| OutputExcess.AppendKeepsText | apps/agent/src/local-environment/LocalEnvironmentRunner.ts:113-135 | what the ring retains after an append is the text it had followed by the decoded output while that is at most 64 KiB, and otherwise what is left when the first bytes over the limit are cut off |
| OutputExcess.ShortenIsExact | apps/agent/src/local-environment/LocalEnvironmentRunner.ts:126-131 | the size of a chunk cut anywhere follows from how many bytes are left of the character cut through |
| OutputExcess.CutDecodesTo | apps/agent/src/local-environment/LocalEnvironmentRunner.ts:126-127 | output cut anywhere decodes to one replacement for each byte left of the character cut through and then the characters after it |
| OutputRing.TrimKeepsNewest | apps/agent/src/local-environment/LocalEnvironmentRunner.ts:118-133 | trimming keeps the newest chunks, all but the first unchanged |
| OutputRing.PageIsSuffix | apps/agent/src/local-environment/LocalEnvironmentRunner.ts:91-102 | a page holds exactly the retained chunks from the requested sequence number on |
| OutputRing.PollFollows | apps/agent/src/local-environment/LocalEnvironmentRunner.ts:91-102 | a polling reader gets each surviving chunk once and in order, and misses something if and only if the oldest retained sequence number is past its cursor |
| OutputRing.ReaderFollows | apps/agent/src/local-environment/LocalEnvironmentRunner.ts:91-135 | over every interleaving of output and polls |
| OutputRing.OutputBuffer.AppendBytes | apps/agent/src/local-environment/LocalEnvironmentRunner.ts:113-135 | the method with its loop makes the specified transition |
| Truncation.TruncateInstructions | apps/agent/src/mcp/McpClientFactory.ts:23-38 | a text within the bound is unchanged; a longer one is cut after the last character that leaves room for the marker, and the result keeps the bound |
| Truncation.GenerationInstructions | apps/agent/src/mcp/McpConnectionManager.ts:72-89 | the instructions of a generation total at most 64 KiB; they are all included unchanged if they fit, and otherwise use the limit up to at most six bytes |
| Halving.UnitsAreAtMostThree | apps/agent/src/mcp/McpDiagnosticContextProvider.ts:72-75 | a prefix of n code units is at most 3n bytes |
| Halving.SettlesOn | apps/agent/src/mcp/McpDiagnosticContextProvider.ts:72-75 | the end is never driven negative |
| Halving.TruncateUtf8 | apps/agent/src/mcp/McpDiagnosticContextProvider.ts:68-77 | the result is a prefix within the bound, flagged exactly when the text was too long |
| Halving.LossIsHalfTheExcess | apps/agent/src/mcp/McpDiagnosticContextProvider.ts:68-77 | for any text, surrogates included, at most half the excess of the first attempt, and a byte and a half, of the bound goes unused; nothing does if the first attempt fits |
| Halving.NarrowTextIsCutClosely | apps/agent/src/mcp/McpDiagnosticContextProvider.ts:68-77 | text of one- and two-byte characters is cut at most one byte early |
| Halving.WideTextIsCutShort | apps/agent/src/mcp/McpDiagnosticContextProvider.ts:68-77 | of n three-byte characters tried, half of what the bound exceeds n by are kept, and none of a text as long as the bound |

## Left out

- The abort path of the agent loop: tool starts may stay without an end, as the code has it; what is stated is that results are then a prefix of the calls in order.
- Exceptions inside a run of the agent loop (a throwing listener, hook or stream function) and the failure message the agent then appends; tool progress events; timestamps; transforms of the context on its way to the model.
- A provider that starts more than one message in an answer: the stream would then nest messages, so answers are assumed to start at most one.
- AgentLoop.PendingMessageQueue.Clear: explicit clears are outside the conservation of queued messages.
- McpConnectionManager.CatalogChanged: only its synchronous part; that a catalogue change during a reconcile is picked up is not claimed, because the code does not provide it.
- The final `dispose()` of the MCP manager, which closes connections under live leases; several workspaces, whose runtimes share nothing; callbacks and adapters that throw.
- Worktrees other than the two of a handoff, and the check for branches they hold.
- Real merge conflicts: a stash applies as a whole or not at all.
- Conversation forks, workspace bindings and preparation: each is a step that succeeds or fails. The two ways they undo themselves are files that are not part of this model.
- HandoffService.Port: an error raised by a fork, a binding, a preparation or the lifecycle carries no code of its own here and is recorded as unsupported history.
- HandoffRecovery.InspectFits: the reads of one inspection are a single command of the environment.
- Timers, waiting on revisions, and wall-clock fields.
- CredentialOverlap.Changed: a change reads and writes its store in one step, which fails without an effect; what a change does before it is written is its function.
- HandoffCleanUps: stashes that others push or drop between a lookup and its drop.
- Disagreement between the memory and the file of auth.json after a failed write, edits of it by others, and credentials that are not a provider's.
- Replays of a store switch by operation id, which return a stored result.
- Text edits of configuration files (the patch is a function from text to text), TOML, file watching, and editors other than the service.
- Entries of `origins` for paths that are absent from the merged result; they can be stale.
- Temporary names a crashed copy leaves behind, failures to create directories, and the path checks of entry names.
- Truncation.TruncateInstructions: the scrubbing and trimming done before it.
- Which tools and entries the diagnostic context drops to keep its own size.
