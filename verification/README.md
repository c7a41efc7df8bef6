# Verified models of the Better Agent protocols

Better Agent is the backend of a multi-agent workspace. Its hard logic is a set of small protocols that keep
shared state right under interleaving, replay and retry. This project models them in Dafny and proves what they
are for, over every run: what each step keeps, that an optimised form agrees with a naive one, that nothing is
lost, doubled or overwritten.

`dafny verify dfyconfig.toml` checks the whole project.

## How it is organised

One module per component. Where the program changes an object step by step there is a class with the program's
fields, each method proved against a function on values; a protocol that interleaves is a state machine whose
steps are the program's locked sections, unlocked reads, scheduled callbacks and sends, and its theorems hold
for every sequence of events.

| module | component |
|---|---|
| `PermitExecutor` | the FIFO counting semaphore of the bounded executor, with timeouts, deferred grants, shutdown and closing loops |
| `ProviderConfig`, `ProviderEffects`, `ProviderConfigStore` | providers, the default provider, runtime profiles and the graveyard; the validator and the mutations |
| `CredentialTransaction` | compare-and-set writes with rollback, beside other writers |
| `AskStatus`, `AskDelivery` | the ask record, and the race of result writers, turn ends and receipts |
| `RolloutTailer`, `RolloutNormalizer`, `AgentTree` | reading a growing log, suppressing its echoes, walking the tree of agents it spawns |
| `ChatStore` | the shared chat: cursors and paging |
| `RankHeap`, `EntryLimiter` | the bounded heap of newest entries against a stable sort |
| `RateLimiter` | the sliding-window limiter against a log that forgets nothing |
| `AsyncFact` | the one-shot fact many event loops await |
| `SubagentRegistry` | the walk to the enclosing call, and the claim registry |
| `ExchangeJson` | an exchange as JSON within a length limit, and back |
| `FirstLineReaders` | the two readers that must agree on a first line |
| `Wrappers`, `Sequences`, `Bytes` | options and results; first index and concatenation; bytes |

## What was found

Some properties one would expect do not hold of the code. The model keeps the code's behaviour. For each, one
member gives an input on which it fails, and another says exactly when it does hold.

- The executor reads "not in the queue" as "granted" (`backend/bounded_async_executor.py:61-67`). After `shutdown`
  has drained the queue, a waiter that times out before its exception lands releases a permit it never had
  (`LateLeaveHappens`). A loop that closes between the hand-over's test and its scheduling, after the waiter timed
  out, has the permit released twice, and then more callers than `capacity` can hold one (`StaleRetryHappens`).
  Conservation holds if and only if a run meets neither (`Conservation`).
- `complete` trusts a flag computed earlier (`backend/ask_delivery.py:159-166`). When the caller's turn has ended and
  been handled meanwhile, the answer reaches nobody (`StaleCompleteLoses`). With a flag that is right, the handling
  still to come delivers it (`LaterMarkerSettles`); in general an answer arrives if and only if a receipt was
  recorded, or some process that re-reads was not finished when it was written and the turn was marked
  (`SettledExactly`).
- The comment at `backend/ask_status_store.py:245-251` calls a record seeded before any claim claimable; the code
  refuses the record that `prepare` leaves for every session or worker (`PreparedRefusesSession`), and lets one in
  exactly when its target is already the one claimed (`SeededRecordNeedsTarget`).
- The index of lifecycle ids keeps the entry of an id that a later dispatch of the ask superseded, so the end of the
  earlier turn answers the ask (`SupersededTurnAnswers`); `AskAnsweredBy` says which ask any turn's end answers.
- The validator allows a tombstone and a live profile of one pair. From such a state `add_runtime_profile` builds
  a candidate the validator refuses (`TombstoneFirstRefused`); from any valid state the candidate is accepted if and
  only if the pair has no live record (`AddNeedsUniquePairs`), and from the seeded state no run reaches another one.
- A credential transaction whose changes give one id two values can leave its rollback incomplete, which is then
  reported (`ConflictFails`); with no other writer rollbacks are complete if and only if no changes do that
  (`RollsBackExactly`). No caller passes such changes: the sync import refuses an id given twice
  (`backend/config_store.py:2140-2141`), and every other caller passes at most one change.
- A compare-and-set tells another writer's value from the snapshot only by its value: one that equals the snapshot is
  overwritten (`ForeignSnapshotReplaced`). What can be overwritten is the snapshot's value and, in a rollback, the
  desired one (`OverwritesOnlyExpected`), and a write happens exactly then (`CompareSet`).
- A finalised reasoning item claims its text even when it renders nothing, so a later row with the same text is
  not shown (`SilentItemHidesReasoning`): reasoning is shown at most once, and once exactly when its first carrier
  renders (`ReasoningAtMostOnce`).
- The comment at `backend/auth.py:222-228` bounds the limiter's table by the addresses of one window. An address can
  stay for almost two (`StoredForAlmostTwoWindows`); `StoredExactly` says which addresses are stored, and
  `OneWindowExactly` when the bound holds.

## Model
| member | source | states |
|---|---|---|
| `PermitExecutor.BoundedAsyncExecutor.constructor` | backend/bounded_async_executor.py:35-37 | nothing in use, open, nobody waiting |
| `PermitExecutor.BoundedAsyncExecutor.AcquireSection` | backend/bounded_async_executor.py:46-55 | refuses when closed, admits below capacity and counts the permit, otherwise queues last |
| `PermitExecutor.BoundedAsyncExecutor.WithdrawSection` | backend/bounded_async_executor.py:61-65 | a waiter that gives up leaves the queue, the others keep their order; absent means granted |
| `PermitExecutor.BoundedAsyncExecutor.PopSection` | backend/bounded_async_executor.py:87-95 | drops dead waiters from the front, takes the first live one, or gives the permit back when none is left |
| `PermitExecutor.BoundedAsyncExecutor.Release` | backend/bounded_async_executor.py:85-106 | with the queue to itself between retries, the loop ends and takes the first waiter that is neither dead nor on a loop that refuses the grant |
| `PermitExecutor.BoundedAsyncExecutor.ShutdownSection` | backend/bounded_async_executor.py:137-142 | closes once and drains the queue; a second call does nothing |
| `PermitExecutor.LiveIndexSkips` | backend/bounded_async_executor.py:86-106 | a retry goes on from the waiter that could not be granted, never back |
| `PermitExecutor.StepInv` | backend/bounded_async_executor.py:44-148 | every locked section, scheduled grant, timeout, cancellation, completion, loop closing and shutdown keeps the whole invariant |
| `PermitExecutor.RunInv` | backend/bounded_async_executor.py:44-148 | every interleaving of those steps keeps it |
| `PermitExecutor.Conservation` | backend/bounded_async_executor.py:49-106 | in use equals permits held, in flight and being released, if and only if the run took neither of the two branches that release a permit nobody owns |
| `PermitExecutor.ConservationBeforeShutdown` | backend/bounded_async_executor.py:49-106 | with open loops and before shutdown the equation holds without exception |
| `PermitExecutor.HistoryCounts` | backend/bounded_async_executor.py:61-77 | the history counters are zero exactly when no step of the run took one of those branches |
| `PermitExecutor.HolderBound` | backend/bounded_async_executor.py:49-50 | at most `capacity` callers hold a permit in every reachable state, shutdown included, while no loop closes; each stale retry raises the bound by one |
| `PermitExecutor.OpenLoopsNoStaleRetry` | backend/bounded_async_executor.py:103-106 | no stale retry without a closed loop |
| `PermitExecutor.ClosedByShutdown` | backend/bounded_async_executor.py:137-142 | closed exactly when the run contains a shutdown |
| `PermitExecutor.NoOvertaking` | backend/bounded_async_executor.py:46-55 | while someone waits, all permits are out and a newcomer queues behind everyone |
| `PermitExecutor.NoPermitLost` | backend/bounded_async_executor.py:85-103 | a released permit goes to the first waiter whose loop is open |
| `PermitExecutor.LeftQueueIsAnswered` | backend/bounded_async_executor.py:56-103 | in every reachable state, whoever waits on an open loop and has left the queue is answered: its grant or its failure lands and it resumes with the permit, or refused if it was dropped, and nothing else changes |
| `PermitExecutor.DrainedIsRefused` | backend/bounded_async_executor.py:137-148 | a waiter that `shutdown` drained and whose loop is open is told so and resumes refused; no permit is taken or released on the way |
| `PermitExecutor.GivesUp` | backend/bounded_async_executor.py:58-82 | a caller that times out or is cancelled is gone; still queued, it leaves the queue and the others keep their order, and else one release follows |
| `PermitExecutor.NewcomerExactly` | backend/bounded_async_executor.py:46-55 | turned away exactly after `shutdown`, admitted exactly while permits are left, else queued behind everybody |
| `PermitExecutor.FinishServesNext` | backend/bounded_async_executor.py:85-134 | when a job is done, its permit goes to the first waiter on an open loop, which then holds it; the counter does not move |
| `PermitExecutor.PermitReturnedOnlyToNobody` | backend/bounded_async_executor.py:88-95 | the counter falls if and only if no live waiter is left |
| `PermitExecutor.GrantsAreFifo` | backend/bounded_async_executor.py:87-92 | over every run permits are handed out in order of arrival, and everyone still queued came later |
| `PermitExecutor.GrantFindsPendingWaiter` | backend/bounded_async_executor.py:97-101 | a grant callback never finds its waiter done |
| `PermitExecutor.LateLeaveHappens` | backend/bounded_async_executor.py:69-77 | after shutdown a drained waiter that times out first releases a permit it never had: the counter reads 0 while a caller holds one |
| `PermitExecutor.StaleRetryHappens` | backend/bounded_async_executor.py:96-106 | a loop that closes between the test and the scheduling, after its waiter timed out, makes the permit be released twice: two callers hold the one permit |
| `ProviderConfig.ValidatorAcceptsCandidates` | backend/config_store.py:2477-3218 | the candidate state of every mutation passes the validator if and only if it does not make a provider available while there is no default; pairs stay unique |
| `ProviderConfig.ApplyInv` | backend/config_store.py:2477-3218 | every mutation keeps the validator's conditions, one profile record per pair, and a graveyard apart from the live providers |
| `ProviderConfig.RunInv` | backend/config_store.py:727-747 | from the seeded state every run of mutations keeps them |
| `ProviderConfig.SavedInv` | backend/config_store.py:2754-2792 | saving a valid state drops exactly the graves of live providers and leaves a valid one |
| `ProviderConfig.OnAddProvider` | backend/config_store.py:2477-2533 | adding: refused exactly when the new record is available and there is no default |
| `ProviderConfig.OnUpdateProvider` | backend/config_store.py:2537-2661 | patching, suspending the default included: refused exactly when it un-suspends while there is no default |
| `ProviderConfig.OnDeleteProvider` | backend/config_store.py:2674-2700 | deleting: always accepted |
| `ProviderConfig.OnSetDefault` | backend/config_store.py:3180-3218 | setting the default: always accepted |
| `ProviderConfig.OnActivate` | backend/config_store.py:3133-3176 | activating a profile: always accepted |
| `ProviderConfig.OnImport` | backend/config_store.py:2230-2247 | sync import: refused exactly when it brings available providers and no default |
| `ProviderConfig.OnSelect` | backend/config_store.py:751-810 | installation selection: always accepted |
| `ProviderConfig.OnAddProfile` | backend/config_store.py:2984-3041 | adding or reviving a profile: always accepted |
| `ProviderConfig.OnUpdateProfile` | backend/config_store.py:3045-3086 | patching a profile: always accepted |
| `ProviderConfig.OnDeleteProfile` | backend/config_store.py:3090-3110 | tombstoning a profile: always accepted |
| `ProviderConfig.AddNeedsUniquePairs` | backend/config_store.py:3002-3024 | in any state the validator accepts, pairs unique or not, adding a profile is accepted if and only if the pair has no live record: a tombstone standing before a live record would be revived beside it |
| `ProviderConfig.TombstoneFirstRefused` | backend/config_store.py:3002-3024 | such a state, which the validator accepts: its candidate is refused |
| `ProviderConfig.ReconcileKeeps` | backend/config_store.py:2837-2873 | re-deriving changes only the default profile, which is then live and of the default provider, or none |
| `ProviderConfig.TombstoneKeeps` | backend/config_store.py:2823-2834 | no live profile is left without its provider; ids and pairs stay as they were |
| `ProviderConfig.BuryKeeps` | backend/config_store.py:2795-2812 | burying withdrawn providers keeps the graves distinct and well formed |
| `ProviderConfig.ApplyKeepsIdentities` | backend/config_store.py:2984-3110 | profile records are never removed, reordered, re-identified or moved to another pair |
| `ProviderConfig.RunExtends` | backend/config_store.py:2984-3110 | nor over any run |
| `ProviderConfig.PairKeepsItsId` | backend/config_store.py:3002-3037 | over every run the profile id of a (provider, runner) pair never changes once assigned |
| `ProviderConfig.RevisionsTell` | backend/config_store.py:2646-2652 | the revision of every provider record a local mutation changed or named, and of both sides of a moved default, rises by one; the others keep theirs |
| `ProviderEffects.ReconcileRederives` | backend/config_store.py:2837-2873 | the default profile stays while it is live and of the default provider; otherwise it is a live one of that provider and of the runner it uses, and none if and only if there is no such profile |
| `ProviderEffects.DefaultProfileAfter` | backend/config_store.py:2837-2873 | whenever a mutation moves the default provider, and on every import, the default profile is re-derived so; every other mutation but activation leaves it |
| `ProviderEffects.AddProviderLeaves` | backend/config_store.py:2477-2533 | the record is appended and its id leaves the graveyard; nothing else changes |
| `ProviderEffects.UpdateProviderLeaves` | backend/config_store.py:2537-2661 | each field given goes into the provider named and into no other; a default that is suspended passes to the first other available provider |
| `ProviderEffects.DeleteProviderLeaves` | backend/config_store.py:2674-2700 | the provider goes, its name, nickname and kind are buried with the time, its live profiles are tombstoned; nothing else changes |
| `ProviderEffects.SetDefaultLeaves` | backend/config_store.py:3180-3218 | the default moves; of the providers only revisions change |
| `ProviderEffects.ActivateLeaves` | backend/config_store.py:3133-3176 | the profile and its provider are the defaults; of the providers only revisions change |
| `ProviderEffects.AddProfileLeaves` | backend/config_store.py:2984-3041 | one profile is appended or revived with the model, the effort and the name given; a revived one keeps its id, its time of creation and, with no new name, its name |
| `ProviderEffects.UpdateProfileLeaves` | backend/config_store.py:3045-3086 | name, model and effort of the one profile are set, its identity stays; no other changes |
| `ProviderEffects.DeleteProfileLeaves` | backend/config_store.py:3090-3110 | the one profile gets a tombstone; no other changes |
| `ProviderEffects.ImportLeaves` | backend/config_store.py:2230-2247 | the providers and the default are the payload's; exactly the withdrawn are buried beside the earlier graves, those back are not, and the live profiles of the withdrawn are tombstoned |
| `ProviderEffects.UpdatesExactly` | backend/config_store.py:2537-2661 | there is something to save exactly when the provider is known and the patch or a new key changes it |
| `ProviderEffects.SelectsExactly` | backend/config_store.py:751-810 | there is something to save exactly when the kind is new, its first provider was not available, or the default moves to it |
| `ProviderEffects.SelectLeaves` | backend/config_store.py:751-810 | the first provider of the kind becomes available, created only if there is none; no other provider and no profile changes |
| `ProviderConfigStore.NormalizeLoadedState` | backend/config_store.py:942-1014 | accepts exactly the valid states and returns them as saved |
| `ProviderConfigStore.CheckProviderIds` | backend/config_store.py:949-957 | accepts exactly non-empty, distinct ids |
| `ProviderConfigStore.CheckProfiles` | backend/config_store.py:2876-2935 | accepts exactly the well-formed lists: distinct ids, live records of known providers, one live record per pair |
| `ProviderConfigStore.NormalizeGraves` | backend/config_store.py:2754-2792 | accepts exactly the well-formed graveyards and drops the graves of live providers |
| `ProviderConfigStore.TombstoneLoop` | backend/config_store.py:2823-2834 | tombstones exactly the live profiles of unknown providers |
| `ProviderConfigStore.BuryLoop` | backend/config_store.py:2795-2812 | appends a grave for each withdrawn provider that has none |
| `ProviderConfigStore.ConfigStore.constructor` | backend/config_store.py:727-747 | starts from a seeded state, which satisfies the invariant |
| `ProviderConfigStore.ConfigStore.Save` | backend/config_store.py:1325-1400 | saves all of a valid candidate, nothing of another |
| `ProviderConfigStore.ConfigStore.AddProvider` | backend/config_store.py:2477-2533 | saved if and only if the record is suspended or there is a default |
| `ProviderConfigStore.ConfigStore.UpdateProvider` | backend/config_store.py:2537-2661 | saved exactly for a known provider that the patch or a new key changes, unless it un-suspends without a default; if the default moves the default profile is re-derived, and else it stays |
| `ProviderConfigStore.ConfigStore.DeleteProvider` | backend/config_store.py:2674-2700 | deleted if and only if known and not the default; then it is gone and in the graveyard; the reason returned says which of the three it was |
| `ProviderConfigStore.ConfigStore.SetDefaultProvider` | backend/config_store.py:3180-3218 | afterwards the default is this provider if and only if it is known and not suspended; a change is reported if and only if the default is this provider now and was another before; then the default profile is re-derived |
| `ProviderConfigStore.ConfigStore.AddRuntimeProfile` | backend/config_store.py:2984-3041 | added if and only if the provider is known, supports a runner for the request (the runner is what it resolves to, empty when it supports none) and the pair has no live profile; then it has one |
| `ProviderConfigStore.ConfigStore.UpdateRuntimeProfile` | backend/config_store.py:3045-3086 | saved exactly for a live profile whose name, model or effort changes |
| `ProviderConfigStore.ConfigStore.DeleteRuntimeProfile` | backend/config_store.py:3090-3110 | deleted if and only if live and not the default; the reason returned tells missing, default and already deleted apart |
| `ProviderConfigStore.ConfigStore.ActivateRuntimeProfile` | backend/config_store.py:3133-3176 | a change is reported if and only if the profile is live, its provider is available and it was not the default profile; then it is, its provider with it |
| `ProviderConfigStore.ConfigStore.ImportSyncState` | backend/config_store.py:2187-2266 | accepted if and only if the snapshot is well formed and names a default when anything is available; saved unless it comes from the authority already in force, and then the default profile is re-derived |
| `ProviderConfigStore.ConfigStore.SelectInstallation` | backend/config_store.py:751-810 | a provider of the chosen kind is available afterwards, none is withdrawn, and the default moves to it exactly on a fresh choice or when there was none, with the default profile re-derived |
| `CredentialTransaction.CredentialAuthority.constructor` | backend/config_store.py:429-442 | the assumed authority: given values, given interference |
| `CredentialTransaction.CredentialAuthority.Read` | backend/config_store.py:415-426 | the current value, or nothing when the request is blocked; each request gives other writers one turn |
| `CredentialTransaction.CredentialAuthority.CompareSet` | backend/config_store.py:429-454 | writes if and only if the request is answered and the value is the expected one |
| `CredentialTransaction.TakeSnapshots` | backend/config_store.py:463-466 | reads the id of every change, in order, and fails if and only if a read is blocked |
| `CredentialTransaction.ApplyChanges` | backend/config_store.py:480-487 | applies the changes in order and stops at the first compare-set that fails, and only there |
| `CredentialTransaction.RollBack` | backend/config_store.py:490-499 | tries every applied entry, newest first, whatever fails, and reports whether all succeeded |
| `CredentialTransaction.ApplyOrRollBack` | backend/config_store.py:480-504 | the changes, the guarded block and the rollback together: aborted only when every credential is at its snapshot or another writer had the last word |
| `CredentialTransaction.Transaction` | backend/config_store.py:458-504 | under any interference every write of ours replaces the snapshot or, rolling back, the desired value, and a failure not reported as incomplete leaves each credential settled; with no other writer it restores all values on such a failure, never reports an incomplete rollback of changes that agree, and commits if and only if the block succeeds, the expected values match and no change is refused |
| `CredentialTransaction.OverwritesOnlyExpected` | backend/config_store.py:429-504 | the value a write of ours replaces is the last one written to that id before it; so another writer's value is overwritten only when it equals the snapshot (applying) or the desired value (rolling back) |
| `CredentialTransaction.ForeignSnapshotReplaced` | backend/config_store.py:480-487 | such a run: another writer sets the snapshot's own value just before the request, and it is replaced |
| `CredentialTransaction.QuietSettles` | backend/config_store.py:489-504 | with no other writer, settled means the value before the transaction |
| `CredentialTransaction.CommitsExactly` | backend/config_store.py:458-487 | with no other writer it commits if and only if the block succeeds, the expected values are the current ones, and every change after the first to one id is over the value then there |
| `CredentialTransaction.ConsistentRollsBack` | backend/config_store.py:478-504 | with no other writer, changes that give an id one value only are always rolled back |
| `CredentialTransaction.ConflictFails` | backend/config_store.py:478-504 | changes that give an id two values: there are values before from which the rollback fails |
| `CredentialTransaction.RollsBackExactly` | backend/config_store.py:478-504 | with no other writer the rollback never fails, whatever the values, the expectations and the block, if and only if changes of one id agree |
| `AskStatus.AnswerIsFiled` | backend/ask_status_store.py:150-192 | an answer becomes the result, and a delivery carries its words, or else all of it rendered, from the target it names, or else the one of the ask; pending unless final |
| `AskStatus.UpdatesAre` | backend/ask_status_store.py:195-206 | a receipt makes the delivery received exactly when it comes from its caller and the inbox was not first; the other callbacks set their mark; nothing else changes |
| `AskStatus.PrepareAndAnswerCommute` | backend/ask_status_store.py:177-192 | whichever is written first, the caller or the answer, the record comes out the same |
| `AskStatus.AnsweredIsDue` | backend/ask_status_store.py:150-174 | every write leaves a delivery that has an answer final, or pending with a message to send |
| `AskStatus.FinalStaysFinal` | backend/ask_status_store.py:150-206 | a received or inboxed record stays in those states under every write and update; inboxed stays inboxed |
| `AskStatus.ClaimExactly` | backend/ask_status_store.py:224-295 | exactly which claims pass, on a new ask, a seeded one and a claimed one, and the record they leave |
| `AskStatus.ClaimIsIdempotent` | backend/ask_status_store.py:244-285 | a claim that succeeded succeeds again and writes nothing new |
| `AskStatus.ClaimIsExclusive` | backend/ask_status_store.py:244-285 | after a claim exactly the claims of the same sender and route pass, with the same target or, for a pool, none or a movable one |
| `AskStatus.SeededRecordNeedsTarget` | backend/ask_status_store.py:245-267 | a record seeded before any claim takes a session claim if and only if it already names that target; the comment there says it is claimable |
| `AskStatus.PreparedRefusesSession` | backend/ask_status_store.py:245-267 | the record `prepare` leaves refuses every claim of a session or a worker |
| `AskStatus.WriteKeepsIndexed` | backend/ask_status_store.py:75-80 | after a write every record is found by its lifecycle id if and only if no other record goes by the id the write files |
| `AskStatus.DeleteKeepsIndexed` | backend/ask_status_store.py:315-323 | removing a record with its current id leaves every other record findable |
| `AskStatus.AskStatusStore.constructor` | backend/ask_status_store.py:54-72 | an empty store |
| `AskStatus.AskStatusStore.WriteStatus` | backend/ask_status_store.py:177-192 | the record becomes the merge of the fields, with the result projected onto its delivery; the index gains the lifecycle id, and every record stays findable when that id is fresh |
| `AskStatus.AskStatusStore.UpdateStatus` | backend/ask_status_store.py:195-206 | only a receipt from the record's own caller, and not after the inbox, makes it received; the other two callbacks set their flag; the index still finds every record |
| `AskStatus.AskStatusStore.DeleteStatus` | backend/ask_status_store.py:315-323 | the record and the entry of its current id go; entries of earlier ids stay, and every other record is still found |
| `AskStatus.AskStatusStore.ClaimRoute` | backend/ask_status_store.py:224-295 | written if and only if the claim is let through, as the binding of the claim; the index still finds every record |
| `AskStatus.AskStatusStore.AskAnsweredBy` | backend/ask_delivery.py:210-232 | the ask a turn's end answers: the one its lifecycle id leads to, when it has no answer, names this session and there is a coordinator; an ask that goes by the id is the one found |
| `AskStatus.SupersededTurnAnswers` | backend/ask_delivery.py:219-226 | an id a later dispatch superseded still leads to the ask, so the earlier turn's end answers it |
| `AskDelivery.AdvanceInv` | backend/ask_delivery.py:82-194 | every locked write, read, send and delete of any process keeps the handshake invariant |
| `AskDelivery.RunInv` | backend/ask_delivery.py:21-249 | so does every interleaving of askers, writers, markers, turn ends and receipts, from before the ask is prepared |
| `AskDelivery.NoLoss` | backend/ask_delivery.py:116-148 | once a re-reading result writer and the marker of the caller's ended turn are both finished, the receipt is recorded or the caller's inbox holds an answer that was written, provided the ask was prepared before the marker listed it |
| `AskDelivery.SettledReaches` | backend/ask_delivery.py:82-145 | over every run, what the inbox holds is an answer some process wrote, in its own words or rendered, from the target it names or one named for the ask, and without a recorded receipt it is addressed to the caller |
| `AskDelivery.UnderWaySettles` | backend/ask_delivery.py:116-148 | whoever writes the answer: if a process that re-reads was not finished then and somebody marks the caller's turn, the ask is settled once those two are finished |
| `AskDelivery.LaterMarkerSettles` | backend/ask_delivery.py:159-194 | an answer written, with an outdated active flag too, before the end of the caller's turn has been handled is delivered by that handling |
| `AskDelivery.SettledExactly` | backend/ask_delivery.py:82-249 | when all processes of a run are finished, the caller is reached, by a recorded receipt or an answer in its inbox, if and only if a receipt was recorded, or an answer was written while a process that re-reads was under way or still to come, and somebody marked the turn |
| `AskDelivery.EndedTurnsSettle` | backend/ask_delivery.py:210-249 | once the target's and the caller's turns have ended after the dispatch and all writers are finished, none trusting an active flag, the ask is settled: the caller does not wait for ever |
| `AskDelivery.InactiveCompleteSettles` | backend/ask_delivery.py:151-167 | `complete` for an inactive caller settles by itself, once the ask was prepared |
| `AskDelivery.DeletedOnlyWhenSettled` | backend/ask_delivery.py:97-99 | the record is deleted only after the receipt was recorded or the answer sent |
| `AskDelivery.StepKeepsOutcome` | backend/ask_delivery.py:88-145 | settled stays settled; a live record never leaves the final states |
| `AskDelivery.RunTruthful` | backend/ask_delivery.py:102-139 | a recorded receipt is in the journal; the inbox holds at most the one delivery id, addressed to the caller unless a receipt came first |
| `AskDelivery.RecordedExactly` | backend/ask_delivery.py:88-99 | a receipt counts as recorded from the very step that leaves the record received |
| `AskDelivery.StepNearsEnd` | backend/ask_delivery.py:82-249 | whatever the others do, no process takes more than ten steps |
| `AskDelivery.DeliversAlone` | backend/ask_delivery.py:114-148 | by itself a delivery goes on exactly for an undelivered record of an ended turn with an answer; it acknowledges a receipt in the journal and else sends the message, unless the inbox has it, and deletes the record |
| `AskDelivery.AskerAlone` | backend/ask_delivery.py:21-24 | by itself the write of the caller, the target and the lifecycle id, which leads to the ask from then on |
| `AskDelivery.WriterAlone` | backend/ask_delivery.py:27-39 | by itself a writer stores its answer; `complete` names the sender to fall back on, and ends the turn of an inactive caller |
| `AskDelivery.TurnEndAlone` | backend/ask_delivery.py:210-249 | by itself the end of a target's turn writes its result exactly for the ask its id leads to, if that has no answer, is asked of this session and there is a coordinator |
| `AskDelivery.MarkerAlone` | backend/ask_delivery.py:170-194 | by itself a marker marks exactly an undelivered record of its caller, and then delivers it |
| `AskDelivery.ReceiverAlone` | backend/ask_delivery.py:82-99 | by itself a receipt records and deletes exactly a record of its caller that the inbox did not have first |
| `AskDelivery.ClosesDelivery` | backend/ask_delivery.py:140-148 | the inbox is noted in the record, and the record goes with the entry of its lifecycle id; a re-read goes on exactly when there is something to deliver |
| `AskDelivery.ReceiptIsRecorded` | backend/ask_delivery.py:82-99 | in every reachable state with an unsettled ask, a receipt in the journal is recorded by its handler and the record deleted |
| `AskDelivery.MarkerAloneFinishes` | backend/ask_delivery.py:170-194 | a run in which the caller's turn ends, is marked and handled before any result |
| `AskDelivery.StaleCompleteLoses` | backend/ask_delivery.py:159-167 | that run continued by a `complete` that takes the caller to be active: everybody is finished, and the answer has reached nobody |
| `AgentTree.WaitForAgentTreeTerminal` | backend/codex_agent_tree.py:68-154 | the loop computes the walk for any sequence of findings |
| `AgentTree.ReadCompleteRows` | backend/codex_agent_tree.py:40-56 | the complete lines from the cursor on, in order, and the cursor behind the last of them |
| `AgentTree.ReadFromIs` | backend/codex_agent_tree.py:40-56 | from a line boundary it takes in exactly the whole lines that follow, and leaves none |
| `AgentTree.ReadNode` | backend/codex_agent_tree.py:96-123 | one read of a log moves its cursor past the new complete rows, which update the lifecycle state of a child and gather its spawns |
| `AgentTree.ReadAll` | backend/codex_agent_tree.py:95-123 | every log known at the start of the turn is read; unknown children become unresolved |
| `AgentTree.ResolveAll` | backend/codex_agent_tree.py:125-147 | exactly the unresolved agents whose log exists become fresh nodes |
| `AgentTree.ReturnsWholeTerminalTree` | backend/codex_agent_tree.py:149-152 | on return the nodes are exactly the agents reachable from the root through spawns in consumed rows, and every child's last lifecycle row ends its turn |
| `AgentTree.WaitInv` | backend/codex_agent_tree.py:86-154 | the invariant holds over any number of turns, and a return means nothing unresolved and everything terminal |
| `AgentTree.EndsExactly` | backend/codex_agent_tree.py:86-154 | it ends with the first turn that completes the tree, unless an earlier turn finds it cancelled, or else the process gone; until then it goes on |
| `AgentTree.ConsumedIsLog` | backend/codex_agent_tree.py:40-104 | however the logs grow between turns, what a node has consumed is the rows of the whole lines of its log up to its cursor, the root's from `start_byte` on: nothing twice, nothing dropped |
| `AgentTree.TurnReadsToEnd` | backend/codex_agent_tree.py:96-104 | after a turn no whole line is left unread in a log it could open |
| `AgentTree.ReturnedReadsLogs` | backend/codex_agent_tree.py:68-154 | so when the wait returns: every node has consumed its log as last opened, from its start to its cursor |
| `RolloutTailer.ReadLine` | backend/codex_native.py:1050 | the bytes through the next newline, or to the end |
| `RolloutTailer.ReadAvailableLines` | backend/codex_native.py:1043-1061 | whatever is appended meanwhile, the lines read are the lines of the file from the start on, their cursors line boundaries, and no line complete at the start is left |
| `RolloutTailer.CodexRolloutTailer.constructor` | backend/codex_native.py:981-984 | nothing dispatched, cursor at the start |
| `RolloutTailer.CodexRolloutTailer.DispatchLines` | backend/codex_native.py:1000-1036 | each line is normalised, dispatched and counted, in order |
| `RolloutTailer.CodexRolloutTailer.DrainAvailable` | backend/codex_native.py:989-1041 | after any drain what was dispatched is one pass over the whole lines up to the cursor; cursors rise along line boundaries; every line complete at the start has been dispatched |
| `RolloutTailer.NormalizeRolloutFile` | backend/codex_native.py:931-956 | the batch is one pass over the lines from the start to the cut |
| `RolloutTailer.CutIsLastBoundary` | backend/codex_native.py:945-950 | the cut is the last line boundary up to the end given; with none given it is the end of the file, its last line terminated or not |
| `RolloutTailer.RunSchedule` | backend/codex_native.py:931-1061 | for every schedule of appends and drains the tailer has dispatched exactly what the batch yields for the same range |
| `RolloutTailer.SplitConcat` | backend/codex_native.py:1043-1061 | splitting into lines is compositional at a line boundary |
| `RolloutTailer.ReplayConcat` | backend/codex_native.py:1000-1034 | a pass may stop at a boundary and go on later with the state it left |
| `RolloutNormalizer.CodexRolloutNormalizer.constructor` | backend/codex_native.py:327-361 | nothing seen |
| `RolloutNormalizer.CodexRolloutNormalizer.ClaimTurnText` | backend/codex_native.py:382-387 | claims a text if and only if it is non-empty and new in this turn |
| `RolloutNormalizer.CodexRolloutNormalizer.ConsumeToolState` | backend/codex_native.py:622-627 | forgets a pending call and says whether it was known |
| `RolloutNormalizer.CodexRolloutNormalizer.NormalizeEvent` | backend/codex_native.py:416-693 | one row's effect on the state and the events it renders |
| `RolloutNormalizer.SeenIs` | backend/codex_native.py:382-436 | the claims held are exactly the texts of the rows since the last turn boundary |
| `RolloutNormalizer.EmittedIs` | backend/codex_native.py:596-618 | the ids held are exactly those some row has reported a result for |
| `RolloutNormalizer.ShownExactlyWhenFirst` | backend/codex_native.py:475-530 | a row shows its text if and only if it is the first of its turn to carry it, and renders |
| `RolloutNormalizer.AssistantTextExactlyOnce` | backend/codex_native.py:475-484 | within a turn each assistant text is shown exactly once, whichever path it takes |
| `RolloutNormalizer.ReasoningAtMostOnce` | backend/codex_native.py:520-527 | within a turn a reasoning text is shown at most once, and at all exactly when its first carrier renders |
| `RolloutNormalizer.SilentItemHidesReasoning` | backend/codex_native.py:520-527 | such rows: a finalised item that renders nothing, then an event with its text; nothing is shown |
| `RolloutNormalizer.ResultShownExactlyWhenFirst` | backend/codex_native.py:596-693 | a row shows a tool result if and only if it is the first of the log to report that call |
| `RolloutNormalizer.ShowsExactly` | backend/codex_native.py:382-693 | what a row shows is told from the rows alone: the three sets only remember |
| `RolloutNormalizer.McpShowsItsCall` | backend/codex_native.py:601-609 | the row that ends an MCP call shows the call if and only if it is the first to report its result and no earlier row showed it; then the call stands before the result |
| `RolloutNormalizer.RowIs` | backend/codex_native.py:327-530 | which rows carry a text of which kind, report a result, or start a turn |
| `RolloutNormalizer.OneResultPerCall` | backend/codex_native.py:596-693 | no call has two results, in any order of arrival |
| `RolloutNormalizer.McpResultFollowsItsCall` | backend/codex_native.py:600-620 | a result of an MCP call follows its call in what is shown: in the same row, or alone after an earlier row that shows the call |
| `ChatStore.PostedIs` | backend/chat_store.py:308-358 | a call that is not refused appends its post, moves the cursor to the end and gives the log after the old cursor; a new reader gets the whole log when it asks for the history or the chat shows it, and else its own post |
| `ChatStore.PostAndReadInv` | backend/chat_store.py:308-358 | sequence numbers stay 1 to n, no cursor runs ahead, the log only grows, and a refused call changes nothing |
| `ChatStore.HeadIsLargest` | backend/chat_store.py:136-137 | the head of any log is its largest sequence number, 0 for an empty one |
| `ChatStore.HeadIsLength` | backend/chat_store.py:136-137 | the head is the number of messages |
| `ChatStore.EmptyRoomGivesNoCursor` | backend/chat_store.py:349-351 | a reader that first looks at an empty room gets no cursor, so it later counts as new |
| `ChatStore.BatchesConcatenate` | backend/chat_store.py:342-351 | over any interleaving of posters, what a reader with a cursor is given concatenates to the log between its cursors: no gap, no repeat |
| `ChatStore.RefusedExactly` | backend/chat_store.py:222-223 | refused if and only if there is no reader, or somebody posts whom the policy does not permit: not the owner, and off an allowlist or on a disallowlist; a refused call changes nothing |
| `ChatStore.LogIsPosts` | backend/chat_store.py:229-358 | after any run the log is what it was and then, numbered in order, exactly the texts posted by those whom the owner's latest policy permitted at the time |
| `ChatStore.PageIsSlice` | backend/chat_store.py:361-389 | a page is the last messages below the bound, with the next bound exactly when older ones remain |
| `ChatStore.PagesPartition` | backend/chat_store.py:361-389 | following the next bound, the pages partition what lay below the starting bound, each message once, whatever is posted between pages, and the walk ends after exactly as many pages as that takes |
| `ChatStore.ChatFiles.constructor` | backend/chat_store.py:44-45 | no chats |
| `ChatStore.ChatFiles.PostAndRead` | backend/chat_store.py:308-358 | as above on the stored chat, refusals included; other chats are untouched, an unknown one is an error |
| `ChatStore.ChatFiles.SetSenderPolicy` | backend/chat_store.py:229-256 | the policy changes if and only if the chat exists and the caller owns it; nothing else does |
| `ChatStore.ChatFiles.ReadHistory` | backend/chat_store.py:361-389 | the page of the stored chat; nothing is written |
| `RankHeap.BeforeIsTotalOrder` | backend/communication_log.py:164-170 | ranks are totally ordered |
| `RankHeap.LessIs` | backend/communication_log.py:164 | time stamps compare by the first characters that differ, a proper prefix first |
| `RankHeap.RootIsLeast` | backend/communication_log.py:170 | the root of the heap comes before or with every item |
| `RankHeap.Rise` | backend/communication_log.py:168-171 | an item rises to its place: a heap again, the same items |
| `RankHeap.Push` | backend/communication_log.py:167-169 | the item joins the heap |
| `RankHeap.Replace` | backend/communication_log.py:170-171 | the item takes the root's place in the heap |
| `EntryLimiter.Limiter.constructor` | backend/communication_log.py:156-160 | nothing added |
| `EntryLimiter.Limiter.Add` | backend/communication_log.py:162-171 | the entry is counted, and the heap holds the items of the first `limit` of the sorted stream |
| `EntryLimiter.Limiter.Items` | backend/communication_log.py:173-181 | the first `limit` of the stable sort, newest first, of everything added |
| `EntryLimiter.NewestFirstSorts` | backend/communication_log.py:173-181 | the list it is compared with holds everything added, none before a newer one, and those of one time in the order added |
| `EntryLimiter.RanksSortStably` | backend/communication_log.py:164 | sorting by rank is the stable sort by time, newest first, and has no ties |
| `EntryLimiter.Limiter.RanksDiffer` | backend/communication_log.py:164-170 | no two items in the heap have the same rank, so entry bodies are never compared |
| `EntryLimiter.TopAfter` | backend/communication_log.py:167-171 | one more entry pushes out the root exactly when the heap is full and the root comes before it |
| `RateLimiter.DecisionsAreNaive` | backend/auth.py:240-259 | over every run each decision is that of a log that forgets nothing: pruning is invisible |
| `RateLimiter.RunInv` | backend/auth.py:231-267 | what is stored is the end of what was accepted, and what was dropped is out of every window to come |
| `RateLimiter.BudgetHolds` | backend/auth.py:253-259 | without a reset no closed interval of 300 seconds holds more than five accepted attempts of an address |
| `RateLimiter.SixthIsLater` | backend/auth.py:253-259 | the attempt accepted five after another comes more than 300 seconds later |
| `RateLimiter.NoResetKeeps` | backend/auth.py:262-267 | a run without a reset only adds to an address's accepted attempts |
| `RateLimiter.StoredIsRecent` | backend/auth.py:231-252 | every stored address has an accepted attempt within 300 seconds before the last sweep, and within 600 seconds before now |
| `RateLimiter.StoredExactly` | backend/auth.py:231-259 | an address is stored if and only if its latest accepted attempt is no older than 300 seconds before the last sweep |
| `RateLimiter.OneWindowExactly` | backend/auth.py:222-237 | the comment's bound, every stored address seen within one window, holds if and only if no address was last seen between the last sweep's cutoff and the cutoff of a sweep now; so right after every sweep |
| `RateLimiter.StoredForAlmostTwoWindows` | backend/auth.py:222-228 | the comment there speaks of one window; an address can stay stored for almost two |
| `RateLimiter.Limiter.PruneStale` | backend/auth.py:231-237 | exactly the stale addresses go |
| `RateLimiter.Limiter.Check` | backend/auth.py:240-259 | one check: sweep when due, drop what is old, accept below the budget |
| `RateLimiter.Limiter.Reset` | backend/auth.py:262-267 | the address is forgotten |
| `AsyncFact.RunInv` | backend/async_fact.py:39-102 | over every interleaving a set fact has an empty table, and every wake is kept for the waiter's own loop |
| `AsyncFact.NoLostWakeup` | backend/async_fact.py:41-48 | whoever waits when the fact is set has its event set once the wakes are issued and its open loop has run |
| `AsyncFact.SetAnswers` | backend/async_fact.py:39-102 | in every reachable state a set, made on any thread, answers whoever waits on an open loop: the wake is issued once, its loop runs it, the wait comes back true, and no other call is touched |
| `AsyncFact.SetsOnOwnLoop` | backend/async_fact.py:87-102 | an event is set by its own loop only, and a wake is issued once |
| `AsyncFact.GivesUp` | backend/async_fact.py:70-81 | a wait that times out or is cancelled says so and leaves the table; no other call is touched |
| `AsyncFact.ClosedLoopSleeps` | backend/async_fact.py:88-90 | no wake runs on a closed loop |
| `AsyncFact.WaitAfterSet` | backend/async_fact.py:61-69 | a wait that starts after a set, with no clear between, is answered at once |
| `AsyncFact.TrueMeansSet` | backend/async_fact.py:61-78 | True only if the fact was set at some moment of the call |
| `AsyncFact.TrueAfterClear` | backend/async_fact.py:50-54 | a clear does not stop a wake under way |
| `AsyncFact.Fact.constructor` | backend/async_fact.py:31-34 | unset, nobody waiting |
| `AsyncFact.Fact.Set` | backend/async_fact.py:39-48 | sets once; the first set takes every waiter out to be woken |
| `AsyncFact.Fact.Clear` | backend/async_fact.py:50-54 | unset; the table stays |
| `AsyncFact.Fact.Register` | backend/async_fact.py:66-69 | answered when set, registered when not |
| `AsyncFact.Fact.Leave` | backend/async_fact.py:79-81 | out of the table |
| `SubagentRegistry.FindEnclosingCall` | backend/claude_jsonl_enrich.py:57-68 | on every parent map, cyclic ones included, the walk ends with the last call of the nearest ancestor that made one, or with nothing when none did |
| `SubagentRegistry.UpFollows` | backend/claude_jsonl_enrich.py:59-68 | the ancestors are those that every chain of parent links leads to |
| `SubagentRegistry.ClosedAbove` | backend/claude_jsonl_enrich.py:59-68 | coming round to where it has been, the walk misses no ancestor |
| `SubagentRegistry.Enricher.Enrich` | backend/claude_jsonl_enrich.py:24-72 | a line's links and calls are recorded before its own enclosing call is looked up |
| `SubagentRegistry.Enricher.constructor` | backend/claude_jsonl_enrich.py:26-27 | nothing recorded |
| `SubagentRegistry.Registry.constructor` | backend/claude_jsonl_enrich.py:99-105 | nothing pending, nothing bound |
| `SubagentRegistry.Registry.Register` | backend/claude_jsonl_enrich.py:107-112 | a call with an id and a type goes last in the pending list; nothing else changes |
| `SubagentRegistry.Registry.Claim` | backend/claude_jsonl_enrich.py:114-152 | of the exact matches, or else of the wildcards of the description, the one registered earliest among those not claimed; a claim that fails changes nothing, and fails only when nothing matches |
| `SubagentRegistry.Registry.ClaimWorkflow` | backend/claude_jsonl_enrich.py:154-167 | the workflow registered earliest among those not claimed, bound to the run; a failed claim changes nothing |
| `SubagentRegistry.Registry.RegisterToolUses` | backend/claude_jsonl_enrich.py:174-198 | the calls of the three tools go last in the pending list, in order, under the tool's name when they name no type |
| `SubagentRegistry.RegisteredAs` | backend/claude_jsonl_enrich.py:189-198 | a call is registered under the type it names, else under its tool; a type that spells a tool's name is the tool |
| `SubagentRegistry.TakeAccounts` | backend/claude_jsonl_enrich.py:114-167 | a claim takes the earliest registered of the unclaimed matches, and leaves pending exactly what is registered and not claimed, in the order of registration |
| `SubagentRegistry.ServedInOrder` | backend/claude_jsonl_enrich.py:114-167 | of two claims that look for the same thing, workflows or wildcards of one description included, the earlier got the earlier registered, whatever was registered and claimed in between |
| `SubagentRegistry.TakeIsFifo` | backend/claude_jsonl_enrich.py:141-151 | of each kind and description, entries are claimed in the order they were registered, whichever kind of claim takes them |
| `ExchangeJson.BoundedExchangeJson` | backend/continuation_flow.py:25-37 | refused if and only if the empty exchange does not fit; otherwise the text is within the limit and decodes to the two fields, each whole or cut, both whole if and only if they fit |
| `ExchangeJson.EscapesAre` | backend/continuation_flow.py:29-36 | how each character is written: seven short escapes, hexadecimal ones for the other control characters, and all else itself |
| `ExchangeJson.DecodeRender` | backend/continuation_flow.py:29-36 | decoding gives back what was encoded |
| `ExchangeJson.ReadEscaped` | backend/continuation_flow.py:29-36 | a string escaped by section 7 of RFC 8259 is read back to the character |
| `ExchangeJson.ShortenedFits` | backend/continuation_flow.py:30-36 | the cutting ends within the limit, each field the original, empty, or a shorter start of it with one ellipsis |
| `ExchangeJson.CutAgain` | backend/continuation_flow.py:32-35 | a second cut takes the first ellipsis away with it |
| `ExchangeJson.PlainFills` | backend/continuation_flow.py:32-35 | text without escapes is cut once, in the longer field only, and fills the limit exactly |
| `FirstLineReaders.HashAndFirstLine` | backend/codex_execution_common.py:356-378 | however the reads are split, every byte is digested in order and the line is the first line within 4096 bytes |
| `FirstLineReaders.ReadFirstLine` | backend/codex_execution_common.py:381-399 | however the reads are split, the same line |
| `FirstLineReaders.FirstLineIsLongest` | backend/codex_execution_common.py:366-376 | the line is the longest start of the file, within the limit, with no newline before its last byte |
| `FirstLineReaders.Descriptor.Read` | backend/codex_execution_common.py:362 | some bytes from the offset on, none only at the end |

## Left out
- PermitExecutor.BoundedAsyncExecutor.Release: shown for a queue that nobody else changes between two retries, as a method's locked sections run one after the other; the retries interleaved with everything else are steps of `PermitExecutor.StepInv`.
- AskDelivery.NoLoss: not claimed for a `complete` that takes its caller to be active, for which it is false (`AskDelivery.StaleCompleteLoses`); `AskDelivery.SettledExactly` covers it.
- AsyncFact.NoLostWakeup: says nothing of a waiter whose own loop has closed, which the code passes over.
- RateLimiter.BudgetHolds: counts the attempts since the last reset, as a reset forgets the earlier ones.
- EntryLimiter.Limiter.constructor: a limit of zero, which would fail on the first entry, is left to the caller, who never passes it.
- JSON parsing, UTF-8 decoding, uuids, timestamps and the shape of rendered events: a log row is what the modelled state depends on, its spawns included.
- Files, directory scans, locks, fsync and atomic renames: a locked section is one step, a file one value; a tailed file that cannot be opened and lines that make the tailer raise are not modelled.
- Hashing, the key caches and the credential session: the authority is assumed to answer truthfully, one request at a time.
- The inbox, the event journal and its barrier: a send is idempotent per delivery id, the journal holds a receipt or does not.
- Delivery rows name the caller and the one message; several asks in one `mark_caller_terminal` are independent and one is modelled. Records that updates leave behind after the delete are modelled, but nothing is claimed about them.
- Exactly-once delivery: a receipt and an inbox message can both happen.
- `claim_route` together with writes that overwrite the route fields, and result fields other than content, target and rendering.
- Expected generations and revisions, how the sync authority is compared, the dependency plan, and the cleaning of single provider fields: a mutation is modelled from the point where those checks passed, and `settings` stands for the fields no rule looks at.
- Credential changes inside the provider mutations: the transaction is modelled by itself, and a mutation that commits its candidate is the mutation here.
- The thread pool, the jobs and the performance counters of the executor, the exceptions of setting an outcome twice, and a `shutdown` whose scheduling fails: the pool is a step that finishes a job.
- A negative or fractional executor capacity.
- RolloutNormalizer.OneResultPerCall: speaks of the `*_output` and `mcp_tool_call_end` paths; a sub-agent's final answer (`backend/codex_native.py:721-733`) is shown as a result of its spawning call without asking whether one was shown.
- RolloutNormalizer.AssistantTextExactlyOnce: speaks of `event_msg.agent_message` and `response_item.message`; `item.*` rows render without claiming a text.
- Web searches and the sub-agent card state of the normaliser.
- The path resolution, polling and sleeping of the agent-tree wait: a turn gets the logs it can open and the agents it can find as input, each log as it is when its read reaches the end.
- Cleaning and validating chat ids and settings, creating, listing and deleting chats, time stamps of messages.
- The collection of communication entries, their filtering and the response cache.
- Floating-point clocks: times are real numbers that do not go back, starting at zero.
- The cross-thread locking of the limiter and the registry, whose calls are atomic.
- Lone surrogates in JSON strings: characters are Unicode scalar values.
- Files that change while their first line is read; the hash cache, `parallel_map`, `symlink_chain` and the attestation cache of that module.
