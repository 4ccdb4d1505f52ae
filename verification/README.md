# Verification of the valp evidence protocol

A Dafny model of the durable state machines of `valp_cli`, with proofs of what their
design promises across crashes, retries and concurrent command-line processes.

| component | files |
|---|---|
| installation control plane | `ControlTypes`, `TransitionContract`, `TransitionJournal`, `LedgerReplay`, `InstallationCore`, `LeaderOperations`, `ControlRuns`, `OperationRuns` |
| capability reconciliation | `ReconcileKeys`, `CapabilityEntries`, `CapabilityRegistry`, `ReconciliationCalls` |
| draft migration | `DraftMigration` |
| continuation store and its audit | `ContinuationStore`, `ContinuationRuns`, `ContinuationInvocations`, `ContinuationDecisions`, `ContinuationAudit`, `ContinuationFiles` |
| Kernel store | `KernelStore`, `KernelFiles` |
| evidence catalog, cost governance | `Catalog`, `CostGovernance` |

`dafny verify dfyconfig.toml` checks everything.

**How files, crashes and processes are modelled.** Each atomic replacement, write-once or
append of a file is one step. A locked section is a function (and a method of a class
proved against it) that takes the number of write points it passes before its process is
killed; a large number means that it completes. A run is any finite sequence of steps of
any number of processes, so a theorem about runs covers every interleaving and every
place of death. What a process read before it took the lock is part of the state of the
run, until the one submission it feeds or the death of the process. Identifiers and
clock readings are arbitrary inputs; a step that would draw a used random identifier is
not a step. Digests are arbitrary functions passed as a parameter; a result that needs
them to be collision free says so in its `requires`.

**The main results.**

- *Control plane.* A transition is atomic wherever it is killed and however often its
  recovery is killed (`CrashConvergence`, `SubmitIsAtomic`). In every run the state
  follows the legal transitions and a fixed invariant, the epoch moves by one at a leader
  activation and never otherwise, only the selected leader is activated, an accepted call
  was prepared from the state it is committed on although it read without the lock, replay
  of the two ledgers returns the persisted state, and a retried key returns its first
  result. A call is accepted if and only if the state it read is still current and enables
  its operation, its key and identifiers are new and its process lives, and it then leads
  exactly where the operation is meant to (`AcceptedIff`); the bootstrap sequence, a
  rotation, and the way back from a failed start or restart go through
  (`BringUpSucceeds`, `RotationSucceeds`, `FailedStartIsRecovered`,
  `FailedRestartIsUndone`). On ledgers and journals of any origin, what replay and commit
  check, and what they leave unchecked, is stated exactly (`ReplayIffConsistent`,
  `FitsIffAccepted`).
- *Capability registry.* Over every run whose calls were right to start, each entry shows
  for every layer the last record of the ledger, numbered without a gap
  (`RegistryIsCache`, `LastWriterWins`).
- *Draft migration.* Wherever its attempts were killed, a migration that returns has
  changed exactly the version fields and added its two events (`MigrationResult`).
- *Continuations.* The provider is invoked at most once per persisted envelope over every
  interleaving of `consume` calls, and a consumed envelope is backed by its receipt
  forever, both for every digest function; the acknowledgements of each envelope are a
  prefix of the declared sequence, unless keys collide. Every decision of `consume` is
  determined by what stands on disk (`InvokesIff`, `DecisionIs`), and every new wake that
  its capability fits can be delivered (`DeliverySucceeds`). The audit is characterized on
  ledgers of any origin (`AuditIff`).
- *Kernel store.* Recovery with or without a checkpoint equals full replay from genesis in
  every run; pending, fulfilled and blocked effects partition the accepted obligations
  in acceptance order. Each write is accepted if and only if what is on disk calls for it
  (`AppendIff`, `RecordIff`, `RecoverIff`).
- *Catalog and cost.* The cycle check accepts exactly the closed acyclic graphs;
  invalidation reaches exactly the transitive dependents, on cyclic graphs too; cost
  totals are conserved, independent of order and duplicates, and within a rounding bound
  of tokens times rates.

**Where the code does not meet a property.** In each case failing runs are constructed
and the exact condition is proved.

- *A refused journal wedges the control plane.* `_transition_unlocked` writes the journal
  before the contract is checked. A request is recoverable if and only if it conforms to
  the contract of its event kind (`WedgeIffNotConforming`, with the instance
  `WedgingRequest`); a journal that does not is never removed (`WedgedForever`). Every
  public operation conforms (`OperationConforms`).
- *`init` is not restartable.* A kill after its files and before its first transition
  leaves a root that nothing changes any more and whose status is reported if and only if
  the clock still shows the same second (`KilledInitIsStuck`).
- *The capability registry can leave its ledger.* The start of a reconciliation carries a
  key formed from the revision that was read. A second process that read the same state
  and brings as many observations has its start replayed, and its call goes on regardless.
  A call that goes on is harmless if and only if the revision it read is still current, or
  it records nothing, or it joins an open reconciliation at which nobody else is at work
  and whose observations are all registered (or, with an unknown layer in its batch, one
  that nobody else is about to complete) (`StartOk`, `StartSafeIff`). Under this condition
  the registry is an exact cache over every run (`RegistryIsCache`). What a single
  undisturbed call leaves behind is decided, over every status it can find, by
  `WholeCallIff`.
- *A completion can end something else.* It is accepted in every status that may lead to
  active, not only while reconciling (`FinishIff`), so that a call on a replayed start can
  end a restart, rotation, migration or block (`StaleCallEnds`). When calls were right to
  start this does not happen (`CompletesWhileReconciling`).
- *An unknown layer leaves the reconciliation open*, because layers are checked after the
  start has been committed (`UnknownLayerStrands`). One process and no other is then stuck
  for good if and only if its batch has an unknown layer (`LoneCallStrandsIff`): a later
  call reads the state afresh and refuses. In general an open reconciliation that nobody
  is about to complete can end if and only if some process that has not submitted yet
  holds, or `state.json` still shows, a state from which a reconciliation was started
  (`StrandedIff`).
- *Draft migration and orphaned temporary files.* A kill inside a replacement leaves a
  temporary file in the control root, which changes the inventory
  (`KillInsideReplacement`). A rerun converges if and only if no such file was left
  (`MigrationConverges`, `OrphanBlocksForever`).
- *The continuation audit.* It passes on the ledgers of real runs if and only if no
  rejected envelope named another task, the control contract of every pending wake is
  unchanged, and every consumed wake has lost its in-flight marker and kept its evidence
  files (`AuditPassesIff`). A rejection of another task's envelope is never repaired
  (`ForeignRejectionPoisons`), a retained marker only by a call that was already on its
  way to remove it (`RetainedMarkerIsForever`), a rewritten contract only by restoring it
  (`RewrittenContractFails`).
- *Accepted fixtures can merge into a cycle of entries* (`MergedFixturesCanCycle`): exactly
  when dependencies lead from a content back to itself
  (`MergedAcyclicIffNoContentCycle`), which is when the cycle check would refuse the graph
  of the entries (`MergedAcyclicIff`). Edges of earlier indexing runs take no part in such
  a cycle (`ReindexedAcyclicIff`).
- *`pending` is not restartable.* A kill after its first write and before its event leaves
  a wake that a retry is refused for, and that no later call persists: a retry succeeds if
  and only if the first call wrote nothing or everything (`PendingRetryIff`,
  `StrandedForever`).
- *Registry entries can be shared.* An entry is keyed by subject and capability joined by
  a separator. Two subjects in which no separator begins share an entry only for the same
  capability (`SeparableKeys`), and a subject in which one does always shares its entries
  with another subject (`InseparableCollides`).
- *Replay before the first event* compares the clock (`ReplayOfEmptyLedgers`).

## Model

| member | source | states |
|---|---|---|
| `TransitionContract.ValidateIffConforming` | valp_cli/control_plane.py:220-346 | on the records `_transition_unlocked` builds, the contract check passes if and only if the request alone conforms: kinds, target, principal, and payload fields declared for the event kind |
| `TransitionContract.ValidateIgnoresStamps` | valp_cli/control_plane.py:220-346 | the contract verdict does not depend on the timestamp or last-event fields of the prior state, which a recovery cannot restore exactly |
| `TransitionContract.ValidateIff` | valp_cli/control_plane.py:220-346 | on a message and an event of any origin, the contract check passes if and only if they record a conforming request of the event's actor that legally leads from the prior state to the very projection its own transition would have written |
| `TransitionJournal.FindMessageSpec` | valp_cli/control_plane.py:822-826 | a message is found if and only if some record carries the key, and the one found does |
| `TransitionJournal.CommitResumes` | valp_cli/control_plane.py:1111-1127 | a commit resumed on a partly applied journal continues exactly where the killed one stopped, without appending a record twice |
| `TransitionJournal.PartialAccepted` | valp_cli/control_plane.py:997-1110 | no partial application of a well-built journal is refused by the checks of a later recovery |
| `TransitionJournal.CrashConvergence` | valp_cli/control_plane.py:992-1127 | after any number of kills during commit and recovery, one completed recovery leaves exactly the crash-free messages, events, state and installation, and no journal |
| `TransitionJournal.BuiltJournalFits` | valp_cli/control_plane.py:908-990 | the journal built for an admitted, conforming request extends both ledgers by one linked, fresh record |
| `TransitionJournal.FitsIffAccepted` | valp_cli/control_plane.py:997-1110 | a journal of any origin with new identifiers extends a consistent disk by one linked record if and only if the commit accepts it and the four things it does not check hold: current epoch, new key, the next state names its event, other installation fields kept |
| `TransitionJournal.WedgeIffNotConforming` | valp_cli/control_plane.py:988-1110 | a journal just written passes every check of the commit if and only if its request conforms to the contract |
| `TransitionJournal.WedgedForever` | valp_cli/control_plane.py:992-1127 | once a pending journal is refused, every later transition is refused and the disk never changes |
| `TransitionJournal.WedgingRequest` | valp_cli/control_plane.py:988-1110 | an instance: on a new installation a request from another principal is admitted, journaled and then refused by every recovery |
| `InstallationControl.InstallationCore.constructor` | valp_cli/control_plane.py:746-820 | the files `init` leaves before its first transition are a consistent disk with empty ledgers |
| `InstallationControl.InstallationCore.CommitJournal` | valp_cli/control_plane.py:997-1127 | the commit, write by write and killed anywhere, has the effect on the fields that `CommitUpTo` describes; it refuses without writing, or, meeting the installation file of another installation, after the third write |
| `InstallationControl.InstallationCore.FindByKey` | valp_cli/control_plane.py:822-826 | the loop returns the first message with the key |
| `InstallationControl.InstallationCore.Transition` | valp_cli/control_plane.py:868-990 | a transition, killed in recovery or at any write, leaves the disk and returns the outcome that `Submit` describes |
| `InstallationControl.InstallationCore.IndexMessages` | valp_cli/control_plane.py:2243-2252 | the message loop accepts exactly the ledgers with contiguous sequences, correct digests and distinct identifiers |
| `InstallationControl.InstallationCore.ReplayEvents` | valp_cli/control_plane.py:2253-2327 | the event loop accepts exactly the ledgers whose every event replays one-to-one, and returns the state they lead to |
| `InstallationControl.InstallationCore.Replay` | valp_cli/control_plane.py:2235-2341 | replay returns the persisted state if and only if both ledgers replay to it, and raises otherwise |
| `LedgerReplay.ReplayRefines` | valp_cli/control_plane.py:2235-2341 | on every consistent disk with an event, replay accepts and derives exactly the incrementally maintained state |
| `LedgerReplay.ReplayOfEmptyLedgers` | valp_cli/control_plane.py:2258-2341 | before the first event, replay accepts if and only if the clock still shows the second of initialization |
| `LedgerReplay.ReplaySound` | valp_cli/control_plane.py:2259-2341 | accepted ledgers have an unbroken digest chain, contiguous revisions and legal steps, whoever wrote them |
| `LedgerReplay.ReplayIffConsistent` | valp_cli/control_plane.py:2235-2341 | ledgers of any origin with an event are consistent if and only if replay accepts them and what it does not check holds: message order, distinct keys, epochs in force, result revisions and installations, no tolerated old restart |
| `LedgerReplay.LegacyTolerance` | valp_cli/control_plane.py:220-346 | the strict contract check is the check of replay without the tolerance for old restarts, exactly |
| `LeaderOperations.OperationConforms` | valp_cli/control_plane.py:1129-2061 | every request a public operation prepares against the current state conforms to the contract of its event kind |
| `LeaderOperations.OperationPreserves` | valp_cli/control_plane.py:1129-2061 | every accepted operation keeps the state invariant |
| `LeaderOperations.OperationObeys` | valp_cli/control_plane.py:1129-2061 | every accepted operation obeys the laws of authority: the epoch and the active leader change only at an activation, which installs the selected leader; a completed rotation replaces the leader by another; the selected leader changes only at a selection or rotation approval |
| `LeaderOperations.OperationMeaning` | valp_cli/control_plane.py:1129-2061 | each of the eighteen operations is accepted if and only if the state, binding and last event it read enable it; its event is of its own kind and by its own principal, and it sets exactly the status, leaders, epoch, registry revision and blockers it is for: a selection and a rotation the chosen candidate, an activation the provisioned leader |
| `LeaderOperations.OperationDocuments` | valp_cli/control_plane.py:1233-1991 | the event of an operation documents the selection it rests on, the epoch its activation will have, the binding it replaces or restores, and the operation that failed |
| `LeaderOperations.SetupDocuments` | valp_cli/control_plane.py:746-2010 | initialization records its root and version, discovery and reconciliation how many candidates or observations they bring |
| `LeaderOperations.MigrationDocuments` | valp_cli/control_plane.py:3012-3127 | the four migration events name the migration and the plan or receipt they rest on |
| `LeaderOperations.RequestCarriesReadRevision` | valp_cli/control_plane.py:1129-2061 | every operation submits the revision it read, `init` revision 0 |
| `ControlRuns.SubmitIsAtomic` | valp_cli/control_plane.py:861-1127 | a submission killed anywhere leaves a recoverable disk that stands for the old ledgers or for those extended by exactly this request; acceptance means extended, refusal and replay mean unchanged |
| `ControlRuns.SubmitOnRead` | valp_cli/control_plane.py:868-990 | a request prepared from the state on disk under a new key is accepted unless its process dies, and then it is all or nothing |
| `ControlRuns.NoABA` | valp_cli/control_plane.py:897-907 | in every reachable world, a process whose revision is still current has read the current state |
| `ControlRuns.CallIsSound` | valp_cli/control_plane.py:852-907 | whatever a process submits on what it read without the lock is conforming and invariant-preserving on the state it would be committed on |
| `ControlRuns.StepKeepsInv` | valp_cli/control_plane.py:868-1991 | no step of any process breaks the invariant of disk, binding and views, and neither ledger loses a record |
| `ControlRuns.RunsKeepInv` | valp_cli/control_plane.py:868-1991 | the same over every finite run of any number of processes |
| `ControlRuns.ReachableStateGood` | valp_cli/control_plane.py:82-102 | in every reachable world the persisted state is good (no leader iff epoch 0, blockers only when blocked or activating, epoch at least 1 when active) and the disk recovers |
| `ControlRuns.ReachableHistory` | valp_cli/control_plane.py:82-102 | every event of every run moves along the legal transitions, carries the epoch before it, changes the epoch only at a leader activation and then by one, activates only the selected leader, and ends a rotation with another leader |
| `ControlRuns.ReachableReplays` | valp_cli/control_plane.py:2235-2341 | in every run, once an event exists and no journal is pending, replay returns the persisted state |
| `ControlRuns.FencedAcceptance` | valp_cli/control_plane.py:852-907 | a call that adds to the ledgers was prepared from exactly the state it is committed on, and its event carries that state's epoch |
| `ControlRuns.CallEffect` | valp_cli/control_plane.py:868-990 | what a call does to the recovered disk is nothing or exactly its request, committed on the state that was read; acceptance means the latter, a replayed result the former |
| `OperationRuns.AcceptedIff` | valp_cli/control_plane.py:852-990 | under any interleaving a call is accepted if and only if nobody has moved the installation since it read, its key and identifiers are new, the state enables its operation and its process is not killed; then exactly one message and one event are added and the state is the one the operation leads to |
| `OperationRuns.LeaderAfterCall` | valp_cli/control_plane.py:1233-1991 | after an accepted call the selected leader is the candidate chosen by a selection or rotation, the active leader the one provisioned for an activation, the epoch one higher then; no other call changes them |
| `OperationRuns.BringUpSucceeds` | valp_cli/control_plane.py:746-1907 | from a new installation, initialization, discovery, selection, start and activation are accepted step by step and end active in epoch 1 under the provisioned leader of the chosen candidate, with its binding and no blockers |
| `OperationRuns.RotationSucceeds` | valp_cli/control_plane.py:1681-1991 | an enabled rotation and its activation are accepted and end active in the next epoch under the new leader |
| `OperationRuns.FailedRestartIsUndone` | valp_cli/control_plane.py:1470-1679 | restart, failed activation and restoration are accepted and leave leader, epoch, registry revision, binding and status as they were |
| `OperationRuns.FailedStartIsRecovered` | valp_cli/control_plane.py:1317-1907 | a failed first start, its approved recovery and the activation are accepted and end as if the start had succeeded at once |
| `ControlRuns.KilledInitIsStuck` | valp_cli/control_plane.py:746-820 | after a kill before the first transition no step changes the root, and its status is reported if and only if the clock still shows the second of initialization |
| `ControlRuns.RetryAfterRun` | valp_cli/control_plane.py:882-896 | after any further run, a retry with equal content returns the original result and one with other content is refused, neither changing ledgers or state |
| `CapabilityEntries.ApplyFrame` | valp_cli/control_plane.py:2033-2040 | one record changes its own layer of its own entry and no other layer or entry |
| `CapabilityEntries.AppendShows` | valp_cli/control_plane.py:2033-2040 | the record just appended is the one its entry shows for its layer; every other layer and entry is as before |
| `CapabilityEntries.LastWriterWins` | valp_cli/control_plane.py:2033-2040 | over any ledger, an entry shows for each layer the last record of that entry and layer |
| `CapabilityEntries.LayerIffRecorded` | valp_cli/control_plane.py:2033-2040 | an entry has a layer if and only if some record is of that entry and layer |
| `CapabilityEntries.EffectiveStatusIs` | valp_cli/control_plane.py:2039-2039 | an entry passes if its last live call passed, and otherwise has the status of its last record of any layer, unknown without one |
| `CapabilityEntries.FirstNamesEntry` | valp_cli/control_plane.py:2033-2035 | an entry is named after the first record that is its own |
| `CapabilityEntries.SeparableKeys` | valp_cli/control_plane.py:2033-2035 | subjects in which no separator begins share an entry only if subject and capability are the same |
| `CapabilityEntries.InseparableCollides` | valp_cli/control_plane.py:2033-2035 | a subject in which a separator begins shares each of its entries with another subject |
| `CapabilityRegistry.MoveKeeps` | valp_cli/control_plane.py:1993-2061 | no move of any process breaks what ties registry, ledger, keys and state together, as long as a call that goes on meets the start condition |
| `CapabilityRegistry.RegistryIsCache` | valp_cli/control_plane.py:1993-2061 | over every run whose calls meet the start condition when they go on, kills and aborted batches included, whenever the installation is not reconciling the entries are the fold of the ledger and show the last record of every layer, the records are numbered without a gap, the last sequence is their number, the revision the state's |
| `CapabilityRegistry.InitialRegistryExact` | valp_cli/control_plane.py:746-820 | the registry that `init` leaves is exact |
| `CapabilityRegistry.RegistryFiles.Reconcile` | valp_cli/control_plane.py:2011-2048 | the loop appends the records before the first unknown layer; if there is none the registry moves to the next revision, its last sequence grows by the batch, and an exact registry stays exact and shows the last record of every layer; otherwise it is unchanged |
| `CapabilityRegistry.RecordsAt` | valp_cli/control_plane.py:2014-2031 | the records of a batch are its observations up to the first unknown layer, numbered from the last sequence and in the epoch that was read |
| `ReconcileKeys.StartKeyInjective` | valp_cli/control_plane.py:2009-2009 | start keys formed from different revisions differ |
| `ReconcileKeys.FinishKeyInjective` | valp_cli/control_plane.py:2059-2059 | completion keys formed from different registry revisions differ |
| `ReconcileKeys.DigitsReadBack` | valp_cli/control_plane.py:2009-2009 | a revision is written in decimal digits without a leading zero and reads back as itself |
| `ReconciliationCalls.FinishIff` | valp_cli/control_plane.py:2049-2060 | a completion from the state just read, under a new key, is accepted if and only if the status may lead to active and a leader has been activated; it then records the registry revision |
| `ReconciliationCalls.StartCases` | valp_cli/control_plane.py:2000-2010 | a call goes on either on a new start from the current revision or on a replayed one that changes nothing |
| `ReconciliationCalls.WholeCallRun` | valp_cli/control_plane.py:1993-2061 | what an undisturbed call leaves of ledger, registry and state: its records, the registry at the next revision if the batch is known, and the completion if the status allows it |
| `ReconciliationCalls.WholeCallIff` | valp_cli/control_plane.py:1993-2061 | an undisturbed call leaves the cache valid exactly as the revision it read, the status it finds, the registered observations and the layers of its batch say, over every status |
| `ReconciliationCalls.StartSafeIff` | valp_cli/control_plane.py:1993-2061 | a call that goes on meets the start condition if and only if no continuation without further starts, kills included, shows an inexact registry outside a reconciliation |
| `ReconciliationCalls.BreakingRun` | valp_cli/control_plane.py:1993-2061 | the run that breaks the cache after a start that does not meet the condition |
| `ReconciliationCalls.KnownCallCompletes` | valp_cli/control_plane.py:1993-2061 | an undisturbed call with a known batch that meets the condition ends active with an exact registry |
| `ReconciliationCalls.CompletesWhileReconciling` | valp_cli/control_plane.py:2049-2060 | when calls meet the condition, whoever completes does so while reconciling |
| `ReconciliationCalls.StaleCallEnds` | valp_cli/control_plane.py:1993-2061 | an undisturbed call on a replayed start, outside a reconciliation, changes the status if and only if its batch is known and the status may lead to active |
| `ReconciliationCalls.StaleStartIsReplayed` | valp_cli/control_plane.py:2000-2010 | a start from a state from which as many observations were started before is replayed, however much has happened since; key and content follow from the state |
| `ReconciliationCalls.StaleCallDiverges` | valp_cli/control_plane.py:1993-2061 | such a call, through its completion, ends active or degraded with an inexact registry |
| `ReconciliationCalls.UnknownLayerStrands` | valp_cli/control_plane.py:2014-2016 | the loop of a call leaves the reconciliation open with nobody to complete it if and only if its batch has an unknown layer |
| `ReconciliationCalls.StrandedForever` | valp_cli/control_plane.py:1993-2061 | an open reconciliation that nobody will complete, and of whose start no process yet to submit holds a state, stays open over every run |
| `ReconciliationCalls.StrandedIff` | valp_cli/control_plane.py:1993-2061 | an open reconciliation that nobody at work will complete can end if and only if some process that has not submitted yet holds, or the state file shows, a state from which one was started |
| `ReconciliationCalls.LoneCallStrandsIff` | valp_cli/control_plane.py:1994-2016 | one process and no other: after the loop of its call the installation is reconciling for good, whoever comes later, if and only if the batch has an unknown layer |
| `DraftMigration.AttemptKeeps` | valp_cli/control_plane.py:2804-3077 | an attempt killed anywhere keeps the migration in one of its three phases; with an orphan in the root it changes nothing but what recovery would |
| `DraftMigration.MigrationConverges` | valp_cli/control_plane.py:2804-3077 | after any kills, an attempt that is not killed returns its receipt and ends migrated, two transitions later, if and only if no temporary file is left in the root; `MigrationResult` says field by field what migrated means |
| `DraftMigration.MigrationResult` | valp_cli/control_plane.py:3012-3077 | what a returned migration has made of the root, field by field: installation.json says 0.3.0 and is otherwise the original; the manifest has the stable versions and paths, its implementation and its digest; the state is active two revisions on with the same leaders, epoch and registry revision; the ledger has the approval of the plan and the activation of the receipt; other files are unchanged |
| `DraftMigration.ReturnedMeansChecked` | valp_cli/control_plane.py:2827-3024 | on a root of any origin, a receipt is returned only with the inventory, epoch, registry revision, revision and file digests of the plan, and later only with a valid snapshot, unchanged leaders and other files, ledgers that replay, and for a receipt already there the two stable documents |
| `DraftMigration.CleanKillsConverge` | valp_cli/control_plane.py:2804-3077 | kills that fall between replacements never prevent the migration from returning its receipt |
| `DraftMigration.OrphanBlocksForever` | valp_cli/control_plane.py:2831-2836 | once a temporary file is left in the root, no attempt changes anything beyond recovery |
| `DraftMigration.KillInsideReplacement` | valp_cli/control_plane.py:497-509 | an instance: a kill while the approval journal is being replaced leaves its temporary file, and no later attempt completes the migration |
| `ContinuationDecisions.SameKeyIff` | valp_cli/continuation.py:172-177 | an invocation key separates envelopes by task, suspension, epoch, wake and generation |
| `ContinuationDecisions.MatchesIff` | valp_cli/continuation.py:365-381 | an event of one envelope matches another if and only if key, wake event, payload and contract digests, target and envelope digest agree |
| `ContinuationDecisions.MarkerIff` | valp_cli/continuation.py:686-696 | the in-flight markers of two envelopes are the same if and only if task, wake, generation, target and both digests agree |
| `ContinuationStore.FirstIsHas` | valp_cli/continuation.py:365-381 | the first matching event exists exactly when some event matches, and is one of the ledger |
| `ContinuationRuns.AppendSuccess` | valp_cli/continuation.py:335-363 | the next acknowledgement of a persisted envelope extends its chain by one and no other chain |
| `ContinuationRuns.PendingKeeps` | valp_cli/continuation.py:469-490 | `pending`, killed anywhere, keeps the store invariant and takes nothing back |
| `ContinuationRuns.ReceiveKeeps` | valp_cli/continuation.py:492-504 | `receive`, killed anywhere, keeps the store invariant and takes nothing back |
| `ContinuationRuns.ClaimKeeps` | valp_cli/continuation.py:506-524 | `claim` keeps the store invariant, and a claim that succeeds is acknowledged |
| `ContinuationRuns.FinalizeKeeps` | valp_cli/continuation.py:610-647 | finalization, killed anywhere, keeps the store invariant; completed, the wake is consumed, unmarked and has its receipt |
| `ContinuationRuns.FinalizeCore` | valp_cli/continuation.py:610-647 | finalization, killed anywhere, keeps events bound to persisted envelopes and receipts valid, for every digest function |
| `ContinuationRuns.NamedPositions` | valp_cli/continuation.py:335-363 | the chain of a key is every success event under it, each once, in ledger order |
| `ContinuationDecisions.PendingIff` | valp_cli/continuation.py:469-490 | `pending` run to its end persists the envelope if and only if it is valid, carries the payload's digest, and its wake is new or was persisted like this before; a new wake gets its two files and one event, a repetition nothing, anything else one rejection |
| `ContinuationDecisions.PendingRetryIff` | valp_cli/continuation.py:469-490 | after a killed `pending`, a retry persists the envelope if and only if the first call wrote nothing or all three records |
| `ContinuationDecisions.StrandedForever` | valp_cli/continuation.py:447-490 | a wake whose directory exists without its pending event is never persisted, in any run |
| `ContinuationDecisions.ReceiveIff` | valp_cli/continuation.py:492-504 | `receive` run to its end verifies the digest if and only if the envelope is persisted with this payload, or was verified before; otherwise it leaves one rejection |
| `ContinuationDecisions.ClaimIff` | valp_cli/continuation.py:506-524 | `claim` run to its end accepts the wake if and only if it is persisted and verified, or was accepted before; a conflicting claim does not occur in runs |
| `ContinuationDecisions.RegisterIff` | valp_cli/continuation.py:526-543 | a capability is registered if and only if its proofs are complete and none, or the same, is there |
| `ContinuationDecisions.ValidReceiptIff` | valp_cli/continuation.py:569-608 | a receipt is valid if and only if it is the one for this envelope and capability, with some invocation and turn |
| `ContinuationRuns.InvokesIff` | valp_cli/continuation.py:657-696 | on a store of any origin, and whether or not the caller can reconcile, the provider is invoked if and only if the envelope is persisted, the capability fits, no consumed event matches, and neither receipt nor marker stands |
| `ContinuationRuns.DecisionIs` | valp_cli/continuation.py:657-696 | every decision of `consume` on a store as runs leave it: raise, return the receipt of a consumed wake, finish an unconsumed receipt, reconcile or raise under a marker, invoke otherwise |
| `ContinuationInvocations.InvokeMeansUnspent` | valp_cli/continuation.py:657-696 | `consume` decides to invoke only if the wake has neither marker nor receipt, and the marker it then writes precedes the call |
| `ContinuationInvocations.StepKeeps` | valp_cli/continuation.py:469-756 | every locked section and provider call also keeps the acknowledgement chains, when keys do not collide |
| `ContinuationInvocations.StepCore` | valp_cli/continuation.py:469-756 | every locked section and provider call keeps what at-most-once rests on, for every digest function |
| `ContinuationInvocations.AtMostOnce` | valp_cli/continuation.py:649-723 | over every interleaving of calls, deaths and provider exceptions, and for every digest function, the provider of a wake is invoked at most once |
| `ContinuationInvocations.AcknowledgementChain` | valp_cli/continuation.py:469-647 | in every run the success events of a key are bound to its one envelope and are a prefix of the declared order |
| `ContinuationInvocations.ConsumedMeansProven` | valp_cli/continuation.py:569-647 | in every run, and for every digest function, a consumed event is backed by a stored receipt that the capability authenticates and the event digests |
| `ContinuationInvocations.ConsumedIsFinal` | valp_cli/continuation.py:649-723 | once consumed, whatever runs next and for every digest function: the receipt stays, and `consume` returns it if the envelope reads as persisted and the evidence files are present, and raises otherwise, without a provider call |
| `ContinuationDecisions.ConsumedReturns` | valp_cli/continuation.py:657-669 | after any run, `consume` of a consumed wake returns its receipt if and only if contract and suspension are current and the evidence files are present, and raises otherwise |
| `ContinuationDecisions.ConsumeSucceeds` | valp_cli/continuation.py:649-723 | a verified wake without a receipt is consumed with the provider's receipt: by one invocation if no marker stands, and by reconciliation without any if one does; every other wake is as before |
| `ContinuationDecisions.DeliverySucceeds` | valp_cli/continuation.py:469-723 | from any world of a run, a new wake that the capability fits is pended, received, claimed, invoked once and consumed, with the whole chain and no marker |
| `ContinuationInvocations.ConsumedChainIsFull` | valp_cli/continuation.py:610-647 | the chain of a consumed wake is complete and no run adds to it |
| `ContinuationInvocations.ReceiptFinishesWithoutProvider` | valp_cli/continuation.py:670-678 | a death after the receipt write is finished by a later `consume` without calling the provider, with the whole chain and no marker |
| `ContinuationAudit.CheckLedger` | valp_cli/audit.py:268-455 | the audit's loops collect exactly the errors of `AuditErrors`, in order, those of the control contract and evidence files included |
| `ContinuationAudit.AuditIff` | valp_cli/audit.py:268-455 | on a ledger of any origin the audit passes if and only if events are numbered, of this task and sealed, every success event has a pending one of its key, and every pending event is sound: artifacts, payload, contract, correlation, order, marker, and receipt once consumed |
| `ContinuationAudit.WakeReports` | valp_cli/audit.py:303-376 | on a ledger of any origin each error about a wake is reported if and only if its own cause holds: artifact, binding, payload, contract, correlation, order, marker |
| `ContinuationAudit.ReceiptReports` | valp_cli/audit.py:377-447 | on a ledger of any origin each error about a receipt is reported if and only if its own cause holds, given the first started and consumed events of the key |
| `ContinuationAudit.AuditAgreesOnReceipts` | valp_cli/audit.py:399-429 | the audit accepts a receipt with an invocation and a turn if and only if the capability fits and `consume` would have validated it |
| `ContinuationAudit.AuditPassesIff` | valp_cli/audit.py:268-455 | on a ledger the store built, the audit passes if and only if no event names another task, every pending wake's control contract is unchanged, and every consumed wake has no marker and intact evidence files |
| `ContinuationAudit.AuditOfRuns` | valp_cli/audit.py:268-455 | the same for the ledger of every run and any files of other writers: correlation, order, receipt and capability checks never fire |
| `ContinuationAudit.ForeignRejectionPoisons` | valp_cli/continuation.py:487-512 | one envelope of another task refused by `pending`, `receive` or `claim`, also within `consume`, makes the audit fail after every further run |
| `ContinuationAudit.RewrittenContractFails` | valp_cli/audit.py:323-330 | a control contract rewritten after its envelope was accepted fails the audit at any later point of the run |
| `ContinuationAudit.KillBeforeUnlinkRetainsMarker` | valp_cli/continuation.py:644-647 | a kill between the consumed event and the removal of the marker makes the audit fail |
| `ContinuationAudit.RetainedMarkerIsForever` | valp_cli/continuation.py:649-723 | a consumed wake whose marker nobody is about to remove fails the audit after every further run |
| `ContinuationFiles.ContinuationFileStore.PendingEnvelope` | valp_cli/continuation.py:469-490 | the writes of `pending`, killed anywhere, leave the store that `Pending` describes |
| `ContinuationFiles.ContinuationFileStore.ReceiveEnvelope` | valp_cli/continuation.py:492-504 | the writes of `receive` leave the store that `Receive` describes |
| `ContinuationFiles.ContinuationFileStore.ClaimEnvelope` | valp_cli/continuation.py:506-524 | `claim` succeeds exactly when the envelope is claimable and leaves the store that `Claim` describes |
| `ContinuationFiles.ContinuationFileStore.FinalizeReceipt` | valp_cli/continuation.py:610-647 | the writes of the finalization, killed anywhere, leave the store that `Finalize` describes |
| `ContinuationFiles.ContinuationFileStore.DecideInvocation` | valp_cli/continuation.py:657-696 | the locked decision of `consume`: it is to invoke if and only if the envelope is persisted, the capability fits, no consumed event matches and neither receipt nor marker stands, and the marker is written exactly then, before the call |
| `KernelStore.ReplayIff` | valp_cli/protocol_kernel.py:1757-1798 | replay passes if and only if every result is the one the reducer gives on the state of the entry before, and ends in the state of the last |
| `KernelStore.AppliedIs` | valp_cli/protocol_kernel.py:1757-1798 | what a replay returns as applied is the result digest of every entry, in order |
| `KernelStore.RecoverIff` | valp_cli/kernel_store.py:631-649 | on a store of any origin recovery succeeds if and only if genesis is valid, every result holds, and a checkpoint is authentic and has the digest and state of a prefix |
| `KernelStore.InitializeIff` | valp_cli/kernel_store.py:571-588 | a store is initialized if and only if the genesis is valid and nothing has been written |
| `KernelStore.AppendIff` | valp_cli/kernel_store.py:590-610 | an entry is appended if and only if its event identity is new and its result is the one the reducer gives on the last accepted state |
| `KernelStore.RecordIff` | valp_cli/kernel_store.py:723-802 | an effect is recorded if and only if its obligation is an adapter cancellation of some accepted entry, its proof is in place and its effect has no record |
| `KernelStore.NextRecordIs` | valp_cli/kernel_store.py:723-802 | a record holds what it was made for, its position and the digest of the record before |
| `KernelStore.ReplaySplits` | valp_cli/protocol_kernel.py:1757-1798 | replay of a concatenation is replay of the rest from the state of the first part, result digests included |
| `KernelStore.CheckpointSurvivesAppend` | valp_cli/kernel_store.py:631-649 | a checkpoint of a journal stays a valid prefix when the journal grows |
| `KernelStore.RecoverAgreesWithReplay` | valp_cli/kernel_store.py:631-649 | recovery never raises and returns the state of full replay from genesis, with or without a checkpoint |
| `KernelStore.RunKeeps` | valp_cli/kernel_store.py:571-836 | under every interleaving of the operations both ledgers stay loadable and lose no record, and every effect keeps an accepted obligation |
| `KernelStore.RunRecovers` | valp_cli/kernel_store.py:631-660 | in every run from an empty store, recovery agrees with full genesis replay |
| `KernelStore.ObligationsDistinct` | valp_cli/kernel_store.py:662-671 | the listed obligations are distinct and are exactly those of some accepted entry |
| `KernelStore.ReconcilesIff` | valp_cli/kernel_store.py:673-694 | reconciliation succeeds if and only if every record has an accepted obligation and an unchanged proof file |
| `KernelStore.ReconcileIs` | valp_cli/kernel_store.py:673-694 | pending are the accepted obligations without a record, fulfilled and blocked the records by status |
| `KernelStore.RunReconciles` | valp_cli/kernel_store.py:673-694 | in every run the ledger loads, reconciliation succeeds if and only if the proof files are as recorded, and pending, fulfilled and blocked partition the obligations, each in acceptance order |
| `KernelStore.RecordingMovesOne` | valp_cli/kernel_store.py:723-802 | a new record takes exactly its obligation out of pending, enters the list of its status and leaves the other list alone |
| `KernelStore.StatusIsFinal` | valp_cli/kernel_store.py:723-802 | a recorded obligation keeps its record and status in every later run |
| `KernelFiles.ReplayEntries` | valp_cli/protocol_kernel.py:1757-1798 | the replay loop computes the recursive replay, and fails exactly when it does |
| `KernelFiles.KernelFileStore.RecoverEntries` | valp_cli/kernel_store.py:631-649 | recovery over the loops returns what `Recover` describes |
| `KernelFiles.KernelFileStore.Append` | valp_cli/kernel_store.py:590-610 | an entry already there is a no-op, another entry under its event identity a conflict, and the journal grows by the entry if and only if its identity is new and its result is the reducer's on the last state; the returned state is that of full replay |
| `KernelFiles.KernelFileStore.LoadEffects` | valp_cli/kernel_store.py:498-542 | the effect ledger loads if and only if the whole hash chain is intact and no effect occurs twice |
| `KernelFiles.KernelFileStore.ListObligations` | valp_cli/kernel_store.py:662-671 | the nested loops list every obligation once, in acceptance order |
| `KernelFiles.KernelFileStore.Record` | valp_cli/kernel_store.py:723-802 | a record is added if and only if the obligation is an accepted cancellation, the proof is in place and the effect has no record; otherwise it is returned as already there or refused, and the ledger invariant is kept |
| `KernelFiles.KernelFileStore.SaveCheckpoint` | valp_cli/kernel_store.py:804-836 | a checkpoint is stored if and only if it is authentic and has the digest and the state of a prefix of the journal |
| `Catalog.Visit` | valp_cli/catalog.py:433-446 | depth-first search from one fixture: success finishes it on no cycle, failure means a cycle or an unknown dependency |
| `Catalog.CheckFixtureGraph` | valp_cli/catalog.py:426-449 | the check terminates and accepts if and only if every dependency is known and there is no cycle |
| `Catalog.MergedFixturesCanCycle` | valp_cli/catalog.py:572-591 | an accepted fixture graph exists, without a dependency on its own entry, whose content-addressed entries form a cycle |
| `Catalog.MergedAcyclicIff` | valp_cli/catalog.py:572-591 | the graph of the entries is closed, and acyclic, so that the cycle check accepts it, if and only if no entry reaches itself over the indexed edges |
| `Catalog.MergedAcyclicIffNoContentCycle` | valp_cli/catalog.py:572-591 | the entries are acyclic if and only if no chain of fixtures, each depending on something with the content of the next, leads from a content back to itself |
| `Catalog.DistinctContentsStayAcyclic` | valp_cli/catalog.py:572-591 | fixtures of distinct contents that pass the cycle check give acyclic entries |
| `Catalog.ReindexedAcyclicIff` | valp_cli/catalog.py:573-591 | after an indexing run over the edges of earlier ones the dependencies are acyclic if and only if the new edges and the kept ones are |
| `Catalog.Descendants` | valp_cli/catalog.py:808-823 | the recursive query finds exactly the entries reachable from the root, on any graph |
| `Catalog.DependentsReached` | valp_cli/catalog.py:572-591 | whatever depends on a fixture, directly or through others, has an entry reached from that fixture's entry |
| `Catalog.EvidenceCatalog.Invalidate` | valp_cli/catalog.py:801-857 | the root becomes invalid, every reachable entry stale unless already invalid, and nothing else changes |
| `CostGovernance.RoundHalfEven` | valp_cli/cost_governance.py:69-70 | the result is a nearest micro-dollar, and the even one on a tie |
| `CostGovernance.UsageLedger.Append` | valp_cli/cost_governance.py:20-38 | identifiers stay distinct; an equal event changes nothing, a reused identifier is refused, a new event is appended |
| `CostGovernance.EstimateIs` | valp_cli/cost_governance.py:99-112 | in each price class input tokens are charged at the input rate and output tokens at the output rate, to the nearest micro-dollar |
| `CostGovernance.ReportIff` | valp_cli/cost_governance.py:121-201 | a report is built if and only if every recorded event, planned event and bill meets the conditions written out: task, schema, agent, snapshot, dates, tokens, attribution, identifiers, currency, evidence, amount |
| `CostGovernance.BuildReport` | valp_cli/cost_governance.py:159-214 | the usage, planning and billing loops compute the recursive report and fail exactly when it does; accumulated and projected totals are within half a micro-dollar per event of tokens times rates, in every price class |
| `CostGovernance.AcceptsIff` | valp_cli/cost_governance.py:172-184 | the usage loop accepts if and only if every event is priced and attributed and equal identifiers mean equal events |
| `CostGovernance.AttributesEachOnce` | valp_cli/cost_governance.py:145-182 | the report attributes every distinct event once, in the order of first use, with its identifier, agent and fields |
| `CostGovernance.BillingIff` | valp_cli/cost_governance.py:189-201 | billing is refused if and only if an event is not billable or an identifier repeats, and otherwise adds up |
| `CostGovernance.BilledIs` | valp_cli/cost_governance.py:189-207 | nothing is reported as billed without a bill, and otherwise the sum of all bills to the nearest micro-dollar |
| `CostGovernance.FirstUsesAre` | valp_cli/cost_governance.py:172-182 | the distinct events are each taken at their first occurrence, in order |
| `CostGovernance.TallyIs` | valp_cli/cost_governance.py:172-184 | totals are the sums over the set of distinct events, overall and for each agent |
| `CostGovernance.PlannedIs` | valp_cli/cost_governance.py:185-188 | planned usage goes to its own agent's projection, as often as it is listed, and changes nothing that was accumulated |
| `CostGovernance.ReportAgents` | valp_cli/cost_governance.py:170-188 | the agents of a report are those of its recorded and planned events |
| `CostGovernance.OrderIrrelevant` | valp_cli/cost_governance.py:159-214 | duplicates and reordering change neither acceptance nor any total |
| `CostGovernance.LedgerHasNoConflict` | valp_cli/cost_governance.py:172-184 | a ledger built by `append_event` never meets a conflicting identifier |
| `CostGovernance.ReportConserved` | valp_cli/cost_governance.py:159-214 | the agents' totals add up to the task's in every price class, accumulated and projected |
| `CostGovernance.AccumulatedBound` | valp_cli/cost_governance.py:99-142 | each accumulated total is within half a micro-dollar per distinct event of the sum of tokens times rates, written out per price class |
| `CostGovernance.BudgetGate` | valp_cli/cost_governance.py:217-251 | passing or failing the cap bounds the projected cost, as tokens times official-list rates, to within half a micro-dollar per event |

## Left out

- File locks, fsync, JSON encoding, torn JSONL lines and platform file errors: a locked section is atomic and a write is one step.
- SHA-256 and canonical JSON: digests are arbitrary functions of values.
- Shape checks of envelopes, receipts, passports and snapshots (field sets, digest patterns, safe references, timestamps): the model's types already have the shape.
- `failures.jsonl`, leader passports, activation receipts and other evidence files of the leader operations: reduced to whether their checks pass; the session binding is kept as far as epochs need it.
- `activate_leader` writes the binding before its transition: the binding is a separate step of the run and no atomicity of the pair is claimed.
- The health-failure event has a contract but no caller in `valp_cli`; the model lets it be submitted while active only.
- InstallationControl.InstallationCore.constructor: kills between the single file writes of `init` are not steps; a root without `state.json` is refused by every entry point.
- Session hiding in `_authority_view`, and the 0.2.0 directory migration.
- The rollback path of the draft migration: the model has no I/O exceptions, and no other exception occurs in it. Migration is modelled on values, not as an object updated in place.
- Observation identifiers, source fields and digests of capability records; the projection digest of the registry.
- Provider adapters, sockets and polling behind `invoke` and `reconcile`: any result or exception.
- `recover_pending`.
- The Kernel reducer, the validity of roots and checkpoint authentication: arbitrary functions, so replay is proved for every reducer.
- Catalog search, media types, `sweep` and the `context` budget loop: they would add only easy members.
- Validation of pricing snapshots; decimal precision is taken to suffice.
- The remaining audit checks, doctor, command line, conformance runner, plugins and delegation.
