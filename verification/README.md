# TunnelBoard: verified models of its stateful protocols and vault transformations

TunnelBoard keeps SSH forwards, local web routes and a sealed vault, and must survive crashes, concurrent calls
and partial failures. This project models the parts where that is hard and proves what they promise. Run
`dafny verify dfyconfig.toml` to check everything.

| file | what it models |
|---|---|
| `RestoreProtocol.dfy` | the durable half of a full restore: single atomic writes, which of them are allowed when, and what every crash point leaves for recovery |
| `RestoreRecovery.dfy`, `RestoreCommit.dfy` | the effects adapter (compensation, startup recovery), the eight-phase commit and the activation afterwards; every port call may fail, and ungated vault writes may happen between any two |
| `RecoveryGate.dfy` | the maintenance flag, the mutation mutex and the re-read of the recovery state, as interleaved steps of any number of calls |
| `ForwardRuntime.dfy`, `RuntimeBiz.dfy` | the run table: its sections under the mutex, all their interleavings with dials, stops, watchers and finishers, and the class itself |
| `ConnectionPool.dfy` | shared first hops with references and generations, raced by watchers, keepalives, captured aborts and retirement |
| `RouteSteps.dfy`, `RouteEffects.dfy` | applying, compensating and neutralizing hosts, Caddy and CA trust under a write-ahead journal: every port call as a step, so that a crash may fall between any two, and the class itself, proved call by call to take those steps |
| `VaultModel.dfy`, `ImportRemap.dfy`, `Catalog.dfy` | the vault's well-formedness, appending import, cascade deletion |
| `RoutePlan.dfy`, `RouteChange.dfy` | compiling routes to hosts entries and a Caddy configuration, previewing and committing a change |
| `HostsFile.dfy`, `SourceWriter.dfy`, `CommandCache.dfy`, `PrivilegedSession.dfy` | the managed hosts block, the log line writer, the command result cache, the Linux root session |
| `Common.dfy` | shared datatypes and string helpers |

A crash is modelled as "no further durable write" and, for the router, as a step of its own that loses the Caddy
process: statements about every prefix of a write log or of a run are statements about every crash point. The
router is part of the disk a restore works on (`Disk.routes`), so restore, recovery and activation drive the same
machine that the route theorems speak of. Interleaved protocols are step functions with an invariant kept by every
step of every run; the classes' methods are proved to move the state exactly as those functions say. Nondeterministic ports (`ok := *`) stand for files, processes,
the network, certificate stores, polkit and clocks; where success is stated as an if-and-only-if, a ghost count of
failed port calls says that nothing else fails, or what a port answers is a parameter.

## Where the code and its promises differ

- A restore can be planned over a vault that an earlier restore left isolated: `CommitRestore` asks neither for
  quarantine nor for a pending journal. If the process then dies before the rename, recovery takes the old-vault
  path and clears the quarantine without an activation, although service.go:1579 calls activation the only way
  out. `VisibilityIsLostOnlyByRemovingANestedJournal` gives the exact condition, `IsolationStaysVisible` the
  guarantee without such nesting, `NestedRestoreCanLoseIsolation` the counterexample.
- At `replacing_vault` an ungated write to the old vault changes its digest, and recovery then settles on
  isolation although nothing was replaced. That errs on the safe side; `VerdictIsExactUnlessTheOldVaultDrifted`
  is the exact condition. A journal of an older release, without a digest, can err on the other side
  (`LegacyJournalCanMissAReplacement`).
- `Compensate` reconciles routes only if neutralizing had fully succeeded, so routes may stay half undone after a
  compensation that reports success.
- The recorded `quarantined` of the routes is meant to show that nothing is left of them, and startup takes it at
  its word. An application may however be begun over a pending transaction while `quarantined` is on record, and
  when it is rolled back the pending record goes and the old state stays. `ApplyStaysTruthfulIff` says when every
  application is safe, `QuarantineIsTruthful` what holds over all runs with that caution, `HeedlessRunCanLie` is a
  run from a restored machine: an activation dies after its hosts write, the cleanup at the next start fails, a
  second activation is rolled back and dies between clearing its journal and recording its failure, and the record
  claims what is not so. `ConvergePersistedQuarantine` then skips the cleanup; it is right exactly when the record
  was truthful.
- Rolling Caddy back needs the configuration file to name what was running (`CaddyComesBackIff`), and a taken port
  during that rollback is not reported (`TakenPortGoesUnreported`). A rollback whose last write fails after the
  applied state had been recorded leaves that state (`RollbackCanStayApplied`).
- `CommitImport` takes the mutation mutex without looking at maintenance again, and neither it nor the host save
  without an identity change ever asks for the recovery state (`LockOnly` in `RecoveryGate`).
- Removing the managed hosts block removes the first block only; a second one is read next
  (`RemovalReadsTheNextBlock`).
- A custom upstream Host that is literally Caddy's request-host placeholder means the requested host
  (`HandlerMeaning`, `CompiledMeaning`).

## Model

| member | source | states |
|---|---|---|
| RestoreProtocol.WriteKeepsCrashSafe | internal/application/restore.go:217-283 | every single durable write of the restore discipline, and every vault write that bypasses the gate, keeps the facts recovery relies on: before `replacing_vault` the vault is the old one, after it the candidate, and a recorded storage digest never equals the candidate's |
| RestoreProtocol.EveryCrashPointIsSafe | internal/biz/backup_restore.go:136-252 | the same after every prefix of every allowed write log, that is, at every crash point |
| RestoreProtocol.CandidateIsNeverTakenForOldVault | internal/application/restore.go:239-252 | whatever ungated writers did, recovery never judges a live candidate to be the old vault, so it never resumes old forwards or routes over it |
| RestoreProtocol.VerdictIsExactUnlessTheOldVaultDrifted | internal/application/restore.go:239-252 | recovery's verdict is right if and only if the journal does not stand at `replacing_vault` over an old vault whose digest an ungated write has changed |
| RestoreProtocol.LegacyJournalCanMissAReplacement | internal/application/restore.go:246-250 | witness: a journal without storage digest can take the candidate for the old vault |
| RestoreProtocol.VisibilityIsLostOnlyByRemovingANestedJournal | internal/application/service.go:1579-1609 | a restored, not yet activated vault stays visible to the gate as quarantined or pending unless the one write happens that removes a journal planned over it |
| RestoreProtocol.IsolationStaysVisible | internal/application/service.go:1579-1609 | over every run without such nested planning the restored vault is visible until it is activated |
| RestoreProtocol.NestedRestoreCanLoseIsolation | internal/application/restore.go:265-283 | the other half: planning over an isolated vault, dying and recovering loses the isolation in three allowed writes around a crash, so activation is not the only way out |
| RestoreProtocol.RouteStepKeepsCrashSafe | internal/biz/router.go:161-515 | every step of the router, allowed beside a restore journal or without one, keeps the disk crash safe; over a live candidate the routes stay undone |
| RestoreProtocol.QuarantinesPartOnlyByRemovingANestedJournal | internal/application/restore.go:254-283 | a quarantine recorded by the router always comes with one of the whole network or a journal, except for the one write that removes the journal of a restore planned over quarantined routes |
| RestoreProtocol.WriteKeepsTrust | internal/application/restore.go:285-309 | every write that heeds the routes' record keeps that record trustworthy |
| RestoreProtocol.EveryHeedfulCrashIsTruthful | internal/application/restore.go:285-309 | over every such run of restores, recoveries, activations and route changes, and dying anywhere, `quarantined` without a pending transaction means for the next startup that nothing is left of the routes |
| RestoreRecovery.RestoreEffectsAdapter.Put | internal/application/restore.go:383-411 | one atomic durable write, within the discipline, keeps the disk crash safe |
| RestoreRecovery.RestoreEffectsAdapter.WriteJournal | internal/application/restore.go:122-130 | the record is replaced as a whole or not at all, and the active transaction follows only on success |
| RestoreRecovery.RestoreEffectsAdapter.PrepareCandidate | internal/application/restore.go:111-120 | a sealed candidate under an unused name and nothing else; a failure leaves no named candidate |
| RestoreRecovery.RestoreEffectsAdapter.ReplaceVault | internal/application/restore.go:151-159 | only a candidate prepared by this process is renamed over the vault |
| RestoreRecovery.RestoreEffectsAdapter.CommitJournal | internal/application/restore.go:165-175 | the suspend plan is dropped and the record removed; a failure leaves the record |
| RestoreRecovery.RestoreEffectsAdapter.Answers | internal/biz/router.go:161-515 | whatever the ports answer, an operation of the router that was begun on the disk's machine comes to one of its ends |
| RestoreRecovery.RestoreEffectsAdapter.NeutralizeRoutes | internal/biz/router.go:466-515 | success leaves every effect undone and recorded so; a failure has only taken away |
| RestoreRecovery.RestoreEffectsAdapter.RunApply | internal/biz/router.go:161-371 | an application reconciles the routes to the vault, puts hosts and trust back, or stays visibly pending |
| RestoreRecovery.ApplicationEnds | internal/biz/router.go:220-264 | every end of an application is one of these |
| RestoreRecovery.RestoreEffectsAdapter.ReconcileRoutes | internal/biz/router.go:144-149 | the same for what the live vault asks for; a record that cannot be superseded is refused |
| RestoreRecovery.RestoreEffectsAdapter.SuspendAll | internal/application/restore.go:132-145 | the plan names exactly the forwards that ran; on success none runs any more, on an error some may; the plan is kept for the active transaction either way |
| RestoreRecovery.RestoreEffectsAdapter.ResumeSuspended | internal/application/restore.go:185-197 | compensation restarts exactly the forwards the transaction suspended |
| RestoreRecovery.RestoreEffectsAdapter.Compensate | internal/application/restore.go:177-212 | a successful compensation leaves the old vault, every suspended forward running, the candidate gone and no journal; routes are reconciled exactly when neutralizing had succeeded; a failed one leaves the journal |
| RestoreRecovery.RestoreEffectsAdapter.ResumeNext | internal/application/restore.go:322-338 | one forward is started unless it ran already, and only then crossed off the durable record |
| RestoreRecovery.RestoreEffectsAdapter.ResumeJournalForwards | internal/application/restore.go:311-340 | wherever a resume stops, the record names exactly the forwards from there on, all before them run, and of those from there on at most the next one does |
| RestoreRecovery.ResumeStep | internal/application/restore.go:322-338 | one more resumed forward moves that boundary by one |
| RestoreRecovery.RestoreEffectsAdapter.ConvergeNewVault | internal/application/restore.go:254-265 | success means: new vault, quarantined, routes undone, named candidate gone, no journal; failure keeps the journal |
| RestoreRecovery.RestoreEffectsAdapter.ResumeOldVault | internal/application/restore.go:270-277 | from `runtime_suspending` on, success means routes reconciled and every named forward running; before it nothing is touched; a failure leaves exactly the unstarted forwards on record |
| RestoreRecovery.RestoreEffectsAdapter.ConvergeOldVault | internal/application/restore.go:267-283 | success means: old vault, not quarantined, forwards and routes back, candidate gone, no journal; a failure leaves exactly the unstarted forwards on record |
| RestoreRecovery.RestoreEffectsAdapter.ConvergePersistedQuarantine | internal/application/restore.go:289-309 | decides by the persisted status and the pending record alone; success over a recorded quarantine means undone routes if and only if that record was truthful |
| RestoreRecovery.RestoreEffectsAdapter.Converge | internal/application/restore.go:239-283 | decided by the digest and revision as read: the restored vault isolated, the very old vault resumed, or refused with nothing touched; only a port makes a decided case fail |
| RestoreRecovery.RestoreEffectsAdapter.RecoverJournal | internal/application/restore.go:217-283 | the same from the journal on, which must be readable, of a known phase and with a transaction id |
| RestoreRecovery.RestoreEffectsAdapter.RecoverPending | internal/application/restore.go:217-283 | a found journal ends on success in one of exactly two states, and with no vault write meanwhile recovery succeeds if and only if no port fails and the state is one it can decide: the recorded digest says replaced, or the vault is the very one recorded and its routes can be put back; any other is refused and left alone; on failure the journal names exactly the forwards not yet started again; while the candidate is live no forward is started, and none that ran already is started again; without a journal a quarantine ends with undone routes if and only if the routes' record was truthful |
| RestoreCommit.RestoreCoordinator.StageRestore | internal/biz/backup_restore.go:115-134 | a new preview always invalidates the previous one |
| RestoreCommit.RestoreCoordinator.Plan | internal/biz/backup_restore.go:179-186 | until the first record is written nothing is to be undone, and nothing has changed |
| RestoreCommit.RestoreCoordinator.Prepare | internal/biz/backup_restore.go:187-199 | the candidate is sealed and then recorded; a failure in between is to be undone |
| RestoreCommit.RestoreCoordinator.Begin | internal/biz/backup_restore.go:179-204 | plan, candidate and suspension intent, in that order, each recorded before the next step |
| RestoreCommit.RestoreCoordinator.Suspend | internal/biz/backup_restore.go:205-216 | the stopped forwards are recorded before routes are touched |
| RestoreCommit.RestoreCoordinator.Neutralize | internal/biz/backup_restore.go:217-229 | the rename is announced only over undone routes |
| RestoreCommit.RestoreCoordinator.Swap | internal/biz/backup_restore.go:230-238 | before the rename a failure is to be undone, after it never |
| RestoreCommit.RestoreCoordinator.Isolate | internal/biz/backup_restore.go:239-251 | quarantine is durable before its phase is recorded, and the phase before the journal goes |
| RestoreCommit.RestoreCoordinator.SuspendAndNeutralize | internal/biz/backup_restore.go:205-229 | runtime first, then routes; whatever fails leaves a transaction that can be undone |
| RestoreCommit.RestoreCoordinator.Approach | internal/biz/backup_restore.go:179-229 | up to the rename: nothing happened, a transaction to undo, or one recorded at `replacing_vault` over undone routes |
| RestoreCommit.RestoreCoordinator.Replace | internal/biz/backup_restore.go:230-251 | from the rename on: still to undo, pending with the candidate live, or restored into isolation |
| RestoreCommit.RestoreCoordinator.RollBack | internal/biz/backup_restore.go:255-265 | a commit that stopped before the rename ends on the old vault with nothing of the transaction left, or with its journal |
| RestoreCommit.DiscardUndoesTheSealing | internal/biz/backup_restore.go:255-265 | discarding the candidate gives back exactly the candidate files there were |
| RestoreCommit.RestoreCoordinator.CommitStaged | internal/biz/backup_restore.go:157-252 | one transaction from capture to end: it succeeds if and only if every port does; restored into isolation with nothing running, undone with exactly the forwards running that ran before, or pending on a journal that names this transaction, its facts and its forwards |
| RestoreCommit.RestoreCoordinator.CommitRestore | internal/biz/backup_restore.go:136-252 | each refusal comes in exactly its case, the stale preview among them, so whatever touches the disk was committed under the previewed facts; a token is consumed once; a commit past the refusals succeeds if and only if every port does, and a single failed port before the rename is undone; success restores the staged vault into isolation with every forward stopped, runtime before routes; an undone commit leaves the old vault and exactly the forwards that ran before; anything else leaves a journal with the previewed facts, the old vault's digest and the forwards to start again, and beside a renamed candidate nothing runs |
| RestoreCommit.ActivateRestoredNetwork | internal/application/service.go:1602-1649 | only a success lifts the quarantine, with routes in place and the automatic forwards running; only a port or a route record that cannot be superseded makes it fail; a failure keeps the quarantine, always asks for the routes to be undone and, once reconciled, for every forward to be stopped first, and tells exactly whether that succeeded |
| RestoreCommit.Activate | internal/application/service.go:1627-1646 | the same past its checks |
| RestoreCommit.StartAndLift | internal/application/service.go:1630-1646 | the quarantine is lifted only after every automatic forward has started |
| RestoreCommit.Withdraw | internal/application/service.go:1632-1645 | a withdrawn activation starts nothing and only takes routes away |
| RecoveryGate.OwnStep | internal/application/service.go:262-361 | a step of a call keeps what its position promises about mutexes, maintenance and recovery records |
| RecoveryGate.OtherStep | internal/application/service.go:262-361 | so it does for every other call, at any position |
| RecoveryGate.StepKeepsInv | internal/application/service.go:262-361 | every step of any number of interleaved calls keeps the gate's invariant |
| RecoveryGate.RunKeepsInv | internal/application/service.go:262-361 | and so does every run |
| RecoveryGate.GuardedBodyRunsOutsideRecovery | internal/application/service.go:287-303 | in every interleaving, while a guarded body runs there is no quarantine and no restore journal, nobody else holds the mutation mutex, and no next step changes that |
| RecoveryGate.BodyExcludesOthers | internal/application/service.go:1565-1577 | no restore or activation step can be taken beside a guarded body |
| RecoveryGate.StateIsOneObservation | internal/application/restore.go:36-50 | the flag read first and the journal probed last are one consistent observation |
| RecoveryGate.StepStaysPlain | internal/application/service.go:1565-1577 | a step keeps an isolated vault visible unless a restore is planned over it |
| RecoveryGate.IsolationIsNeverReportedOrdinary | internal/application/restore.go:36-56 | from the rename to the activation no reader sees neither quarantine nor journal, unless a restore is planned over the isolated vault |
| RecoveryGate.StepKeepsTrust | internal/application/service.go:316-336 | a guarded body may drive the router without asking for its record, since none is admitted under a quarantine; restores and activations have to heed it |
| RecoveryGate.GatedRunsStayTruthful | internal/application/service.go:262-361 | in every interleaving in which those two do, and wherever the process dies, what startup reads in the routes' record is true |
| RecoveryGate.OwnersCanGoOn | internal/application/service.go:262-361 | whoever owns a mutex or maintenance can take a step, or waits for a call that can |
| RecoveryGate.OnlyWritesWrite | internal/application/service.go:262-361 | a write is carried out by the call that takes the step, and no other step touches the disk |
| RecoveryGate.AdmissionIsExact | internal/application/service.go:287-361 | a guarded call alone reaches its body if and only if there is no maintenance, quarantine, journal or, where that matters, pending route transaction; turned away it leaves the gate as it was |
| RecoveryGate.LockOnlyAdmission | internal/application/service.go:1418-1424 | a call that never asks for the recovery state is turned away by maintenance alone |
| RecoveryGate.RestoreTakesTheGate | internal/application/service.go:1565-1577 | a restore is turned away only by another, and gives the gate back as it was |
| RecoveryGate.ActivationIsExact | internal/application/service.go:1602-1614 | an activation begins if and only if there is a quarantine without a journal and no maintenance |
| ForwardRuntime.EntryStep | internal/biz/runtime.go:148-225 | an entry's handle is published, and under the entry's own generation |
| ForwardRuntime.GhostStep | internal/biz/runtime.go:601-695 | no section leaves a live status without a published handle |
| ForwardRuntime.OwnStepKeepsTable | internal/biz/runtime.go:148-225 | every section keeps published entries and live statuses consistent |
| ForwardRuntime.OwnStepKeepsCall | internal/biz/runtime.go:148-225 | an in-flight start never finds a handle under its own generation |
| ForwardRuntime.OtherStep | internal/biz/runtime.go:148-225 | sections of other calls do not disturb it, and generations in flight stay distinct |
| ForwardRuntime.AccountStep | internal/biz/runtime.go:182-206 | a started handle stays published, stopped, ended or held by its start |
| ForwardRuntime.StepKeepsInv | internal/biz/runtime.go:286-402 | all of that under every step of any number of starts, stops, suspensions, watchers and finishers |
| ForwardRuntime.RunKeepsInv | internal/biz/runtime.go:286-402 | and over every run |
| ForwardRuntime.NoGhostAndNoLeakedRun | internal/biz/runtime.go:148-225 | in every reachable state a running or reconnecting status belongs to a published entry with a handle, and no successfully started handle is leaked |
| ForwardRuntime.StepStaysAlive | internal/biz/runtime.go:286-402 | every section keeps ended, stopped and closed entries retired |
| ForwardRuntime.EndedHandlesAreRetired | internal/biz/runtime.go:601-695 | in every reachable state a handle that ended or was told to stop is current only in a stopping entry, one whose stop succeeded is not current at all, a running entry is reported so, and while closing every entry is stopping |
| ForwardRuntime.EndOfACurrentRun | internal/biz/runtime.go:626-649 | the end of a current run nobody is stopping removes its entry alone and records how it ended |
| ForwardRuntime.NothingIsLeftBehind | internal/biz/runtime.go:148-402 | in every reachable state each entry is running, worked on by a call, or has a handle that was told to stop; so none without a handle is left once all calls have returned |
| ForwardRuntime.UndisturbedStart | internal/biz/runtime.go:148-225 | alone, a start whose dial succeeds publishes exactly its own entry and status, and one whose dial fails leaves an error and no entry |
| ForwardRuntime.UndisturbedStop | internal/biz/runtime.go:286-325 | alone, a stop that succeeds removes the entry, and one that fails leaves it stopping with an error |
| ForwardRuntime.StoppedWhileDialing | internal/biz/runtime.go:189-206 | a start stopped while it dials never publishes: it stops its handle itself and removes its entry |
| ForwardRuntime.UndisturbedSuspension | internal/biz/runtime.go:334-402 | alone, a suspension that succeeds removes the entry and returns |
| ForwardRuntime.UndisturbedShutdown | internal/biz/runtime.go:449-487 | a shutdown marks every entry and its worker removes the one it stopped |
| ForwardRuntime.CurrentRunIsReported | internal/biz/runtime.go:653-690 | what a watcher reports of a current run is shown, and a late stop of it removes it |
| ForwardRuntime.StaleActorsChangeNothing | internal/biz/runtime.go:601-695 | watchers, events, finishers, stops and shutdown workers of a replaced generation leave the table as it is |
| ForwardRuntime.StepKeepsSuspended | internal/biz/runtime.go:334-402 | a suspended generation never comes back to life |
| ForwardRuntime.RunKeepsSuspended | internal/biz/runtime.go:334-402 | over every run |
| ForwardRuntime.ResumedRunsAreNewer | internal/biz/runtime.go:405-419 | whatever runs concurrently, a start of a suspended forward that succeeds is backed by a strictly newer generation |
| RuntimeBiz.MarkWanted | internal/biz/runtime.go:343-362 | a plan lists each wanted, not yet stopping entry exactly once and in order |
| RuntimeBiz.ListsOneMore | internal/biz/runtime.go:343-362 | the plan grows by the least id not yet passed |
| RuntimeBiz.MarkAll | internal/biz/runtime.go:449-487 | a shutdown marks every entry |
| RuntimeBiz.RuntimeBiz.StartBegin | internal/biz/runtime.go:148-164 | reserves a fresh generation, or says why not |
| RuntimeBiz.RuntimeBiz.FinishStartFailure | internal/biz/runtime.go:601-609 | a failed start removes only its own generation |
| RuntimeBiz.RuntimeBiz.StartEnd | internal/biz/runtime.go:189-218 | publishes only into its own, still starting entry and never while closing |
| RuntimeBiz.RuntimeBiz.AbandonEnd | internal/biz/runtime.go:191-206 | the abandoned start cleans up only its own unpublished entry |
| RuntimeBiz.RuntimeBiz.StopBegin | internal/biz/runtime.go:286-300 | marks an entry stopping once |
| RuntimeBiz.RuntimeBiz.StopEnd | internal/biz/runtime.go:307-325 | removes the run it stopped, or records the error, and nothing of another generation |
| RuntimeBiz.RuntimeBiz.SuspendBegin | internal/biz/runtime.go:334-362 | captures and marks the wanted entries in one section |
| RuntimeBiz.RuntimeBiz.SuspendEnd | internal/biz/runtime.go:381-396 | settles one captured generation |
| RuntimeBiz.RuntimeBiz.ShutdownBegin | internal/biz/runtime.go:449-487 | closes the runtime for good |
| RuntimeBiz.RuntimeBiz.WatchDone | internal/biz/runtime.go:626-649 | a current run that ended by itself, with nobody stopping it, is gone and reported as stopped or as an error; anything else changes nothing |
| RuntimeBiz.RuntimeBiz.HandleEvent | internal/biz/runtime.go:666-690 | events move the status of the current generation only |
| RuntimeBiz.RuntimeBiz.FinishStopInBackground | internal/biz/runtime.go:653-664 | a late stop removes the current generation only |
| RuntimeBiz.OnwardOnward | internal/biz/runtime.go:148-487 | what any sections of other actors do to the table composes: entries are only published, marked, removed or newer |
| RuntimeBiz.OnwardKeepsSuspended | internal/biz/runtime.go:334-402 | none of it brings a suspended generation back |
| RuntimeBiz.ClosedOnward | internal/biz/runtime.go:449-487 | a table that is closing with every entry marked only loses entries |
| RuntimeBiz.RuntimeBiz.Elsewhere | internal/biz/runtime.go:148-695 | any number of sections of any other actors, which leave the generation a start has reserved unpublished |
| RuntimeBiz.RuntimeBiz.Dial | internal/biz/runtime.go:166-225 | a start publishes its own generation, or nothing of it is left |
| RuntimeBiz.RuntimeBiz.Start | internal/biz/runtime.go:148-225 | success leaves the forward there and not stopping: the entry found, or a fresh generation with a handle, exactly if the dial succeeded and nobody stopped it meanwhile; a refusal changes nothing, a failure leaves nothing of the generation reserved |
| RuntimeBiz.RuntimeBiz.Stop | internal/biz/runtime.go:286-325 | the generation found never runs again, and it is gone once its handle has stopped; a second stop changes nothing |
| RuntimeBiz.RuntimeBiz.Settle | internal/biz/runtime.go:381-396 | one result of a parallel stop, in whatever state the others left the table |
| RuntimeBiz.RuntimeBiz.Suspend | internal/biz/runtime.go:334-402 | the plan lists what ran when it was captured; none of it runs again, and without an error none of it is left |
| RuntimeBiz.RuntimeBiz.StartLater | internal/biz/runtime.go:407-417 | a start of a suspended forward that succeeds is backed by a newer generation |
| RuntimeBiz.RuntimeBiz.Resume | internal/biz/runtime.go:405-419 | everything listed as started was there and not stopping when its start returned, in plan order and under a generation newer than the suspended one; every other entry of the plan is reported as an error |
| RuntimeBiz.RuntimeBiz.StopForGood | internal/biz/runtime.go:464-483 | a shutdown worker removes its entry once the handle has stopped, and touches no other |
| RuntimeBiz.RuntimeBiz.Shutdown | internal/biz/runtime.go:449-487 | afterwards every entry is stopping and none can be new; if every handle stopped, only starts that will be refused are left |
| ConnectionPool.HoldersStep | internal/forward/conn_pool.go:127-144 | which leases on a client a step adds or takes away |
| ConnectionPool.NewClientIsUnheld | internal/forward/conn_pool.go:201-225 | nobody holds a client that has just been dialed |
| ConnectionPool.CountedStep | internal/forward/conn_pool.go:183-236 | after every step an entry's references are the unreleased leases on its current client |
| ConnectionPool.BornStep | internal/forward/conn_pool.go:215-225 | a client belongs to one entry and one generation |
| ConnectionPool.SettledStep | internal/forward/conn_pool.go:56-94 | a client that is dead or replaced is closed, or its close is owed |
| ConnectionPool.LeasesStep | internal/forward/conn_pool.go:256-263 | a lease names a client of its own entry |
| ConnectionPool.StepKeepsInv | internal/forward/conn_pool.go:183-402 | every acquire, release, watcher, keepalive, captured abort, retirement and pending close keeps the accounting |
| ConnectionPool.RunKeepsInv | internal/forward/conn_pool.go:183-402 | over every interleaving |
| ConnectionPool.PoolAccounting | internal/forward/conn_pool.go:127-236 | references equal outstanding leases, a client to be shared has at least one, and once pending closes are done every open client is leased |
| ConnectionPool.OpenClientIsLeased | internal/forward/conn_pool.go:127-144 | the lease behind an open client |
| ConnectionPool.GenerationsDoNotInterfere | internal/forward/conn_pool.go:56-144 | a release, watcher, keepalive or captured abort of one client leaves every other client's entry alone and makes no other close due |
| ConnectionPool.LosingRetires | internal/forward/conn_pool.go:56-94 | a watcher, a captured abort, a retirement or the last release retires its client: closed or owed a close, and its entry dead or redialed |
| ConnectionPool.LostClientIsNeverShared | internal/forward/conn_pool.go:183-236 | over every run from there it stays so, and no lease on it is handed out again; the entry that held it dials |
| ConnectionPool.CapturedAbortRetires | internal/forward/conn_pool.go:335-353 | an abort captured now retires the client it found, and its close then is carried out |
| ConnectionPool.RetiredHostIsForgotten | internal/forward/conn_pool.go:384-402 | a retired host's next lookup finds a fresh entry; other hosts keep theirs |
| ConnectionPool.PoolEntry.Acquire | internal/forward/conn_pool.go:198-236 | a client handed out is the entry's living one: the one there was, counted once more, or a newly dialed one with its first reference |
| ConnectionPool.PoolEntry.GiveBack | internal/forward/conn_pool.go:127-144 | the last reference of the current client closes it; a late release does nothing |
| ConnectionPool.PoolEntry.MarkDead | internal/forward/conn_pool.go:56-94 | the generation seen is dead and handed over to be closed; any other entry is left alone |
| ConnectionPool.PoolEntry.Condemned | internal/forward/conn_pool.go:362-402 | retiring condemns whatever generation there is |
| RouteSteps.RepliesEnd | internal/biz/router.go:161-515 | an operation ends after so many port calls |
| RouteSteps.StepKeepsInv | internal/biz/router.go:161-515 | between any two port calls the machine differs from where the transaction began only in effects marked for undoing, and the record still says what was last published |
| RouteSteps.BeginFollows | internal/biz/router.go:186-212 | an operation starts from the machine it reads |
| RouteSteps.ReplyFollows | internal/biz/router.go:213-371 | whatever a port answers, it stays on its way to one of its ends: done, rolled back to exactly what was before with the prior state marked failed, or pending |
| RouteSteps.RecordedPhasesAreEarned | internal/biz/router.go:264-371 | a phase is on record only once what it names has happened |
| RouteSteps.ObeyedForward | internal/biz/router.go:264-371 | with every port obeying, an application is done |
| RouteSteps.ObeyedUndoing | internal/biz/router.go:245-263 | with every port obeying, an undoing without a failure ends rolled back and recorded |
| RouteSteps.ObeyedNeutralizing | internal/biz/router.go:466-515 | with every port obeying, everything is undone and recorded so |
| RouteSteps.StepKeepsTrust | internal/biz/router.go:245-263 | a step keeps the recorded quarantine truthful, and the record a rollback would put back as well |
| RouteSteps.RunKeepsTrust | internal/biz/router.go:245-263 | over every run that begins applications on settled machines only |
| RouteSteps.CautionIsEnough | internal/biz/router.go:426-456 | for that it is enough to look at the two records before beginning |
| RouteSteps.QuarantineIsTruthful | internal/application/restore.go:285-309 | over every cautious run of applying, neutralizing, resuming and crashing, cut anywhere, `quarantined` without a pending transaction means that nothing is left |
| RouteSteps.ApplyStaysTruthfulIff | internal/biz/router.go:440-456 | from a truthful machine every point of every application is truthful if and only if the machine is settled or its pending record is refused |
| RouteSteps.SettledApply | internal/biz/router.go:161-371 | the safe half of that |
| RouteSteps.HeedlessRunCanLie | internal/biz/router.go:245-263 | witness: a run from the machine a restore leaves ends with a recorded quarantine over a live hosts entry |
| RouteSteps.ApplyFollows | internal/biz/router.go:161-371 | every application, cut anywhere, is on its way or at one of its ends |
| RouteSteps.CaddyComesBackIff | internal/biz/router.go:638-678 | with the port free a rollback is sure to bring Caddy back if and only if Caddy was not running or the configuration file named what it ran |
| RouteSteps.TakenPortGoesUnreported | internal/biz/router.go:654-664 | a rollback that reports success is sure to leave Caddy as it was only if it was not running |
| RouteSteps.RollbackCanStayApplied | internal/biz/router.go:222-263 | witness: with the last write failing, a rolled-back application stays recorded as applied |
| RouteEffects.RouterBiz.MutateHosts | internal/biz/router.go:269-293 | the managed block is replaced only when it differs, and the mutation is remembered before it is tried |
| RouteEffects.RouterBiz.MutateWithoutCaddy | internal/biz/router.go:296-321 | without enabled routes Caddy is stopped and the trust seen before is taken back |
| RouteEffects.RouterBiz.MutateWithCaddy | internal/biz/router.go:329-371 | Caddy runs the new configuration with its CA trusted, unless its port is taken |
| RouteEffects.RouterBiz.Mutate | internal/biz/router.go:269-371 | nothing is changed that is not marked for undoing |
| RouteEffects.RouterBiz.Compensate | internal/biz/router.go:638-678 | undoes in reverse what was marked, each undo whatever the others report; it succeeds only if all do |
| RouteEffects.RouterBiz.Complete | internal/biz/router.go:222-241 | the applied state is recorded before the journal goes |
| RouteEffects.RouterBiz.RestoreCaddy | internal/biz/router.go:650-666 | a rollback that meets a taken port reports success |
| RouteEffects.RouterBiz.RollBack | internal/biz/router.go:245-263 | undo, then clear the journal if everything was undone, then record the prior state as failed; which of these succeeded is told |
| RouteEffects.RouterBiz.Transact | internal/biz/router.go:208-263 | refused exactly when the first journal record cannot be written; from that record on done, rolled back with hosts and trust as before and the prior state marked failed (or, if that could not be saved, exactly what was last recorded), or visibly stuck |
| RouteEffects.RouterBiz.Proceed | internal/biz/router.go:213-371 | mutate, publish, or roll back; every port call on the way is the step machine's next step |
| RouteEffects.RouterBiz.ApplySystem | internal/biz/router.go:161-371 | refused, without change, in exactly the cases of an unusable pending record, a vault that does not load or compile, an unconfirmed or unreadable CA, an unreadable state or an unwritable journal; otherwise done, rolled back with exactly that recorded state, or pending |
| RouteEffects.RouterBiz.RemoveHosts | internal/biz/router.go:488-496 | the managed block is emptied if there is one, or the record says there was |
| RouteEffects.RouterBiz.RemoveCaddyAndTrust | internal/biz/router.go:497-510 | Caddy is stopped before its CA loses trust |
| RouteEffects.RouterBiz.RecordNeutral | internal/biz/router.go:475-486 | the journal goes before `quarantined` is recorded; any failure is recorded as pending cleanup |
| RouteEffects.RouterBiz.NeutralizeRoutes | internal/biz/router.go:466-515 | `quarantined` is recorded only when everything was taken back; a failure has only taken away and, if that can be saved, is recorded as pending cleanup |
| RouteEffects.RouterBiz.ResumeCaddy | internal/biz/router.go:377-422 | never runs while a route transaction is pending and touches nothing but Caddy; where Caddy is wanted and not running the wanted configuration is loaded, once, and success means that it runs unless its port was taken |
| VaultModel.CheckDistinct | internal/model/validate.go:126-149 | accepts exactly the lists without a repeated id |
| VaultModel.CheckFolders | internal/model/validate.go:37-53 | accepts exactly two levels of folders with existing parents |
| VaultModel.FindFolder | internal/model/validate.go:169-176 | finds a folder of that id |
| VaultModel.CheckForwards | internal/model/validate.go:55-77 | accepts exactly known modes, existing folders and non-empty chains of existing hosts |
| VaultModel.CheckRoutes | internal/model/validate.go:79-107 | accepts exactly routes over local forwards with a usable TLS name and Host selection |
| VaultModel.CheckKeys | internal/model/validate.go:109-121 | accepts exactly one key per endpoint |
| VaultModel.Validate | internal/model/validate.go:33-123 | accepts exactly the well-formed vaults |
| VaultModel.Store.Save | internal/vault/vault.go:113-128 | the stored vault is replaced as a whole or stays |
| ImportRemap.NextId | internal/biz/backup.go:337-353 | one more than the largest id in use, at least one |
| ImportRemap.FoldersPlaced | internal/biz/backup.go:214-222 | top-level folders arrive in order, under the wrapper, with consecutive ids |
| ImportRemap.FoldersMapped | internal/biz/backup.go:212-226 | every imported folder is mapped to its image or remembered with its parent, and nothing else is |
| ImportRemap.FolderMeaning | internal/biz/backup.go:227-230 | a folder's forwards end up in the image of the top-level folder it stands in |
| ImportRemap.HostsPlaced | internal/biz/backup.go:237-252 | hosts that are not skipped arrive in order with consecutive ids, renamed on a known or resolved endpoint |
| ImportRemap.HostsMapped | internal/biz/backup.go:237-252 | exactly those hosts are mapped, each to its image |
| ImportRemap.HostMeaning | internal/biz/backup.go:232-252 | an imported host is left out exactly if a resolution skips its endpoint; otherwise it arrives as it is under its new id, renamed exactly if the endpoint is taken or a resolution says so |
| ImportRemap.ChainImage | internal/biz/backup.go:267-279 | a chain over known hosts maps hop by hop to what is left of it |
| ImportRemap.SkippedExactly | internal/biz/backup.go:386-393 | a host id counts as skipped iff its own endpoint is |
| ImportRemap.ForwardsMapped | internal/biz/backup.go:256-286 | a forward is mapped under an id that fits its position, or dropped |
| ImportRemap.ForwardsInOrder | internal/biz/backup.go:256-286 | what is appended comes from imported forwards, in their order |
| ImportRemap.ForwardImage | internal/biz/backup.go:257-286 | a forward survives iff a hop does, and keeps everything but its ids |
| ImportRemap.ForwardMeaning | internal/biz/backup.go:257-286 | a forward is dropped iff all hosts of its chain are skipped; otherwise its image has its folder's target and the images of the hops that are left |
| ImportRemap.MapsInjective | internal/biz/backup.go:337-353 | the id maps of folders, hosts and forwards are injective |
| ImportRemap.RoutesPlaced | internal/biz/backup.go:289-304 | routes whose forward came along arrive in order with consecutive ids |
| ImportRemap.RouteMeaning | internal/biz/backup.go:289-304 | a route is dropped iff its forward is; the others keep all but ids and are disabled |
| ImportRemap.KeysStayDistinct | internal/biz/backup.go:307-315 | no endpoint gets a second key |
| ImportRemap.KeysCovered | internal/biz/backup.go:307-315 | every imported endpoint has a key afterwards |
| ImportRemap.KeysAreNew | internal/biz/backup.go:307-315 | a new key is an imported one for an endpoint that had none: existing trust is never overridden |
| ImportRemap.FoldersStayValid | internal/biz/backup.go:202-230 | folder ids stay distinct and two levels suffice |
| ImportRemap.HostsStayDistinct | internal/biz/backup.go:237-252 | host ids stay distinct |
| ImportRemap.ForwardsStayOk | internal/biz/backup.go:256-286 | every forward, old or new, finds its folder and its hosts |
| ImportRemap.AddedRouteOk | internal/biz/backup.go:289-304 | an imported route finds its local forward |
| ImportRemap.ImportStaysValid | internal/biz/backup.go:201-317 | for any two valid vaults and any plan the result is valid |
| ImportRemap.FolderLoop | internal/biz/backup.go:202-230 | the folder loop computes the appended folders and both id maps |
| ImportRemap.HostLoop | internal/biz/backup.go:232-252 | the host loop computes the appended hosts and their map |
| ImportRemap.ChainLoop | internal/biz/backup.go:267-279 | the chain loop stops at the first hop that is neither imported nor skipped |
| ImportRemap.ForwardLoop | internal/biz/backup.go:254-286 | the forward loop, dropped forwards using up an id each |
| ImportRemap.RouteLoop | internal/biz/backup.go:288-304 | the route loop |
| ImportRemap.KeyLoop | internal/biz/backup.go:306-315 | the key loop, checking against the growing list |
| ImportRemap.ApplyStagedImport | internal/biz/backup.go:177-320 | the whole update: with two valid vaults it is turned down only for a blank folder name or a failed write, and then nothing changes; otherwise all existing entities are an unchanged prefix |
| Catalog.Filter | internal/biz/catalog.go:501-543 | the in-place filter leaves exactly the kept elements in order at the front of the array |
| Catalog.KeepExactly | internal/biz/catalog.go:501-543 | what is kept is what is not deleted |
| Catalog.KeepInOrder | internal/biz/catalog.go:501-543 | in the same order |
| Catalog.OnePassSuffices | internal/biz/catalog.go:446-454 | on a valid vault the single pass reaches the least set closed under subfolders |
| Catalog.DeletionStaysValid | internal/biz/catalog.go:483-487 | a deletion that leaves no dangling host keeps a valid vault valid |
| Catalog.DeletionIsExact | internal/biz/catalog.go:437-490 | exactly the chosen folders with all under them, the chosen forwards, their routes and the chosen hosts are gone |
| Catalog.ExpandFolders | internal/biz/catalog.go:446-454 | without cascade an unselected subfolder is refused |
| Catalog.ExpandForwards | internal/biz/catalog.go:455-466 | without cascade an unselected forward in a deleted folder is refused |
| Catalog.Remaining | internal/biz/catalog.go:467-476 | the hosts the remaining forwards use |
| Catalog.DeleteSelection | internal/biz/catalog.go:437-490 | each error in exactly its case and without change; the final check never rejects a valid vault |
| RoutePlan.PlanHosts | internal/route/hosts.go:22-50 | one loopback entry for exactly the domains of enabled routes over local forwards, in order and without repeats, and which of them need confirmation |
| RoutePlan.AscendingUnique | internal/route/hosts.go:47-48 | a sorted list without repeats is determined by its elements, so the plan does not depend on the order of routes |
| RoutePlan.HandlerMeaning | internal/route/caddy.go:191-231 | a handler dials the forward's port with the TLS name and the Host header the mode prescribes; there is none exactly for an unworkable Host selection |
| RoutePlan.KnownSchemeWorks | internal/route/caddy.go:197-216 | what the vault accepts for http, https and no scheme is workable |
| RoutePlan.CompileSites | internal/route/caddy.go:139-161 | compiles every enabled route or reports the first that cannot be |
| RoutePlan.CollectSubjects | internal/route/caddy.go:141-166 | the certificate subjects are exactly the enabled domains, sorted |
| RoutePlan.CompileCaddy | internal/route/caddy.go:115-186 | the sites of the enabled routes sorted by domain, nothing without any, or an error |
| RoutePlan.FailsIff | internal/route/caddy.go:115-186 | on a valid vault compiling fails iff an enabled route has an unworkable Host selection, which only an unchecked scheme allows |
| RoutePlan.CompiledMeaning | internal/route/caddy.go:139-161 | first match: every enabled domain is served by its own route's forward with its Host and TLS name, and no other host is served |
| RoutePlan.OrderDoesNotMatter | internal/route/caddy.go:112-137 | permuting the routes does not change the configuration |
| RoutePlan.SubjectsArePlanned | internal/route/caddy.go:157-166 | with Caddy implying hosts every subject is in the hosts plan |
| RouteChange.ValidByRevision | internal/application/service.go:1671-1682 | validity depends only on what the revision covers |
| RouteChange.RevisionMeaning | internal/application/service.go:1671-1682 | two vaults have one revision if and only if they differ at most in their secrets and what the revision does not cover |
| RouteChange.SameRevisionSameRoutes | internal/application/service.go:989-1001 | under one revision an intent yields the previewed routes and nothing else |
| RouteChange.NormalizedMeaning | internal/application/service.go:1124-1137 | saving a payload trims its fields, defaults the scheme and the Host mode, turns hosts on with Caddy, and changes nothing else |
| RouteChange.NormalizedForSaveMeaning | internal/biz/catalog.go:239-271 | the direct save drops Caddy without hosts instead, and agrees in everything else |
| RouteChange.EditRefusedIff | internal/application/service.go:1059-1117 | an edit is turned down exactly for a missing payload, an unknown id, flag or action |
| RouteChange.EditMeaning | internal/application/service.go:1059-1117 | an edit adds one route above all ids, replaces one, sets one flag with the other following only where the rule needs it, or removes one; every other route stays in place |
| Common.TrimMeaning | internal/application/service.go:1124-1130 | trimming takes white space away at both ends, all of it and nothing else |
| RouteChange.EditKeepsCaddyImpliesHosts | internal/application/service.go:1059-1137 | no edit leaves a route with Caddy but without its hosts entry |
| RouteChange.OtherWritesKeepCaddyImpliesHosts | internal/biz/backup.go:289-304 | nor does an import or a deletion |
| RouteChange.SaveWebRoute | internal/biz/catalog.go:239-271 | the direct save keeps the vault valid and that rule, or changes nothing |
| RouteChange.FindRoute | internal/application/service.go:1149-1156 | the first route of an id |
| RouteChange.ShiftDown | internal/application/service.go:1107-1114 | deleting in place moves the later routes one place to the front |
| RouteChange.EditInPlace | internal/application/service.go:1059-1117 | the edit of a slice in place yields the intended routes |
| RouteChange.OverridesAreConfirmed | internal/application/service.go:953-955 | a changed route overriding a public domain is saved only with that domain confirmed |
| RouteChange.RouteChanges.Preview | internal/application/service.go:856-917 | a stage is made exactly when the revision is the expected one, the edit is allowed and the system can be previewed; it holds the candidate of the present vault, and the stored routes stay as they are |
| RouteChange.RouteChanges.CheckStage | internal/application/service.go:946-973 | each outcome in exactly its case: a stage passes only unexpired, with everything confirmed and the CA as it was previewed |
| RouteChange.RouteChanges.SaveStaged | internal/application/service.go:988-1001 | the staged routes are saved exactly if the vault still has the previewed revision and can be written, else nothing |
| RouteChange.RouteChanges.Commit | internal/application/service.go:922-1009 | saved and errored in exactly their cases, the revision, the applied revision and the CA among them; either the vault stays as it was or exactly the previewed candidate's routes are saved with all else untouched; a token saves at most once, and a stage is kept only where another try makes sense |
| HostsFile.LinesRoundTrip | internal/helper/hostsfile.go:199-254 | lines survive being joined and split again |
| HostsFile.SplitJoined | internal/helper/hostsfile.go:199-254 | splitting what was joined, piece by piece |
| HostsFile.EntryLineParses | internal/helper/hostsfile.go:181-193 | a printed entry line parses to its entry and is no marker |
| HostsFile.ValidatedIsPrintable | internal/helper/protocol.go:132-170 | entries that pass the helper's validation can be printed and read back |
| HostsFile.Layout | internal/helper/hostsfile.go:214-247 | where a written block is found again |
| HostsFile.RenderedLines | internal/helper/hostsfile.go:35-56 | rendering replaces the first block and keeps the lines around it |
| HostsFile.OutsideIsKept | internal/helper/hostsfile.go:35-56 | lines outside the first block keep content and order |
| HostsFile.PrintThenParse | internal/helper/hostsfile.go:181-195 | what was printed is read back |
| HostsFile.LastWriteWins | internal/helper/hostsfile.go:35-56 | only the last write counts |
| HostsFile.RemovalReadsTheNextBlock | internal/helper/hostsfile.go:35-56 | after a removal exactly the next block behind the first is read |
| HostsFile.SingleBlockIsRemoved | internal/helper/hostsfile.go:35-56 | with at most one begin marker a removal leaves nothing to read |
| HostsFile.ManagedHostsFile.WriteTransaction | internal/helper/hostsfile.go:87-147 | each result in exactly its case: a transaction writes only over the expected block, unchanged between its two readings, keeps the other lines of the second reading, and otherwise writes nothing |
| SourceWriter.LinesAreTheStream | internal/diag/source_writer.go:25-72 | lines and rest are the stream cut at its newlines |
| SourceWriter.CutAnywhere | internal/diag/source_writer.go:25-72 | only the unfinished line matters to what comes next |
| SourceWriter.TruncationIsExact | internal/diag/source_writer.go:74-83 | the marker of a cut line is a numeral for exactly the bytes that are not there |
| Common.DigitsReadBack | internal/diag/source_writer.go:74-83 | a printed number has no leading zero and reads back as the number |
| SourceWriter.SourceWriter.FlushTruncated | internal/diag/source_writer.go:74-83 | a cut line is its first bytes plus a marker counting exactly the rest |
| SourceWriter.SourceWriter.Round | internal/diag/source_writer.go:29-71 | one round of the loop takes the chunk up to its next newline |
| SourceWriter.SourceWriter.Write | internal/diag/source_writer.go:25-72 | the lines a chunk completes are logged, full or truncated; the state left is a function of the unfinished line |
| SourceWriter.SourceWriter.WriteEach | internal/diag/source_writer.go:25-72 | however a stream is cut into writes, the same lines are logged and the same state is left |
| CommandCache.StepKeepsInv | internal/application/idempotency.go:63-111 | map and list hold the same distinct ids, within capacity, after every operation |
| CommandCache.RunKeepsInv | internal/application/idempotency.go:63-111 | over every run |
| CommandCache.CachedIsLatest | internal/application/idempotency.go:82-99 | what is cached is what was stored last under its id; a hit never extends its expiry |
| CommandCache.HitIsLatest | internal/application/idempotency.go:63-80 | an answer is the latest stored result of that very command, unexpired |
| CommandCache.EvictKeepsHeld | internal/application/idempotency.go:94-98 | an entry is evicted only when as many other ids as the cache holds were used after it |
| CommandCache.HeldStep | internal/application/idempotency.go:63-111 | an unexpired entry survives a step as long as fewer others were used since |
| CommandCache.RecentIsFound | internal/application/idempotency.go:63-111 | after its last use an unexpired result is surely found while fewer distinct others were named than the cache holds |
| CommandCache.RecentCommandCache.PruneExpired | internal/application/idempotency.go:101-111 | exactly the expired entries leave both map and list |
| CommandCache.RecentCommandCache.Lookup | internal/application/idempotency.go:63-80 | a hit becomes the most recent entry; a miss or a conflict does not |
| CommandCache.RecentCommandCache.Store | internal/application/idempotency.go:82-99 | a store replaces, becomes the most recent entry and evicts the oldest beyond capacity |
| PrivilegedSession.RevokedForever | internal/helper/linux_privileged_session.go:66-69 | a revoked server does nothing more, whatever is sent |
| PrivilegedSession.EffectsAreAuthorized | internal/helper/linux_privileged_session.go:66-134 | every root effect goes back to an acceptable request for this very session before its revocation |
| PrivilegedSession.Server.Handle | internal/helper/linux_privileged_session.go:66-134 | a request is refused, acted on once with its very operation, or revokes the session |
| PrivilegedSession.Session.RevokeAndClose | internal/helper/linux_privileged_session.go:341-363 | the session is given up and its authorization revoked exactly once |
| PrivilegedSession.Session.Renew | internal/helper/linux_privileged_session.go:278-305 | an authorization whose process cannot be started is revoked at once |
| PrivilegedSession.Session.Ensure | internal/helper/linux_privileged_session.go:269-305 | an unexpired connection is used as it is; an expired one is revoked first; otherwise a new one is made, or there is an error and none |
| PrivilegedSession.Session.CallLocked | internal/helper/linux_privileged_session.go:307-329 | a failed connection is given up together with its authorization; a request goes out only on an unexpired session |
| PrivilegedSession.Session.Call | internal/helper/linux_privileged_session.go:202-235 | nothing is obtained or sent on a closed session, and an invalid request is never sent; a session still good is used, another is given up; the server asked tries at most this very operation, and has tried it last when the call is done |
| PrivilegedSession.Session.Close | internal/helper/linux_privileged_session.go:331-339 | afterwards every authorization ever obtained has been revoked exactly once |

## Left out

- RestoreProtocol.VisibilityIsLostOnlyByRemovingANestedJournal: speaks of journals whose phase is known, because recovery refuses any other.
- RestoreProtocol.WriteKeepsCrashSafe: a journal without digest at `replacing_vault` with the rename done and a known public revision is not covered, because recovery cannot decide it.
- RecoveryGate.GuardedBodyRunsOutsideRecovery: says nothing about `LockOnly` bodies, which the code does not guard; the host save's second look at maintenance is left to chance there.
- RestoreRecovery.RestoreEffectsAdapter.RecoverPending: reconciliation may be refused for want of a confirmed CA, so results are stated for a nil return; forwards do not die by themselves in this model, and it runs before any other call starts.
- RestoreRecovery.RestoreEffectsAdapter.ResumeJournalForwards: forwards live in process memory, so "all captured forwards run" holds per successful call, not across a crash in the middle of the loop.
- RestoreRecovery.RestoreEffectsAdapter.PrepareCandidate: a crash before the next journal write leaves an unnamed candidate file; nothing is claimed about such files.
- RouteEffects.RouterBiz.NeutralizeRoutes: an unreadable hosts file reads as an empty block in the source; the model reads it as it is.
- RouteSteps.QuarantineIsTruthful: for runs that heed the records, because `HeedlessRunCanLie` shows it false of the others; the gate discharges that for guarded calls (`GatedRunsStayTruthful`), not for activations.
- RestoreRecovery.RestoreEffectsAdapter.ReconcileRoutes: the revision it reports is the vault's public revision; what the router reads of a vault is fixed when it begins.
- RuntimeBiz.RuntimeBiz.Elsewhere: takes other actors' sections with any arguments except the generation this call has reserved, which `ForwardRuntime.OtherStep` shows to be distinct.
- ConnectionPool.GenerationsDoNotInterfere: a captured abort speaks for the generation found when it is captured, which may be newer than the lease's own.
- HostsFile.ManagedHostsFile.WriteTransaction: an edit by another program between the second reading and the rename is lost, as in the source; the older write with a backup file is not modelled.
- HostsFile.PrintThenParse: contents are sequences of code points; invalid UTF-8 is not modelled.
- ImportRemap.ApplyStagedImport: lower-casing of endpoints is modelled for ASCII letters; the summary counters are left out.
- RouteChange.RouteChanges.Commit: the cached answer to a repeated command id and the reconciliation after the save are in other modules; the latter may fail and is reported, never undone.
- RoutePlan.CompiledMeaning: hosts are matched literally; wildcards and other placeholders of Caddy are not interpreted.
- PrivilegedSession.Session.Call: expiry is checked when a call begins, and a revocation counts when it is asked for.
- CommandCache.RecentIsFound: counts the other ids named since, which includes lookups that missed; results, digests and times are numbers.
- SourceWriter.SourceWriter.Write: characters stand for bytes, and the counter of dropped bytes does not overflow.
- Sealing, digests, JSON, X.509 and Argon2: digests and revisions are taken to be injective, sealing to be the identity.
- File-system detail: a temporary file and a rename are one atomic write; short writes are not modelled.
- Error texts, latencies, log output and event sequence numbers.
- Staging an import, saving its key files, host changes and their preflight, moving forwards: bookkeeping around the same gate and store.
- Local forward serving and leases, Caddy supervision, certificate stores, Windows and macOS helpers: ports here.
- Version comparison, ring buffer, log rotation and tailing, reconnect backoff, ssh_config parsing, updater, tray and frontend: smaller than the protocols above.
