/** The order of a full restore: RestoreCoordinator.CommitRestore over the adapter's effects. */
module RestoreCommit {
  import opened Common
  import opened RestoreProtocol
  import opened RestoreRecovery
  import RouteSteps

  datatype Stage = Stage(token: nat, facts: Facts)

  datatype Failure =
    | NotConfirmed
    | BadToken
    | SnapshotFailed
    | PreviewStale
    | NotPlanned
    | Undone
    | LeftPending

  /** How far a commit has come; a failed step says what the coordinator has to do about it. */
  datatype Progress = Going | Refused | Undo | Pending

  /** What a transaction was begun with: its id, the captured facts, digest and forwards, and what ran then. */
  datatype Transaction = Transaction(tx: nat, facts: Facts, storage: nat, captured: seq<int>, ran: set<int>)

  function FirstRecord(t: Transaction): Journal {
    Journal(Some(t.tx), t.facts, Some(t.storage), Planned, None, t.captured, false, false)
  }

  /** A record of this transaction: it names the captured forwards, and once they are suspended those that ran. */
  ghost predicate Recorded(j: Journal, t: Transaction) {
    && j.tx == Some(t.tx) && j.before == t.facts && j.beforeStorage == Some(t.storage)
    && (if Order(j.phase) < Order(RuntimeSuspended) then j.running == t.captured else Ids(j.running) == t.ran)
  }

  /**
   * A transaction on its way: `now` differs from the disk `was` it was planned on by its journal,
   * its one candidate file, whatever happened to the routes, and ungated vault writes.
   */
  ghost predicate Underway(was: Disk, now: Disk, undo: Compensation, t: Transaction) {
    && now.journal.Some? && Recorded(now.journal.value, t) && undo.tx == t.tx
    && (now.journal.value.candidate.Some? ==> now.journal.value.candidate == undo.candidate)
    && now == was.(live := now.live, journal := now.journal, candidates := now.candidates, routes := now.routes,
                   replaced := false)
    && Drifts(was.live, now.live)
    && (if undo.routesNeutralized then RoutesUndone(now) else RouteSteps.PartlyUndone(was.routes.m, now.routes.m))
    && match undo.candidate
       case Some(c) => c !in was.candidates && c in now.candidates && now.candidates == was.candidates[c := now.candidates[c]]
       case None => now.candidates == was.candidates
  }

  /** The journal on disk is the coordinator's own copy and stands at `phase`. */
  ghost predicate At(now: Disk, journal: Journal, phase: Phase, undo: Compensation, catalog: nat) {
    && now.journal == Some(journal) && journal.phase == phase && journal.tx == Some(undo.tx)
    && journal.beforeStorage.Some?
    && journal.candidate.Some? && journal.candidate == undo.candidate
    && journal.candidate.value in now.candidates && now.candidates[journal.candidate.value].catalog == catalog
  }

  datatype CommitResult = CommitResult(tx: Option<nat>, quarantined: bool, journalPending: bool)

  /** The restored vault is live, isolated, with its routes undone and nothing of the transaction left. */
  ghost predicate Restored(was: Disk, now: Disk, catalog: nat) {
    && now == was.(live := now.live, journal := None, quarantined := true, routes := now.routes,
                   replaced := true, isolated := true)
    && RoutesUndone(now)
    && was.live.drift <= now.live.drift
    && (was.live.drift == now.live.drift ==> now.live.vault.catalog == catalog)
  }

  /** The old vault is live and nothing of the transaction is left; routes are in place, or partly taken away. */
  ghost predicate RolledBack(was: Disk, now: Disk) {
    && OnlyDrifted(was.(journal := None, routes := now.routes, replaced := false), now)
    && (InPlace(now.routes) || RouteSteps.PartlyUndone(was.routes.m, now.routes.m))
  }

  lemma DiscardUndoesTheSealing(was: Disk, mid: Disk, undo: Compensation, t: Transaction, now: Disk)
    requires Underway(was, mid, undo, t) && now.journal.None?
    requires OnlyDrifted(mid.(journal := now.journal, candidates := now.candidates, routes := now.routes), now)
    requires now.candidates == if undo.candidate.Some? then mid.candidates - {undo.candidate.value} else mid.candidates
    ensures OnlyDrifted(was.(journal := None, routes := now.routes, replaced := false), now)
  {
    assert now.candidates == was.candidates;
  }

  /** Recording the intent to suspend leaves the transaction on its way. */
  lemma IntendStep(was: Disk, mid: Disk, undo: Compensation, t: Transaction, before: Journal, after: Journal,
                   now: Disk, catalog: nat)
    requires Underway(was, mid, undo, t) && At(mid, before, CandidatePrepared, undo, catalog)
             && mid.routes == was.routes
    requires after == before || after == before.(phase := RuntimeSuspending)
    requires OnlyDrifted(mid.(journal := Some(after)), now)
    ensures Underway(was, now, undo, t) && At(now, after, after.phase, undo, catalog) && now.routes == was.routes
  {
  }

  /** Recording the suspension leaves the transaction on its way. */
  lemma SuspendStep(was: Disk, mid: Disk, undo: Compensation, t: Transaction, before: Journal, after: Journal,
                    now: Disk, catalog: nat)
    requires Underway(was, mid, undo, t) && At(mid, before, RuntimeSuspending, undo, catalog)
    requires after == before
             || (after == before.(phase := RuntimeSuspended, running := after.running) && Ids(after.running) == t.ran)
    requires OnlyDrifted(mid.(journal := Some(after)), now)
    ensures Underway(was, now, undo, t) && At(now, after, after.phase, undo, catalog)
  {
  }

  /** So does undoing the routes, fully or not. */
  lemma NeutralizeStep(was: Disk, mid: Disk, undo: Compensation, t: Transaction, before: Journal, done: Compensation,
                       now: Disk, catalog: nat)
    requires Underway(was, mid, undo, t) && At(mid, before, RuntimeSuspended, undo, catalog)
    requires OnlyDrifted(mid.(journal := now.journal, routes := now.routes), now)
    requires now.journal.Some?
    requires var j := now.journal.value; j == before.(phase := j.phase, routesNeutralized := j.routesNeutralized)
    requires Order(RuntimeSuspended) <= Order(now.journal.value.phase)
    requires done == undo.(routesNeutralized := done.routesNeutralized)
    requires if done.routesNeutralized then RoutesUndone(now) else RouteSteps.PartlyUndone(mid.routes.m, now.routes.m)
    requires mid.routes == was.routes
    ensures Underway(was, now, done, t)
    ensures forall j: Journal ::
              now.journal == Some(j) && j == before.(phase := ReplacingVault, routesNeutralized := true) ==>
                At(now, j, ReplacingVault, done, catalog)
  {
  }

  /** A confirmed request for the staged preview. */
  predicate Accepts(confirmed: bool, token: Option<nat>, staged: Option<Stage>) {
    confirmed && token.Some? && staged.Some? && token.value == staged.value.token
  }

  class RestoreCoordinator {
    const effects: RestoreEffectsAdapter
    var staged: Option<Stage>

    constructor (effects: RestoreEffectsAdapter)
      ensures this.effects == effects && staged.None?
    {
      this.effects := effects;
      staged := None;
    }

    /** A new preview always invalidates the previous one; it touches nothing else. */
    method StageRestore(facts: Option<Facts>, token: Option<nat>) returns (ok: bool)
      modifies `staged
      ensures ok <==> facts.Some? && token.Some?
      ensures staged == if ok then Some(Stage(token.value, facts.value)) else None
    {
      staged := None;
      ok := facts.Some? && token.Some?;
      if ok {
        staged := Some(Stage(token.value, facts.value));
      }
    }

    /** Writes the transaction's first record; until then nothing is to be undone. */
    method Plan(tx: nat, facts: Facts, storage: nat, running: seq<int>, ghost ran: set<int>)
      returns (progress: Progress, journal: Journal)
      requires effects.Valid() && storage < effects.disk.live.nextSeal
      modifies effects`disk, effects`writes, effects`faults, effects`activeTx
      ensures effects.Valid() && old(effects.writes) <= effects.writes
      ensures journal == FirstRecord(Transaction(tx, facts, storage, running, ran))
      ensures progress == Refused || progress == Going
      ensures if progress.Refused? then OnlyDrifted(old(effects.disk), effects.disk)
              else OnlyDrifted(old(effects.disk).(journal := Some(journal), replaced := false), effects.disk)
                   && effects.activeTx == Some(tx)
      ensures effects.faults == if progress == Going then old(effects.faults) else old(effects.faults) + 1
    {
      journal := Journal(Some(tx), facts, Some(storage), Planned, None, running, false, false);
      effects.Interfere();
      var ok := effects.WriteJournal(journal);
      progress := if ok then Going else Refused;
    }

    /** Seals the candidate and records its name. */
    method Prepare(planned: Journal, catalog: nat, ghost t: Transaction)
      returns (progress: Progress, journal: Journal, undo: Compensation)
      requires effects.Valid() && effects.disk.journal == Some(planned) && planned.phase.Planned?
               && !effects.disk.replaced
      requires planned == FirstRecord(t)
      requires planned.beforeStorage.value < effects.disk.live.nextSeal
      modifies effects`disk, effects`writes, effects`faults, effects`activeTx, effects`cached
      ensures effects.Valid() && old(effects.writes) <= effects.writes
      ensures progress == Undo || progress == Going
      ensures undo.tx == planned.tx.value && !undo.routesNeutralized
      ensures Underway(old(effects.disk), effects.disk, undo, t) && effects.disk.routes == old(effects.disk).routes
      ensures undo.candidate.Some? ==> undo.candidate.value in effects.cached
      ensures effects.activeTx == old(effects.activeTx) || effects.activeTx == planned.tx
      ensures progress == Going ==> At(effects.disk, journal, CandidatePrepared, undo, catalog)
      ensures effects.faults == if progress == Going then old(effects.faults) else old(effects.faults) + 1
    {
      hide effects.Valid;
      undo := Compensation(planned.tx.value, None, false);
      journal := planned;
      progress := Undo;
      var candidate := effects.PrepareCandidate(catalog);
      if candidate.Some? {
        undo := undo.(candidate := candidate);
        journal := journal.(candidate := candidate, phase := CandidatePrepared);
        var ok := effects.WriteJournal(journal);
        progress := if ok then Going else Undo;
      }
    }

    /** Persists the intent before the runtime is touched. */
    method Intend(was: Journal) returns (progress: Progress, journal: Journal)
      requires effects.Valid() && effects.disk.journal == Some(was) && was.phase.CandidatePrepared?
      requires was.beforeStorage.Some? && !effects.disk.replaced
      modifies effects`disk, effects`writes, effects`faults, effects`activeTx
      ensures effects.Valid() && old(effects.writes) <= effects.writes
      ensures progress == Undo || progress == Going
      ensures journal == was.(phase := RuntimeSuspending)
      ensures OnlyDrifted(old(effects.disk).(journal := Some(if progress == Going then journal else was)), effects.disk)
      ensures effects.activeTx == was.tx || effects.activeTx == old(effects.activeTx)
      ensures effects.faults == if progress == Going then old(effects.faults) else old(effects.faults) + 1
    {
      journal := was.(phase := RuntimeSuspending);
      var ok := effects.WriteJournal(journal);
      progress := if ok then Going else Undo;
    }

    method PlanAndPrepare(tx: nat, facts: Facts, storage: nat, running: seq<int>, catalog: nat, ghost ran: set<int>)
      returns (progress: Progress, journal: Journal, undo: Compensation)
      requires effects.Valid() && storage < effects.disk.live.nextSeal
      modifies effects`disk, effects`writes, effects`faults, effects`activeTx, effects`cached
      ensures effects.Valid() && old(effects.writes) <= effects.writes && progress != Pending
      ensures progress == Refused ==> OnlyDrifted(old(effects.disk), effects.disk)
      ensures progress != Refused ==>
                && Underway(old(effects.disk), effects.disk, undo, Transaction(tx, facts, storage, running, ran))
                && effects.disk.routes == old(effects.disk).routes
                && !undo.routesNeutralized && effects.activeTx == Some(tx)
                && (undo.candidate.Some? ==> undo.candidate.value in effects.cached)
      ensures progress == Going ==> At(effects.disk, journal, CandidatePrepared, undo, catalog)
      ensures effects.faults == if progress == Going then old(effects.faults) else old(effects.faults) + 1
    {
      ghost var t := Transaction(tx, facts, storage, running, ran);
      progress, journal := Plan(tx, facts, storage, running, ran);
      undo := Compensation(tx, None, false);
      if progress == Going {
        progress, journal, undo := Prepare(journal, catalog, t);
      }
    }

    method Begin(tx: nat, facts: Facts, storage: nat, running: seq<int>, catalog: nat, ghost ran: set<int>)
      returns (progress: Progress, journal: Journal, undo: Compensation)
      requires effects.Valid() && storage < effects.disk.live.nextSeal
      modifies effects`disk, effects`writes, effects`faults, effects`activeTx, effects`cached
      ensures effects.Valid() && old(effects.writes) <= effects.writes && progress != Pending
      ensures progress == Refused ==> OnlyDrifted(old(effects.disk), effects.disk)
      ensures progress != Refused ==>
                && Underway(old(effects.disk), effects.disk, undo, Transaction(tx, facts, storage, running, ran))
                && effects.disk.routes == old(effects.disk).routes
                && !undo.routesNeutralized && effects.activeTx == Some(tx)
                && (undo.candidate.Some? ==> undo.candidate.value in effects.cached)
      ensures progress == Going ==> At(effects.disk, journal, RuntimeSuspending, undo, catalog)
      ensures effects.faults == if progress == Going then old(effects.faults) else old(effects.faults) + 1
    {
      ghost var t := Transaction(tx, facts, storage, running, ran);
      progress, journal, undo := PlanAndPrepare(tx, facts, storage, running, catalog, ran);
      if progress == Going {
        ghost var mid, prepared := effects.disk, journal;
        progress, journal := Intend(journal);
        IntendStep(old(effects.disk), mid, undo, t, prepared, if progress == Going then journal else prepared,
                   effects.disk, catalog);
        hide effects.Valid, Underway, At, OnlyDrifted, Recorded;
      }
    }

    /** Suspends every forward and records which ones. */
    method Suspend(was: Journal) returns (progress: Progress, journal: Journal, ghost plan: seq<int>)
      requires effects.Valid() && effects.disk.journal == Some(was) && was.phase.RuntimeSuspending?
      requires was.beforeStorage.Some? && !effects.disk.replaced && effects.activeTx == was.tx && was.tx.Some?
      modifies effects`disk, effects`writes, effects`asked, effects`faults, effects`activeTx, effects`running,
               effects`plans
      ensures effects.Valid() && old(effects.writes) <= effects.writes
      ensures progress == Undo || progress == Going
      ensures journal == was.(phase := RuntimeSuspended, running := plan) || progress == Undo
      ensures OnlyDrifted(old(effects.disk).(journal := Some(if progress == Going then journal else was)), effects.disk)
      ensures effects.PlanOf(was.tx.value) == plan && effects.activeTx == was.tx
      ensures Ids(plan) == old(effects.running) && effects.running <= old(effects.running)
      ensures progress == Going ==> effects.running == {}
      ensures effects.faults == if progress == Going then old(effects.faults) else old(effects.faults) + 1
      ensures effects.asked == old(effects.asked) + [StopForwards]
    {
      journal := was;
      progress := Undo;
      var ok, stopped := effects.SuspendAll();
      plan := stopped;
      if ok {
        journal := journal.(running := stopped, phase := RuntimeSuspended);
        ok := effects.WriteJournal(journal);
        progress := if ok then Going else Undo;
      }
    }

    method Announce(was: Journal) returns (progress: Progress, journal: Journal)
      requires effects.Valid() && effects.disk.journal == Some(was) && was.phase.RoutesNeutralized?
      requires was.beforeStorage.Some? && !effects.disk.replaced && RoutesUndone(effects.disk)
      modifies effects`disk, effects`writes, effects`faults, effects`activeTx
      ensures effects.Valid() && old(effects.writes) <= effects.writes
      ensures progress == Undo || progress == Going
      ensures journal == was.(phase := ReplacingVault)
      ensures OnlyDrifted(old(effects.disk).(journal := Some(if progress == Going then journal else was)), effects.disk)
      ensures effects.activeTx == was.tx || effects.activeTx == old(effects.activeTx)
      ensures effects.faults == if progress == Going then old(effects.faults) else old(effects.faults) + 1
    {
      journal := was.(phase := ReplacingVault);
      var ok := effects.WriteJournal(journal);
      progress := if ok then Going else Undo;
    }

    /** Undoes the routes, records that, and announces the rename. */
    method Neutralize(was: Journal, before: Compensation)
      returns (progress: Progress, journal: Journal, undo: Compensation)
      requires effects.Valid() && effects.disk.journal == Some(was) && was.phase.RuntimeSuspended?
      requires was.beforeStorage.Some? && !effects.disk.replaced && !before.routesNeutralized
      modifies effects`disk, effects`writes, effects`asked, effects`faults, effects`activeTx
      ensures effects.Valid() && old(effects.writes) <= effects.writes
      ensures progress == Undo || progress == Going
      ensures OnlyDrifted(old(effects.disk).(journal := effects.disk.journal, routes := effects.disk.routes), effects.disk)
      ensures effects.disk.journal.Some?
      ensures var j := effects.disk.journal.value;
        j == was.(phase := j.phase, routesNeutralized := j.routesNeutralized) && Order(was.phase) <= Order(j.phase)
      ensures undo == before.(routesNeutralized := undo.routesNeutralized)
      ensures if undo.routesNeutralized then RoutesUndone(effects.disk)
              else RouteSteps.PartlyUndone(old(effects.disk).routes.m, effects.disk.routes.m)
      ensures effects.activeTx == was.tx || effects.activeTx == old(effects.activeTx)
      ensures progress == Going ==>
                && journal == was.(phase := ReplacingVault, routesNeutralized := true)
                && effects.disk.journal == Some(journal) && RoutesUndone(effects.disk)
      ensures effects.faults == if progress == Going then old(effects.faults) else old(effects.faults) + 1
      ensures effects.asked == old(effects.asked) + [Request.UndoRoutes]
    {
      hide effects.Valid;
      journal, undo, progress := was, before, Undo;
      var ok := effects.NeutralizeRoutes();
      if ok {
        undo := undo.(routesNeutralized := true);
        journal := journal.(routesNeutralized := true, phase := RoutesNeutralized);
        ok := effects.WriteJournal(journal);
      }
      if ok {
        progress, journal := Announce(journal);
      }
    }

    /** Renames the candidate over the vault. From here on nothing is rolled back. */
    method Swap(was: Journal, catalog: nat) returns (progress: Progress, journal: Journal)
      requires effects.Valid() && effects.disk.journal == Some(was) && was.phase.ReplacingVault?
      requires was.beforeStorage.Some? && !effects.disk.replaced && RoutesUndone(effects.disk)
      requires was.candidate.Some?
      requires was.candidate.value in effects.disk.candidates && was.candidate.value in effects.cached
      modifies effects`disk, effects`writes, effects`faults, effects`activeTx
      ensures effects.Valid() && old(effects.writes) <= effects.writes && progress != Refused
      ensures effects.activeTx == was.tx || effects.activeTx == old(effects.activeTx)
      ensures progress == Undo ==> OnlyDrifted(old(effects.disk), effects.disk)
      ensures journal == was.(phase := VaultReplaced, vaultReplaced := true)
      ensures progress != Undo ==>
                OnlyDrifted(Perform(old(effects.disk), RenameCandidate(was.candidate.value))
                              .(journal := Some(if progress == Going then journal else was)), effects.disk)
      ensures effects.faults == if progress == Going then old(effects.faults) else old(effects.faults) + 1
    {
      hide effects.Valid;
      journal := was.(phase := VaultReplaced, vaultReplaced := true);
      progress := Undo;
      var ok := effects.ReplaceVault(was.candidate.value);
      if ok {
        ok := effects.WriteJournal(journal);
        progress := if ok then Going else Pending;
      }
    }

    /** Records the quarantine, then the phase, and only then removes the journal. */
    method Isolate(was: Journal, tx: nat) returns (progress: Progress, quarantined: bool)
      requires effects.Valid() && effects.disk.journal == Some(was) && was.phase.VaultReplaced?
      requires was.beforeStorage.Some? && effects.disk.replaced && RoutesUndone(effects.disk)
      requires CandidateGone(effects.disk, was)
      modifies effects`disk, effects`writes, effects`faults, effects`activeTx, effects`plans
      ensures effects.Valid() && old(effects.writes) <= effects.writes
      ensures progress == Pending || progress == Going
      ensures OnlyDrifted(old(effects.disk).(journal := effects.disk.journal, quarantined := effects.disk.quarantined),
                          effects.disk)
      ensures if progress == Going then effects.disk.journal.None? && quarantined
              else effects.disk.journal in {Some(was), Some(was.(phase := Quarantined))}
      ensures progress == Going ==>
                exists i ::
                  |old(effects.writes)| <= i < |effects.writes| && effects.writes[i] == SaveJournal(was.(phase := Quarantined))
      ensures effects.disk.quarantined == (quarantined || old(effects.disk).quarantined)
      ensures effects.faults == if progress == Going then old(effects.faults) else old(effects.faults) + 1
    {
      hide effects.Valid;
      progress := Pending;
      var ok := effects.RecordQuarantine(true);
      quarantined := ok;
      ghost var at := |effects.writes|;
      if ok {
        ok := effects.WriteJournal(was.(phase := Quarantined));
      }
      if ok {
        assert effects.writes[at] == SaveJournal(was.(phase := Quarantined));
        ok := effects.CommitJournal(tx);
        progress := if ok then Going else Pending;
      }
    }

    /** The two suspending steps of a transaction on its way. */
    method SuspendAndNeutralize(was: Journal, before: Compensation, catalog: nat, ghost start: Disk,
                                ghost t: Transaction)
      returns (progress: Progress, journal: Journal, undo: Compensation)
      requires effects.Valid() && Underway(start, effects.disk, before, t) && t.ran == effects.running
      requires !before.routesNeutralized
      requires At(effects.disk, was, RuntimeSuspending, before, catalog)
      requires effects.disk.routes == start.routes && effects.activeTx == was.tx
      modifies effects`disk, effects`writes, effects`asked, effects`faults, effects`activeTx, effects`running,
               effects`plans
      ensures effects.Valid() && old(effects.writes) <= effects.writes
      ensures progress == Undo || progress == Going
      ensures Underway(start, effects.disk, undo, t)
      ensures undo == before.(routesNeutralized := undo.routesNeutralized)
      ensures Ids(effects.PlanOf(before.tx)) == old(effects.running) && effects.running <= old(effects.running)
      ensures progress == Going ==>
                && effects.running == {} && RoutesUndone(effects.disk)
                && At(effects.disk, journal, ReplacingVault, undo, catalog)
      ensures effects.faults == if progress == Going then old(effects.faults) else old(effects.faults) + 1
      ensures progress == Going ==> effects.asked == old(effects.asked) + [StopForwards, Request.UndoRoutes]
    {
      hide effects.Valid;
      undo := before;
      ghost var mid := effects.disk;
      ghost var plan;
      progress, journal, plan := Suspend(was);
      SuspendStep(start, mid, before, t, was, if progress == Going then journal else was, effects.disk, catalog);
      if progress == Going {
        ghost var suspended, recorded := effects.disk, journal;
        progress, journal, undo := Neutralize(journal, undo);
        NeutralizeStep(start, suspended, before, t, recorded, undo, effects.disk, catalog);
      }
    }

    /** Everything up to the rename; a failure on the way is still to be undone. */
    method Approach(tx: nat, facts: Facts, storage: nat, running: seq<int>, catalog: nat)
      returns (progress: Progress, journal: Journal, undo: Compensation)
      requires effects.Valid() && storage < effects.disk.live.nextSeal && tx !in effects.plans
      modifies effects`disk, effects`writes, effects`asked, effects`faults, effects`activeTx, effects`cached,
               effects`running, effects`plans
      ensures effects.Valid() && old(effects.writes) <= effects.writes && progress != Pending
      ensures progress == Refused ==>
                OnlyDrifted(old(effects.disk), effects.disk) && effects.running == old(effects.running)
      ensures progress != Refused ==>
                && Underway(old(effects.disk), effects.disk, undo,
                            Transaction(tx, facts, storage, running, old(effects.running)))
                && (undo.candidate.Some? ==> undo.candidate.value in effects.cached)
      ensures effects.running + Ids(effects.PlanOf(tx)) == old(effects.running)
      ensures progress == Going ==>
                && effects.running == {} && RoutesUndone(effects.disk)
                && At(effects.disk, journal, ReplacingVault, undo, catalog)
      ensures effects.faults == if progress == Going then old(effects.faults) else old(effects.faults) + 1
      ensures progress == Going ==> effects.asked == old(effects.asked) + [StopForwards, Request.UndoRoutes]
    {
      ghost var start := effects.disk;
      progress, journal, undo := Begin(tx, facts, storage, running, catalog, effects.running);
      if progress == Going {
        ghost var t := Transaction(tx, facts, storage, running, effects.running);
        progress, journal, undo := SuspendAndNeutralize(journal, undo, catalog, start, t);
      }
    }

    /** The rename and what follows it. */
    method Replace(was: Journal, undo: Compensation, catalog: nat, ghost start: Disk, ghost t: Transaction)
      returns (progress: Progress, quarantined: bool)
      requires effects.Valid() && Underway(start, effects.disk, undo, t)
      requires At(effects.disk, was, ReplacingVault, undo, catalog) && RoutesUndone(effects.disk)
      requires was.candidate.value in effects.cached
      modifies effects`disk, effects`writes, effects`faults, effects`activeTx, effects`plans
      ensures effects.Valid() && old(effects.writes) <= effects.writes && progress != Refused
      ensures progress == Undo ==> Underway(start, effects.disk, undo, t) && effects.plans == old(effects.plans)
      ensures progress == Pending ==>
                effects.disk.journal.Some? && effects.disk.replaced && Recorded(effects.disk.journal.value, t)
      ensures progress == Going ==> Restored(start, effects.disk, catalog) && quarantined
      ensures quarantined ==> effects.disk.quarantined
      ensures effects.faults == if progress == Going then old(effects.faults) else old(effects.faults) + 1
    {
      hide effects.Valid;
      quarantined := false;
      var journal;
      progress, journal := Swap(was, catalog);
      if progress == Going {
        assert effects.disk.candidates == start.candidates;
        progress, quarantined := Isolate(journal, undo.tx);
      }
    }

    /** Runs the compensation of a transaction that did not reach the rename. */
    method RollBack(undo: Compensation, ghost start: Disk, ghost t: Transaction) returns (ok: bool)
      requires effects.Valid() && Underway(start, effects.disk, undo, t)
      requires undo.candidate.Some? ==> undo.candidate.value in effects.cached
      modifies effects`disk, effects`writes, effects`faults, effects`activeTx, effects`cached, effects`running,
               effects`starts, effects`plans
      ensures effects.Valid() && old(effects.writes) <= effects.writes
      ensures if ok then RolledBack(start, effects.disk)
              else effects.disk.journal == old(effects.disk).journal && !effects.disk.replaced
      ensures old(effects.running) <= effects.running
      ensures ok ==> effects.running == old(effects.running) + Ids(old(effects.PlanOf(undo.tx)))
      ensures old(effects.faults) <= effects.faults && (ok <==> effects.faults == old(effects.faults))
    {
      ok := effects.Compensate(undo);
      if ok {
        DiscardUndoesTheSealing(start, old(effects.disk), undo, t, effects.disk);
      }
    }

    /** One transaction, from the captured facts to its end. `tx` is the fresh transaction id, if one could be made. */
    method CommitStaged(facts: Facts, catalog: nat, tx: Option<nat>, captured: Option<seq<int>>)
      returns (result: CommitResult, failure: Option<Failure>)
      requires effects.Valid() && (tx.Some? ==> tx.value !in effects.plans)
      modifies effects`disk, effects`writes, effects`asked, effects`faults, effects`activeTx, effects`cached,
               effects`running,
               effects`starts, effects`plans
      ensures effects.Valid() && old(effects.writes) <= effects.writes
      ensures failure.None? || failure.value in {NotPlanned, Undone, LeftPending}
      ensures failure == Some(NotPlanned) ==>
                && OnlyDrifted(old(effects.disk), effects.disk)
                && effects.running == old(effects.running) && effects.starts == old(effects.starts)
      ensures failure.None? ==>
                && Restored(old(effects.disk), effects.disk, catalog) && result.quarantined
                && effects.running == {} && effects.starts == old(effects.starts)
      ensures failure == Some(Undone) ==>
                RolledBack(old(effects.disk), effects.disk) && effects.running == old(effects.running)
      ensures result.journalPending <==> failure == Some(LeftPending)
      ensures result.journalPending ==>
                && tx.Some? && captured.Some? && effects.disk.journal.Some?
                && Recorded(effects.disk.journal.value,
                            Transaction(tx.value, facts, old(effects.disk).live.vault.storage, captured.value,
                                        old(effects.running)))
      ensures effects.disk.replaced && result.journalPending ==>
                effects.running == {} && effects.starts == old(effects.starts)
      ensures result.quarantined ==> effects.disk.quarantined
      // Only a port makes it fail, and a single one that fails before the rename is undone.
      ensures old(effects.faults) <= effects.faults
      ensures failure.None? <==> tx.Some? && captured.Some? && effects.faults == old(effects.faults)
      ensures failure == Some(NotPlanned) ==> tx.None? || captured.None? || effects.faults == old(effects.faults) + 1
      ensures failure == Some(LeftPending) ==> effects.disk.replaced || old(effects.faults) + 1 < effects.faults
      ensures result.tx == if failure.None? || failure == Some(LeftPending) then tx else None
      ensures failure.None? ==> effects.asked == old(effects.asked) + [StopForwards, Request.UndoRoutes]
    {
      result, failure := CommitResult(None, false, false), Some(NotPlanned);
      if tx.None? || captured.None? {
        return;
      }
      var progress, journal, undo :=
        Approach(tx.value, facts, effects.disk.live.vault.storage, captured.value, catalog);
      hide effects.Valid, Underway, At, Restored, RolledBack, OnlyDrifted, Recorded;
      var quarantined := false;
      ghost var t := Transaction(tx.value, facts, old(effects.disk).live.vault.storage, captured.value, old(effects.running));
      if progress == Going {
        progress, quarantined := Replace(journal, undo, catalog, old(effects.disk), t);
      }
      match progress {
        case Refused =>
        case Undo =>
          var ok := RollBack(undo, old(effects.disk), t);
          result := CommitResult(if ok then None else tx, false, !ok);
          failure := Some(if ok then Undone else LeftPending);
        case Pending =>
          result, failure := CommitResult(tx, quarantined, true), Some(LeftPending);
        case Going =>
          result, failure := CommitResult(tx, true, false), None;
      }
    }

    /**
     * Consumes a confirmed, current preview token once. `current` is the snapshot, and `package` the
     * revision of the staged vault, when reading them succeeds.
     */
    method CommitRestore(token: Option<nat>, confirmed: bool, current: Option<Facts>, package: Option<nat>,
                         tx: Option<nat>, captured: Option<seq<int>>)
      returns (result: CommitResult, failure: Option<Failure>)
      requires effects.Valid() && (tx.Some? ==> tx.value !in effects.plans)
      modifies `staged, effects`disk, effects`writes, effects`asked, effects`faults, effects`activeTx,
               effects`cached, effects`running,
               effects`starts, effects`plans
      ensures effects.Valid() && old(effects.writes) <= effects.writes
      // The token is spent by every call that gets past the three refusals, and by no other.
      ensures failure == Some(NotConfirmed) <==> !confirmed
      ensures failure == Some(BadToken) <==> confirmed && !Accepts(confirmed, token, old(staged))
      ensures staged == if failure in {Some(NotConfirmed), Some(BadToken), Some(SnapshotFailed)} then old(staged) else None
      ensures failure == Some(SnapshotFailed) <==> Accepts(confirmed, token, old(staged)) && current.None?
      ensures failure == Some(PreviewStale) <==>
                && Accepts(confirmed, token, old(staged)) && current.Some? && current.value != old(staged).value.facts
      // So whatever touches the disk was committed under the previewed facts, and only a port makes it fail then.
      ensures failure.None? || failure.value in {NotPlanned, Undone, LeftPending} ==>
                Accepts(confirmed, token, old(staged)) && current == Some(old(staged).value.facts)
      ensures old(effects.faults) <= effects.faults
      ensures failure.None? <==>
                && Accepts(confirmed, token, old(staged)) && current == Some(old(staged).value.facts)
                && package.Some? && tx.Some? && captured.Some? && effects.faults == old(effects.faults)
      ensures failure == Some(NotPlanned) ==>
                package.None? || tx.None? || captured.None? || effects.faults == old(effects.faults) + 1
      ensures failure == Some(LeftPending) ==> effects.disk.replaced || old(effects.faults) + 1 < effects.faults
      ensures result.tx == if failure.None? || failure == Some(LeftPending) then tx else None
      ensures failure.None? ==> effects.asked == old(effects.asked) + [StopForwards, Request.UndoRoutes]
      // A refused commit changes nothing.
      ensures failure.Some? && failure.value !in {Undone, LeftPending} ==>
                && OnlyDrifted(old(effects.disk), effects.disk) && !result.journalPending
                && effects.running == old(effects.running) && effects.starts == old(effects.starts)
      // A commit that succeeds restores the vault into isolation, with every forward stopped and none started.
      ensures failure.None? ==>
                && package.Some? && Restored(old(effects.disk), effects.disk, package.value) && result.quarantined
                && effects.running == {} && effects.starts == old(effects.starts)
      // One that is undone leaves the old vault with exactly the forwards running that ran before.
      ensures failure == Some(Undone) ==>
                RolledBack(old(effects.disk), effects.disk) && effects.running == old(effects.running)
      // Any other leaves a journal for recovery, and beside a renamed candidate nothing runs.
      ensures result.journalPending <==> failure == Some(LeftPending)
      ensures result.journalPending ==>
                && tx.Some? && captured.Some? && effects.disk.journal.Some?
                && Recorded(effects.disk.journal.value,
                            Transaction(tx.value, old(staged).value.facts, old(effects.disk).live.vault.storage,
                                        captured.value, old(effects.running)))
      ensures effects.disk.replaced && result.journalPending ==>
                effects.running == {} && effects.starts == old(effects.starts)
      ensures result.quarantined ==> effects.disk.quarantined
    {
      result := CommitResult(None, false, false);
      if !confirmed {
        return result, Some(NotConfirmed);
      }
      if staged.None? || token.None? || token.value != staged.value.token {
        return result, Some(BadToken);
      }
      if current.None? {
        return result, Some(SnapshotFailed);
      }
      var isCurrent := current.value == staged.value.facts;
      staged := None;
      if !isCurrent {
        return result, Some(PreviewStale);
      }
      if package.None? {
        return result, Some(NotPlanned);
      }
      hide effects.Valid, Restored, RolledBack, OnlyDrifted, Recorded;
      result, failure := CommitStaged(current.value, package.value, tx, captured);
    }
  }

  /** What an activation does once a forward did not start or the quarantine would not lift. */
  method Withdraw(effects: RestoreEffectsAdapter) returns (stopped: bool, undone: bool)
    requires effects.Valid() && effects.disk.quarantined
    modifies effects`disk, effects`writes, effects`asked, effects`faults, effects`running, effects`plans
    ensures effects.Valid() && old(effects.writes) <= effects.writes
    ensures OnlyDrifted(old(effects.disk).(routes := effects.disk.routes), effects.disk)
    ensures effects.running <= old(effects.running) && (stopped ==> effects.running == {})
    ensures if undone then RoutesUndone(effects.disk)
            else RouteSteps.PartlyUndone(old(effects.disk).routes.m, effects.disk.routes.m)
    ensures effects.asked == old(effects.asked) + [StopForwards, Request.UndoRoutes]
    ensures old(effects.faults) <= effects.faults && (stopped && undone <==> effects.faults == old(effects.faults))
  {
    hide effects.Valid;
    var plan;
    stopped, plan := effects.SuspendAll();
    undone := effects.NeutralizeRoutes();
  }

  /** The forwards marked to start automatically, and only then the end of the quarantine. */
  method StartAndLift(effects: RestoreEffectsAdapter, autoStart: seq<int>) returns (ok: bool)
    requires effects.Valid() && effects.disk.quarantined && effects.disk.journal.None? && InPlace(effects.disk.routes)
    modifies effects`disk, effects`writes, effects`faults, effects`running, effects`starts
    ensures effects.Valid() && old(effects.writes) <= effects.writes
    ensures OnlyDrifted(if ok then Perform(old(effects.disk), SetQuarantine(false)) else old(effects.disk), effects.disk)
    ensures old(effects.running) <= effects.running <= old(effects.running) + Ids(autoStart)
    ensures ok ==> Ids(autoStart) <= effects.running
    ensures old(effects.faults) <= effects.faults && (ok <==> effects.faults == old(effects.faults))
  {
    ok := effects.Resume(autoStart);
    if ok {
      ok := effects.RecordQuarantine(false);
    }
  }

  /** An activation past its checks. */
  method Activate(effects: RestoreEffectsAdapter, autoStart: seq<int>)
    returns (ok: bool, stopped: bool, undone: bool, ghost reconciled: bool, ghost faults: nat)
    requires effects.Valid() && effects.disk.quarantined && effects.disk.journal.None?
    modifies effects`disk, effects`writes, effects`asked, effects`faults, effects`running, effects`starts, effects`plans
    ensures effects.Valid() && old(effects.writes) <= effects.writes && old(effects.faults) <= effects.faults
    ensures OnlyDrifted((if ok then Perform(old(effects.disk), SetQuarantine(false)) else old(effects.disk))
                          .(routes := effects.disk.routes), effects.disk)
    ensures ok <==> RouteSteps.Supersedable(old(effects.disk).routes.m) && effects.faults == old(effects.faults)
    ensures ok ==> InPlace(effects.disk.routes) && effects.running == old(effects.running) + Ids(autoStart)
    ensures !ok ==> effects.running <= old(effects.running) + Ids(autoStart)
    ensures (undone ==> RoutesUndone(effects.disk)) && (stopped ==> effects.running == {}) && (ok ==> !stopped && !undone)
    ensures !ok ==>
              if reconciled then
                && effects.asked == old(effects.asked) + [StopForwards, Request.UndoRoutes]
                && (stopped && undone <==> effects.faults == old(effects.faults) + faults)
              else
                && effects.asked == old(effects.asked) + [Request.UndoRoutes]
                && effects.running == old(effects.running) && effects.starts == old(effects.starts)
                && (undone <==> effects.faults == old(effects.faults) + faults)
  {
    hide effects.Valid, RoutesUndone, RouteSteps.Supersedable;
    stopped, undone := false, false;
    ok := effects.ReconcileRoutes();
    reconciled, faults := ok, effects.faults - old(effects.faults);
    if !ok {
      undone := effects.NeutralizeRoutes();
      return;
    }
    ok := StartAndLift(effects, autoStart);
    faults := effects.faults - old(effects.faults);
    if !ok {
      stopped, undone := Withdraw(effects);
    }
  }

  /**
   * Service.ActivateRestoredNetwork: the documented way out of isolation. Only a success lifts the quarantine,
   * with the routes in place. A failure stops the forwards and undoes the routes again, as far as that succeeds,
   * and leaves the quarantine. `ready` stands for the reads and the CA confirmation before any effect, `autoStart`
   * for the forwards marked to start automatically; `stopped` and `undone` say what the last cleanup achieved,
   * `reconciled` how far it had come before, and `faults` how many ports had failed by then.
   */
  method ActivateRestoredNetwork(effects: RestoreEffectsAdapter, ready: bool, autoStart: seq<int>)
    returns (ok: bool, stopped: bool, undone: bool, ghost reconciled: bool, ghost faults: nat)
    requires effects.Valid()
    modifies effects`disk, effects`writes, effects`asked, effects`faults, effects`running, effects`starts, effects`plans
    ensures effects.Valid() && old(effects.writes) <= effects.writes
    ensures !old(effects.disk).quarantined || old(effects.disk).journal.Some? || !ready ==>
              effects.disk == old(effects.disk) && effects.running == old(effects.running)
    ensures OnlyDrifted(old(effects.disk).(routes := effects.disk.routes, quarantined := effects.disk.quarantined,
                                           isolated := effects.disk.isolated), effects.disk)
    ensures ok && old(effects.disk).quarantined ==>
              && !effects.disk.quarantined && !effects.disk.isolated && InPlace(effects.disk.routes)
              && old(effects.running) + Ids(autoStart) == effects.running
    ensures !ok ==> effects.disk.quarantined == old(effects.disk).quarantined
                    && effects.disk.isolated == old(effects.disk).isolated
                    && effects.running <= old(effects.running) + Ids(autoStart)
    ensures undone ==> RoutesUndone(effects.disk)
    ensures stopped ==> effects.running == {}
    ensures ok ==> !stopped && !undone
    // A failed reconciliation is followed by undoing the routes, a failed start or end of the quarantine also by
    // stopping every forward; only a port, or a route record that cannot be superseded, makes it fail.
    ensures old(effects.disk).quarantined && old(effects.disk).journal.None? && ready && !ok ==>
              if reconciled then
                && effects.asked == old(effects.asked) + [StopForwards, Request.UndoRoutes]
                && (stopped && undone <==> effects.faults == old(effects.faults) + faults)
              else
                && effects.asked == old(effects.asked) + [Request.UndoRoutes]
                && effects.running == old(effects.running) && effects.starts == old(effects.starts)
                && (undone <==> effects.faults == old(effects.faults) + faults)
    ensures old(effects.faults) <= effects.faults
    ensures ok <==> !old(effects.disk).quarantined
                    || (old(effects.disk).journal.None? && ready && RouteSteps.Supersedable(old(effects.disk).routes.m)
                        && effects.faults == old(effects.faults))
  {
    ok, stopped, undone, reconciled, faults := !effects.disk.quarantined, false, false, false, 0;
    if !effects.disk.quarantined || effects.disk.journal.Some? || !ready { return; }
    hide effects.Valid, RoutesUndone, RouteSteps.Supersedable, InPlace;
    ok, stopped, undone, reconciled, faults := Activate(effects, autoStart);
  }
}
