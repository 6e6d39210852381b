/**
 * The adapter behind a restore: the durable writes, the runtime and route ports, compensation of
 * an interrupted commit and recovery at startup. Each port call may fail, and between any two of
 * them writers that bypass the mutation gate may have changed the vault.
 */
module RestoreRecovery {
  import opened Common
  import opened RestoreProtocol
  import RouteSteps

  /** The vault changed by ungated writes only, and not at all if there were none. */
  predicate Drifts(was: LiveVault, now: LiveVault) {
    && was.drift <= now.drift && was.nextSeal <= now.nextSeal
    && (if was.drift == now.drift then now.vault == was.vault else was.nextSeal <= now.vault.storage)
  }

  /** `now` is `was` up to ungated vault writes. */
  predicate OnlyDrifted(was: Disk, now: Disk) {
    now == was.(live := now.live) && Drifts(was.live, now.live)
  }

  /** The routes are in place, as some vault asked for them. */
  predicate InPlace(r: RouteSteps.Router) {
    && r.task.Idle? && r.m.journal.None? && (r.m.state.status.Applied? || r.m.state.status.HostsOnly?)
    && r.m.state.revision.Some? && r.m.hosts == r.m.state.hosts
  }

  predicate ReconciledTo(r: RouteSteps.Router, catalog: nat) { InPlace(r) && r.m.state.revision == Some(catalog) }

  /** Every managed effect is undone and recorded so. */
  predicate RoutesUndone(d: Disk) {
    d.routes.task.Idle? && d.routes.m == RouteSteps.Machine([], None, false, RouteSteps.NEUTRALIZED_STATE, None)
  }

  /** A reconciliation that did not succeed is visibly pending, or left hosts and trust as they were. */
  predicate PutBack(was: RouteSteps.Machine, now: RouteSteps.Machine) {
    now.journal.Some? || (now.hosts == was.hosts && now.ca == was.ca)
  }

  ghost function Ids(ids: seq<int>): set<int> { set id | id in ids }

  datatype Request = StopForwards | UndoRoutes

  datatype Compensation = Compensation(
    tx: nat,
    candidate: Option<nat>,
    routesNeutralized: bool)

  /** Recovery ended on the restored vault: isolated, routes undone, its candidate file gone. */
  ghost predicate NewVaultIsolated(was: Disk, now: Disk) {
    && now.journal.None? && now.quarantined && RoutesUndone(now)
    && OnlyDrifted(was.(journal := None, quarantined := true, routes := now.routes, candidates := now.candidates), now)
  }

  /** Recovery ended on the old vault: routes back and every forward the journal named running. */
  ghost predicate OldVaultResumed(was: Disk, wasRunning: set<int>, j: Journal, now: Disk, running: set<int>) {
    && !was.replaced && now.journal.None? && !now.quarantined
    && OnlyDrifted(was.(journal := None, quarantined := false, routes := now.routes, candidates := now.candidates), now)
    && (if Order(RuntimeSuspending) <= Order(j.phase)
        then InPlace(now.routes) && wasRunning + Ids(j.running) == running
        else now.routes == was.routes && running == wasRunning)
  }

  method Enumerate(ids: set<int>) returns (list: seq<int>)
    ensures Ids(list) == ids
  {
    list := [];
    var rest := ids;
    while rest != {}
      invariant rest <= ids && Ids(list) == ids - rest
      decreases |rest|
    {
      assert (forall x :: x !in rest) ==> rest == {};
      var id :| id in rest;
      rest := rest - {id};
      assert Ids(list + [id]) == Ids(list) + {id};
      list := list + [id];
    }
  }

  /** A resume of a journal's forwards stopped after `done` of them. */
  ghost predicate ResumedAt(was: Disk, wasRunning: set<int>, j: Journal, done: nat, now: Disk, running: set<int>) {
    && OnlyDrifted(was.(journal := now.journal), now) && StoppedAt(j, wasRunning, done, now.journal, running)
  }

  ghost predicate ResumedUpTo(was: Disk, wasRunning: set<int>, j: Journal, now: Disk, running: set<int>) {
    exists done: nat :: ResumedAt(was, wasRunning, j, done, now, running)
  }

  /** One step of a resume: the journal's first forward started and crossed off, or the step failed. */
  ghost predicate ResumedOne(was: Disk, wasRunning: set<int>, ok: bool, now: Disk, running: set<int>)
    requires was.journal.Some? && was.journal.value.running != []
  {
    var j := was.journal.value;
    && OnlyDrifted(was.(journal := Some(if ok then j.(running := j.running[1..]) else j)), now)
    && wasRunning <= running <= wasRunning + {j.running[0]}
    && (ok ==> j.running[0] in running)
  }

  /** Only forwards of the journal that did not run already have been started. */
  ghost predicate Restarts(was: seq<int>, now: seq<int>, j: Journal, wasRunning: set<int>) {
    && was <= now && forall i :: |was| <= i < |now| ==> now[i] in Ids(j.running) - wasRunning
  }

  lemma OneRestart(was: seq<int>, before: seq<int>, now: seq<int>, j: Journal, wasRunning: set<int>, done: nat)
    requires Restarts(was, before, j, wasRunning) && done < |j.running|
    requires now == before || (now == before + [j.running[done]] && j.running[done] !in wasRunning)
    ensures Restarts(was, now, j, wasRunning)
  {
  }

  lemma ResumeStep(was: Disk, wasRunning: set<int>, j: Journal, done: nat,
                   mid: Disk, midRunning: set<int>, ok: bool, now: Disk, running: set<int>)
    requires ResumedAt(was, wasRunning, j, done, mid, midRunning) && done < |j.running|
    requires mid.journal.Some? && mid.journal.value.running != [] && ResumedOne(mid, midRunning, ok, now, running)
    ensures var next := if ok then done + 1 else done;
      && ResumedAt(was, wasRunning, j, next, now, running)
      && now.journal == Some(j.(running := j.running[next..])) && now.replaced == was.replaced && wasRunning <= running
  {
    assert j.running[..done + 1] == j.running[..done] + [j.running[done]];
    assert j.running[done..][1..] == j.running[done + 1..];
    assert j.running[done] in Ids(j.running);
  }

  /** An application that is over has reconciled the routes, put them back, or is visibly stuck. */
  lemma ApplicationEnds(was: RouteSteps.Machine, begin: RouteSteps.Step, r: RouteSteps.Router)
    requires begin.BeginApply? && RouteSteps.Follows(was, begin, r) && r.task.Idle?
    ensures if r.task.last.Done? then ReconciledTo(r, begin.desired.revision) else PutBack(was, r.m)
  {
    hide RouteSteps.Inv;
  }

  /**
   * A resume that stopped somewhere: the record names exactly the forwards from there on, all before them run,
   * and of the others at most the next one does.
   */
  ghost predicate StoppedAt(j: Journal, wasRunning: set<int>, done: nat, now: Option<Journal>, running: set<int>) {
    && done <= |j.running| && now == Some(j.(running := j.running[done..]))
    && wasRunning + Ids(j.running[..done]) <= running
    && running <= wasRunning + Ids(j.running[..done]) + (if done < |j.running| then {j.running[done]} else {})
  }

  ghost predicate Unfinished(j: Journal, wasRunning: set<int>, now: Option<Journal>, running: set<int>) {
    exists done: nat :: StoppedAt(j, wasRunning, done, now, running)
  }

  /** From `runtime_suspending` on the old vault's routes have to be put back. */
  predicate Reconcilable(j: Journal, d: Disk) {
    Order(RuntimeSuspending) <= Order(j.phase) ==> RouteSteps.Supersedable(d.routes.m)
  }

  /** What recovery can decide and do: the restored vault, or the very old vault the record was written for. */
  predicate Recoverable(d: Disk)
    requires d.journal.Some?
  {
    var j := d.journal.value;
    && Known(j.phase) && j.tx.Some?
    && (SaysReplaced(j, d.live.vault)
        || (j.before.vault == Some(d.live.vault.catalog) && Reconcilable(j, d)))
  }

  lemma NothingDone(j: Journal, running: set<int>)
    ensures Unfinished(j, running, Some(j), running)
  {
    assert j.running[0..] == j.running && StoppedAt(j, running, 0, Some(j), running);
  }

  class RestoreEffectsAdapter {
    var disk: Disk
    var running: set<int>
    var activeTx: Option<nat>
    var plans: map<nat, seq<int>>
    var cached: set<nat>

    // Ghost record of what this process did: its durable writes, its calls of Runtime.Start, its requests to stop
    // or undo things, and how many of all its port calls failed.
    ghost var boot: Disk
    ghost var writes: seq<Write>
    ghost var starts: seq<int>
    ghost var asked: seq<Request>
    ghost var faults: nat

    ghost predicate Logged()
      reads `boot, `writes, `disk
    {
      && CrashSafe(boot) && AllowedRun(boot, writes)
      && disk == Run(boot, writes)
      && CrashSafe(disk)
    }

    /** Between operations of the router. */
    ghost predicate Valid()
      reads `boot, `writes, `disk
    {
      Logged() && disk.routes.task.Idle?
    }

    /** A process starts from whatever disk an earlier one left when it died. */
    constructor (left: Disk)
      requires CrashSafe(left)
      ensures Valid() && disk == boot == Died(left) && running == {} && starts == [] && writes == [] && faults == 0
      ensures activeTx.None? && plans == map[] && cached == {}
    {
      WriteKeepsCrashSafe(left, RouteStep(RouteSteps.Crash));
      disk, boot, running, activeTx, plans, cached := Died(left), Died(left), {}, None, map[], {};
      writes, starts, asked, faults := [], [], [], 0;
    }

    // ---------- Ports ----------

    method Put(w: Write)
      requires Logged() && Allowed(disk, w)
      modifies `disk, `writes
      ensures Logged() && disk == Perform(old(disk), w) && writes == old(writes) + [w]
    {
      assert (writes + [w])[..|writes|] == writes;
      WriteKeepsCrashSafe(disk, w);
      disk := Perform(disk, w);
      writes := writes + [w];
    }

    /** Any number of vault writes that do not pass the mutation gate. */
    method Interfere()
      requires Valid()
      modifies `disk, `writes
      ensures Valid() && old(writes) <= writes && OnlyDrifted(old(disk), disk)
    {
      var n: nat :| true;
      for i := 0 to n
        invariant Valid() && old(writes) <= writes && OnlyDrifted(old(disk), disk)
      {
        var catalog: nat := *;
        Put(UngatedWrite(catalog));
      }
    }

    method WriteJournal(j: Journal) returns (ok: bool)
      requires Valid() && Allowed(disk, SaveJournal(j))
      modifies `disk, `writes, `activeTx, `faults
      ensures Valid() && old(writes) <= writes && (ok ==> old(writes) + [SaveJournal(j)] <= writes)
      ensures ok ==> OnlyDrifted(Perform(old(disk), SaveJournal(j)), disk) && activeTx == j.tx
      ensures !ok ==> OnlyDrifted(old(disk), disk) && activeTx == old(activeTx)
      ensures faults == if ok then old(faults) else old(faults) + 1
    {
      ok := *;
      if ok {
        Put(SaveJournal(j));
        activeTx := j.tx;
      }
      if !ok { faults := faults + 1; }
      Interfere();
    }

    method PrepareCandidate(catalog: nat) returns (candidate: Option<nat>)
      requires Valid()
      modifies `disk, `writes, `cached, `faults
      ensures Valid() && old(writes) <= writes
      ensures candidate.Some? ==> candidate.value !in old(disk).candidates && cached == old(cached) + {candidate.value}
      ensures candidate.Some? ==> OnlyDrifted(Perform(old(disk), SealCandidate(candidate.value, catalog)), disk)
      ensures candidate.None? ==> OnlyDrifted(old(disk), disk) && cached == old(cached)
      ensures faults == if candidate.Some? then old(faults) else old(faults) + 1
    {
      var id: nat := *;
      if id in disk.candidates {
        candidate := None; // the name is taken, or the file cannot be written
        faults := faults + 1;
      } else {
        Put(SealCandidate(id, catalog));
        cached := cached + {id};
        candidate := Some(id);
      }
      Interfere();
    }

    method ReplaceVault(candidate: nat) returns (ok: bool)
      requires Valid()
      requires candidate in disk.candidates ==> Allowed(disk, RenameCandidate(candidate))
      modifies `disk, `writes, `faults
      ensures Valid() && old(writes) <= writes
      ensures ok ==>
                && candidate in cached && candidate in old(disk).candidates
                && OnlyDrifted(Perform(old(disk), RenameCandidate(candidate)), disk)
      ensures !ok ==> OnlyDrifted(old(disk), disk)
      ensures candidate in cached && candidate in old(disk).candidates ==> (ok <==> faults == old(faults))
      ensures old(faults) <= faults <= old(faults) + 1 && (ok ==> faults == old(faults))
    {
      ok := *;
      if candidate !in cached || candidate !in disk.candidates {
        ok := false;
      } else if ok {
        Put(RenameCandidate(candidate));
      } else {
        faults := faults + 1;
      }
      Interfere();
    }

    method DiscardCandidate(candidate: nat) returns (ok: bool)
      requires Valid()
      modifies `disk, `writes, `faults
      ensures Valid() && old(writes) <= writes
      ensures ok ==> OnlyDrifted(old(disk).(candidates := old(disk).candidates - {candidate}), disk)
      ensures !ok ==> OnlyDrifted(old(disk), disk)
      ensures faults == if ok then old(faults) else old(faults) + 1
    {
      ok := *;
      if ok {
        Put(DropCandidate(candidate));
      }
      if !ok { faults := faults + 1; }
      Interfere();
    }

    method RecordQuarantine(on: bool) returns (ok: bool)
      requires Valid() && Allowed(disk, SetQuarantine(on))
      modifies `disk, `writes, `faults
      ensures Valid() && old(writes) <= writes
      ensures ok ==> OnlyDrifted(Perform(old(disk), SetQuarantine(on)), disk)
      ensures !ok ==> OnlyDrifted(old(disk), disk)
      ensures faults == if ok then old(faults) else old(faults) + 1
    {
      ok := *;
      if ok {
        Put(SetQuarantine(on));
      }
      if !ok { faults := faults + 1; }
      Interfere();
    }

    /** Removing the journal; a missing one is a success. */
    method DeleteJournal() returns (ok: bool)
      requires Valid() && (disk.journal.Some? ==> Allowed(disk, RemoveJournal))
      modifies `disk, `writes, `faults
      ensures Valid() && old(writes) <= writes
      ensures ok ==> OnlyDrifted(old(disk).(journal := None), disk)
      ensures !ok ==> OnlyDrifted(old(disk), disk) && disk.journal.Some?
      ensures faults == if ok then old(faults) else old(faults) + 1
    {
      ok := *;
      if disk.journal.None? {
        ok := true;
      } else if ok {
        Put(RemoveJournal);
      }
      if !ok { faults := faults + 1; }
      Interfere();
    }

    method CommitJournal(tx: nat) returns (ok: bool)
      requires Valid() && (disk.journal.Some? ==> Allowed(disk, RemoveJournal))
      modifies `disk, `writes, `plans, `activeTx, `faults
      ensures Valid() && old(writes) <= writes && activeTx.None? && plans == old(plans) - {tx}
      ensures ok ==> OnlyDrifted(old(disk).(journal := None), disk)
      ensures !ok ==> OnlyDrifted(old(disk), disk) && disk.journal.Some?
      ensures faults == if ok then old(faults) else old(faults) + 1
    {
      plans := plans - {tx};
      activeTx := None;
      ok := DeleteJournal();
    }

    /** Whatever the router's ports answer, until the operation it has begun is over. */
    method Answers(ghost was: RouteSteps.Machine, ghost begun: RouteSteps.Step)
      requires Logged() && RouteSteps.Follows(was, begun, disk.routes) && (begun.BeginApply? || begun.BeginNeutralize?)
      modifies `disk, `writes
      ensures Valid() && old(writes) <= writes && disk == old(disk).(routes := disk.routes)
      ensures RouteSteps.Follows(was, begun, disk.routes)
    {
      while !disk.routes.task.Idle?
        invariant Logged() && old(writes) <= writes && disk == old(disk).(routes := disk.routes)
        invariant RouteSteps.Follows(was, begun, disk.routes)
        decreases RouteSteps.Remaining(disk.routes.task)
      {
        var ok, late, taken: bool, running: bool, other: nat := *, *, *, *, *;
        var a := RouteSteps.Answer(ok, late, taken, if running then Some(other) else None);
        RouteSteps.ReplyFollows(was, begun, disk.routes, a);
        RouteSteps.RepliesEnd(disk.routes, a);
        hide RouteSteps.Follows, RouteSteps.Next, RouteSteps.Remaining, CrashSafe;
        Put(RouteStep(RouteSteps.Reply(a)));
      }
    }

    /** RouterBiz.NeutralizeRoutes; its recorded state may be unreadable. */
    method NeutralizeRoutes() returns (ok: bool)
      requires Valid() && (disk.journal.Some? || disk.quarantined)
      modifies `disk, `writes, `asked, `faults
      ensures Valid() && old(writes) <= writes
      ensures OnlyDrifted(old(disk).(routes := disk.routes), disk)
      ensures if ok then RoutesUndone(disk) else RouteSteps.PartlyUndone(old(disk).routes.m, disk.routes.m)
      ensures faults == if ok then old(faults) else old(faults) + 1
      ensures asked == old(asked) + [Request.UndoRoutes]
    {
      ok := *;
      if ok {
        RouteSteps.BeginFollows(disk.routes, RouteSteps.BeginNeutralize);
        Put(RouteStep(RouteSteps.BeginNeutralize));
        hide RouteSteps.Next;
        Answers(old(disk).routes.m, RouteSteps.BeginNeutralize);
        ok := disk.routes.task.last.Undone?;
      }
      asked := asked + [Request.UndoRoutes];
      if !ok { faults := faults + 1; }
      Interfere();
    }

    /** One application of the router, from its first record to its end. */
    method RunApply(desired: RouteSteps.Desired, before: RouteSteps.Before, tx: nat, saved: bool) returns (ok: bool)
      requires Valid() && !(disk.journal.Some? && disk.replaced)
      requires RouteSteps.Supersedable(disk.routes.m) && RouteSteps.Reads(before, disk.routes.m)
      modifies `disk, `writes
      ensures Valid() && old(writes) <= writes && disk == old(disk).(routes := disk.routes)
      ensures if ok then ReconciledTo(disk.routes, desired.revision) else PutBack(old(disk).routes.m, disk.routes.m)
    {
      var begin := RouteSteps.BeginApply(desired, before, tx, saved);
      RouteSteps.BeginFollows(disk.routes, begin);
      Put(RouteStep(begin));
      hide RouteSteps.Next, RouteSteps.Follows, CrashSafe, Allowed, AllowedRun, Run;
      Answers(old(disk).routes.m, begin);
      ApplicationEnds(old(disk).routes.m, begin, disk.routes);
      ok := disk.routes.task.last.Done?;
    }

    /**
     * RouterBiz.ReconcileRoutes for what the live vault asks for, which may not load or compile, may want a
     * confirmation or meet a record that cannot be superseded. Never over a vault being restored.
     */
    method ReconcileRoutes() returns (ok: bool)
      requires Valid() && !(disk.journal.Some? && disk.replaced)
      modifies `disk, `writes, `faults
      ensures Valid() && old(writes) <= writes
      ensures OnlyDrifted(old(disk).(routes := disk.routes), disk)
      ensures if ok then ReconciledTo(disk.routes, old(disk).live.vault.catalog)
              else PutBack(old(disk).routes.m, disk.routes.m)
      ensures ok <==> faults == old(faults) && RouteSteps.Supersedable(old(disk).routes.m)
      ensures !RouteSteps.Supersedable(old(disk).routes.m) ==> disk.routes == old(disk).routes
      ensures old(faults) <= faults <= old(faults) + 1
    {
      ok := *;
      var m := disk.routes.m;
      if !ok { faults := faults + 1; }
      if m.journal.Some? && (m.journal.value.tx.None? || m.journal.value.phase.UnknownPhase?) { ok := false; }
      if ok {
        var entries: seq<HostEntry>, uses, config: nat, tx: nat, saved, named, file: nat, trusted := *, *, *, *, *, *, *, *;
        var desired := RouteSteps.Desired(entries, if uses then Some(config) else None, disk.live.vault.catalog);
        var before := RouteSteps.Before(m.hosts, m.caddy.Some?, if named then Some(file) else None, trusted && m.ca);
        ok := RunApply(desired, before, tx, saved);
        if !ok { faults := faults + 1; }
      }
      Interfere();
    }

    method StartForward(id: int) returns (ok: bool)
      modifies `running, `starts, `faults
      ensures starts == old(starts) + [id]
      ensures running == if ok then old(running) + {id} else old(running)
      ensures faults == if ok then old(faults) else old(faults) + 1
    {
      ok := *;
      starts := starts + [id];
      if ok {
        running := running + {id};
      } else {
        faults := faults + 1;
      }
    }

    /** Stops every running forward in parallel; on an error some of them may still run. */
    method SuspendAll() returns (ok: bool, plan: seq<int>)
      modifies `running, `plans, `asked, `faults
      ensures plans == if activeTx.Some? then old(plans)[activeTx.value := plan] else old(plans)
      ensures Ids(plan) == old(running) && running <= old(running)
      ensures ok ==> running == {}
      ensures faults == if ok then old(faults) else old(faults) + 1
      ensures asked == old(asked) + [StopForwards]
    {
      plan := Enumerate(running);
      ok := *;
      var stuck: set<int> := *;
      var left: set<int> := if ok then {} else running * stuck;
      running := left;
      asked := asked + [StopForwards];
      if !ok { faults := faults + 1; }
      if activeTx.Some? {
        plans := plans[activeTx.value := plan];
      }
    }

    method Resume(plan: seq<int>) returns (ok: bool)
      modifies `running, `starts, `faults
      ensures old(running) <= running <= old(running) + Ids(plan)
      ensures ok ==> running == old(running) + Ids(plan)
      ensures old(faults) <= faults && (ok <==> faults == old(faults))
      ensures starts == old(starts) + plan
    {
      ok := true;
      for i := 0 to |plan|
        invariant old(running) <= running <= old(running) + Ids(plan)
        invariant ok ==> running == old(running) + Ids(plan[..i])
        invariant starts == old(starts) + plan[..i]
        invariant old(faults) <= faults && (ok <==> faults == old(faults))
      {
        var started := StartForward(plan[i]);
        ok := ok && started;
        assert plan[..i + 1] == plan[..i] + [plan[i]];
      }
      assert plan[..|plan|] == plan;
    }

    // ---------- Compensation ----------

    ghost function PlanOf(tx: nat): seq<int>
      reads `plans
    {
      if tx in plans then plans[tx] else []
    }

    /** Restarts what the transaction suspended, and forgets its plan whether or not that works. */
    method ResumeSuspended(tx: nat) returns (ok: bool)
      modifies `running, `starts, `plans, `activeTx, `faults
      ensures old(running) <= running && activeTx.None? && plans == old(plans) - {tx}
      ensures ok ==> running == old(running) + Ids(old(PlanOf(tx)))
      ensures old(faults) <= faults && (ok <==> faults == old(faults))
    {
      var plan := if tx in plans then plans[tx] else [];
      plans := plans - {tx};
      activeTx := None;
      ok := true;
      if plan != [] {
        ok := Resume(plan);
      }
    }

    /** Discards the candidate this process prepared, if it prepared one. */
    method ForgetCandidate(candidate: Option<nat>) returns (ok: bool)
      requires Valid()
      modifies `disk, `writes, `cached, `faults
      ensures Valid() && old(writes) <= writes
      ensures OnlyDrifted(old(disk).(candidates := disk.candidates), disk)
      ensures ok ==> disk.candidates == old(if candidate.Some? && candidate.value in cached
                                            then disk.candidates - {candidate.value} else disk.candidates)
      ensures cached == old(if candidate.Some? then cached - {candidate.value} else cached)
      ensures old(faults) <= faults && (ok <==> faults == old(faults))
    {
      ok := true;
      if candidate.Some? && candidate.value in cached {
        cached := cached - {candidate.value};
        ok := DiscardCandidate(candidate.value);
      }
    }

    method UndoRoutes(neutralized: bool) returns (ok: bool)
      requires Valid() && !(disk.journal.Some? && disk.replaced)
      modifies `disk, `writes, `faults
      ensures Valid() && old(writes) <= writes
      ensures OnlyDrifted(old(disk).(routes := disk.routes), disk)
      ensures if neutralized then ok ==> ReconciledTo(disk.routes, old(disk).live.vault.catalog)
              else ok && disk.routes == old(disk).routes
      ensures old(faults) <= faults <= old(faults) + 1
      ensures (neutralized ==> RouteSteps.Supersedable(old(disk).routes.m)) ==> (ok <==> faults == old(faults))
    {
      ok := true;
      if neutralized {
        ok := ReconcileRoutes();
      }
    }

    /**
     * Undoes a commit that stopped before the rename. The journal is consumed only when everything
     * else succeeded; routes are reconciled only if neutralizing them had fully succeeded.
     */
    method Compensate(state: Compensation) returns (ok: bool)
      requires Valid() && disk.journal.Some? && !disk.replaced
      requires var j := disk.journal.value;
               j.candidate.Some? ==> j.candidate == state.candidate && j.candidate.value in cached
      modifies `disk, `writes, `running, `starts, `plans, `cached, `activeTx, `faults
      ensures Valid() && old(writes) <= writes
      ensures OnlyDrifted(old(disk).(journal := disk.journal, candidates := disk.candidates, routes := disk.routes), disk)
      ensures disk.journal == if ok then None else old(disk).journal
      ensures ok ==> disk.candidates == old(if state.candidate.Some? && state.candidate.value in cached
                                            then disk.candidates - {state.candidate.value} else disk.candidates)
      ensures ok ==> running == old(running) + Ids(old(PlanOf(state.tx)))
      ensures if state.routesNeutralized then ok ==> ReconciledTo(disk.routes, old(disk).live.vault.catalog)
              else disk.routes == old(disk).routes
      ensures old(running) <= running && activeTx.None? && plans == old(plans) - {state.tx}
      ensures old(faults) <= faults
      ensures (state.routesNeutralized ==> RouteSteps.Supersedable(old(disk).routes.m)) ==>
                (ok <==> faults == old(faults))
    {
      hide Valid;
      var routesBack := UndoRoutes(state.routesNeutralized);
      var resumed := ResumeSuspended(state.tx);
      var dropped := ForgetCandidate(state.candidate);
      ok := routesBack && resumed && dropped;
      if ok {
        ok := DeleteJournal();
      }
    }

    // ---------- Recovery at startup ----------

    /** Starts the first forward of the journal unless it ran already, then crosses it off. */
    method ResumeNext(alreadyRunning: set<int>) returns (ok: bool)
      requires Valid() && disk.journal.Some? && !disk.replaced && alreadyRunning <= running
      requires Order(RuntimeSuspending) <= Order(disk.journal.value.phase) && disk.journal.value.running != []
      modifies `disk, `writes, `running, `starts, `activeTx, `faults
      ensures Valid() && old(writes) <= writes
      ensures ResumedOne(old(disk), old(running), ok, disk, running)
      ensures faults == if ok then old(faults) else old(faults) + 1
      ensures starts == old(starts)
              || (starts == old(starts) + [old(disk).journal.value.running[0]]
                  && old(disk).journal.value.running[0] !in alreadyRunning)
    {
      var j := disk.journal.value;
      ok := *; // the caller may have given up
      if !ok {
        faults := faults + 1;
      } else if j.running[0] !in alreadyRunning {
        ok := StartForward(j.running[0]);
      }
      if ok {
        ok := WriteJournal(j.(running := j.running[1..]));
      }
    }

    /**
     * Restarts the forwards a journal names, crossing each off the durable record once it runs.
     * Wherever this stops, the record names exactly the forwards from the stopping point on, and
     * every forward before it runs.
     */
    method ResumeJournalForwards(ghost j: Journal) returns (ok: bool)
      requires Valid() && disk.journal == Some(j) && !disk.replaced
      requires Order(RuntimeSuspending) <= Order(j.phase)
      modifies `disk, `writes, `running, `starts, `activeTx, `faults
      ensures Valid() && old(writes) <= writes
      ensures ResumedUpTo(old(disk), old(running), j, disk, running)
      ensures ok ==> ResumedAt(old(disk), old(running), j, |j.running|, disk, running)
      ensures old(faults) <= faults && (ok <==> faults == old(faults))
      ensures Restarts(old(starts), starts, j, old(running))
    {
      var alreadyRunning := running;
      ghost var done: nat := 0;
      assert j.running[0..] == j.running && j.running[..0] == [];
      assert ResumedAt(old(disk), alreadyRunning, j, done, disk, running);
      hide Valid, OnlyDrifted, Ids, ResumedAt, ResumedOne, StoppedAt, Restarts;
      ok := *; // the running forwards cannot be read
      if !ok { faults := faults + 1; }
      while ok && disk.journal.value.running != []
        invariant Valid() && old(writes) <= writes
        invariant ResumedAt(old(disk), alreadyRunning, j, done, disk, running)
        invariant disk.journal == Some(j.(running := j.running[done..])) && !disk.replaced && alreadyRunning <= running
        invariant Restarts(old(starts), starts, j, alreadyRunning)
        invariant old(faults) <= faults && (ok <==> faults == old(faults))
        decreases |j.running| - done, ok
      {
        ghost var mid, midRunning := disk, running;
        ghost var before := starts;
        ok := ResumeNext(alreadyRunning);
        OneRestart(old(starts), before, starts, j, alreadyRunning, done);
        ResumeStep(old(disk), alreadyRunning, j, done, mid, midRunning, ok, disk, running);
        done := if ok then done + 1 else done;
      }
    }

    method DiscardJournalCandidate(candidate: Option<nat>) returns (ok: bool)
      requires Valid()
      modifies `disk, `writes, `faults
      ensures Valid() && old(writes) <= writes
      ensures OnlyDrifted(old(disk).(candidates := disk.candidates), disk)
      ensures ok && candidate.Some? ==> candidate.value !in disk.candidates
      ensures old(faults) <= faults && (ok <==> faults == old(faults))
    {
      ok := true;
      if candidate.Some? {
        ok := DiscardCandidate(candidate.value);
      }
    }

    /** The candidate is live, or may be: settle on an isolated vault without touching forwards. */
    method ConvergeNewVault(j: Journal, tx: nat) returns (ok: bool)
      requires Valid() && disk.journal == Some(j)
      modifies `disk, `writes, `plans, `activeTx, `asked, `faults
      ensures Valid() && old(writes) <= writes
      ensures OnlyDrifted(old(disk).(journal := disk.journal, quarantined := disk.quarantined, routes := disk.routes,
                                     candidates := disk.candidates), disk)
      ensures if ok then NewVaultIsolated(old(disk), disk) && CandidateGone(disk, j) else disk.journal == Some(j)
      ensures old(faults) <= faults && (ok <==> faults == old(faults))
    {
      hide Valid;
      ok := NeutralizeRoutes();
      if ok {
        ok := RecordQuarantine(true);
      }
      if ok {
        ok := DiscardJournalCandidate(j.candidate);
      }
      if ok {
        ok := CommitJournal(tx);
      }
    }

    /** From `runtime_suspending` on, put routes and forwards of the old vault back. */
    method ResumeOldVault(j: Journal) returns (ok: bool)
      requires Valid() && disk.journal == Some(j) && !disk.replaced
      modifies `disk, `writes, `running, `starts, `activeTx, `faults
      ensures Valid() && old(writes) <= writes
      ensures OnlyDrifted(old(disk).(journal := disk.journal, routes := disk.routes), disk)
      ensures disk.journal.Some? && disk.journal.value.candidate == j.candidate
      ensures Unfinished(j, old(running), disk.journal, running)
      ensures ok ==>
                if Order(RuntimeSuspending) <= Order(j.phase)
                then InPlace(disk.routes) && running == old(running) + Ids(j.running)
                else disk.routes == old(disk).routes && running == old(running)
      ensures old(faults) <= faults
      ensures ok <==> faults == old(faults) && Reconcilable(j, old(disk))
      ensures !Reconcilable(j, old(disk)) ==>
                OnlyDrifted(old(disk), disk) && running == old(running) && starts == old(starts)
      ensures Restarts(old(starts), starts, j, old(running))
    {
      hide Valid;
      ok := true;
      NothingDone(j, running);
      if Order(RuntimeSuspending) <= Order(j.phase) {
        ok := ReconcileRoutes();
        if ok {
          ok := ResumeJournalForwards(j);
          assert j.running[..|j.running|] == j.running;
        }
      }
    }

    method ConvergeOldVault(j: Journal, tx: nat) returns (ok: bool)
      requires Valid() && disk.journal == Some(j) && !disk.replaced
      modifies `disk, `writes, `running, `starts, `plans, `activeTx, `faults
      ensures Valid() && old(writes) <= writes
      ensures OnlyDrifted(old(disk).(journal := disk.journal, quarantined := disk.quarantined, routes := disk.routes,
                                     candidates := disk.candidates), disk)
      ensures if ok then OldVaultResumed(old(disk), old(running), j, disk, running) && CandidateGone(disk, j)
              else Unfinished(j, old(running), disk.journal, running)
      ensures old(faults) <= faults
      ensures ok <==> faults == old(faults) && Reconcilable(j, old(disk))
      ensures !Reconcilable(j, old(disk)) ==>
                OnlyDrifted(old(disk), disk) && running == old(running) && starts == old(starts)
      ensures Restarts(old(starts), starts, j, old(running))
    {
      hide Valid;
      ok := ResumeOldVault(j);
      if ok {
        ok := DiscardJournalCandidate(j.candidate);
      }
      if ok {
        ok := RecordQuarantine(false);
      }
      if ok {
        ok := CommitJournal(tx);
      }
    }

    /**
     * Without a journal, a recorded quarantine of the network is an intent: unless the router's own record says
     * `quarantined` and no transaction is pending, the routes are undone again. Only the record is asked, so
     * success means undone routes exactly when the record was truthful.
     */
    method ConvergePersistedQuarantine() returns (ok: bool)
      requires Valid() && disk.journal.None?
      modifies `disk, `writes, `asked, `faults
      ensures Valid() && old(writes) <= writes
      ensures OnlyDrifted(old(disk).(routes := disk.routes), disk)
      ensures !old(disk).quarantined || RouteSteps.SaysNeutral(old(disk).routes.m) ==> disk.routes == old(disk).routes
      ensures ok && old(disk).quarantined && !RouteSteps.SaysNeutral(old(disk).routes.m) ==> RoutesUndone(disk)
      ensures ok && old(disk).quarantined ==> (RoutesNeutral(disk) <==> RouteSteps.Truthful(old(disk).routes.m))
      ensures old(faults) <= faults && (ok <==> faults == old(faults))
    {
      ok := *; // one of the records cannot be read
      if !ok { faults := faults + 1; }
      if !ok || !disk.quarantined { return; }
      var pending := disk.routes.m.journal.Some?;
      if !pending && disk.routes.m.state.status.Quarantined? { return; }
      ok := NeutralizeRoutes();
    }

    /** Reads the vault's public revision and, later, its storage digest. */
    method InspectVault() returns (ok: bool, catalog: nat, storage: nat)
      requires Valid()
      modifies `disk, `writes, `faults
      ensures Valid() && old(writes) <= writes && OnlyDrifted(old(disk), disk)
      ensures catalog == old(disk).live.vault.catalog && storage == disk.live.vault.storage
      ensures faults == if ok then old(faults) else old(faults) + 1
    {
      catalog := disk.live.vault.catalog;
      Interfere();
      storage := disk.live.vault.storage;
      ok := *;
      if !ok { faults := faults + 1; }
    }

    /** Decides by what was read of the vault, and converges. */
    method Converge(j: Journal, catalog: nat, storage: nat) returns (ok: bool)
      requires Valid() && disk.journal == Some(j) && j.tx.Some?
      requires disk.replaced ==> SaysReplaced(j, VaultFile(storage, catalog))
      modifies `disk, `writes, `running, `starts, `plans, `activeTx, `asked, `faults
      ensures Valid() && old(writes) <= writes && old(faults) <= faults
      ensures old(disk).live.drift <= disk.live.drift
      ensures !ok ==> Unfinished(j, old(running), disk.journal, running)
      ensures old(disk).replaced ==> starts == old(starts) && running == old(running)
      ensures ok ==> CandidateGone(disk, j)
      ensures if SaysReplaced(j, VaultFile(storage, catalog)) then
                && (ok <==> faults == old(faults)) && starts == old(starts) && running == old(running)
                && (ok ==> NewVaultIsolated(old(disk), disk))
              else if j.before.vault == Some(catalog) && Reconcilable(j, old(disk)) then
                (ok <==> faults == old(faults)) && (ok ==> OldVaultResumed(old(disk), old(running), j, disk, running))
              else !ok && OnlyDrifted(old(disk), disk) && running == old(running) && starts == old(starts)
      ensures Restarts(old(starts), starts, j, old(running))
    {
      NothingDone(j, running);
      hide Valid;
      if SaysReplaced(j, VaultFile(storage, catalog)) {
        ok := ConvergeNewVault(j, j.tx.value);
      } else if j.before.vault != Some(catalog) {
        ok := false;
      } else {
        ok := ConvergeOldVault(j, j.tx.value);
      }
    }

    /** A journal was found. */
    method RecoverJournal(j: Journal) returns (ok: bool)
      requires Valid() && disk.journal == Some(j)
      modifies `disk, `writes, `running, `starts, `plans, `activeTx, `asked, `faults
      ensures Valid() && old(writes) <= writes && old(faults) <= faults
      ensures !ok ==> Unfinished(j, old(running), disk.journal, running)
      ensures old(disk).replaced ==> starts == old(starts) && running == old(running)
      ensures ok ==> Known(j.phase) && j.tx.Some? && CandidateGone(disk, j)
      ensures ok ==>
                if NewVaultIsolated(old(disk), disk) then starts == old(starts) && running == old(running)
                else OldVaultResumed(old(disk), old(running), j, disk, running)
                     && j.before.vault == Some(old(disk).live.vault.catalog)
      ensures disk.live.drift == old(disk).live.drift ==>
                && (ok <==> faults == old(faults) && Recoverable(old(disk)))
                && (ok ==> if SaysReplaced(j, old(disk).live.vault) then NewVaultIsolated(old(disk), disk)
                           else OldVaultResumed(old(disk), old(running), j, disk, running))
                && (!Recoverable(old(disk)) ==>
                      OnlyDrifted(old(disk), disk) && running == old(running) && starts == old(starts))
      ensures Restarts(old(starts), starts, j, old(running))
    {
      var readable: bool := *;
      NothingDone(j, running);
      if !readable { faults := faults + 1; }
      if !readable || j.tx.None? || !Known(j.phase) {
        return false;
      }
      var catalog, storage;
      ok, catalog, storage := InspectVault();
      if !ok {
        return;
      }
      if disk.replaced {
        CandidateIsNeverTakenForOldVault(disk, catalog);
      }
      hide Valid, SaysReplaced, Unfinished;
      ok := Converge(j, catalog, storage);
    }

    /**
     * Startup recovery. A found journal ends, when this succeeds, in exactly one of two states, both
     * without a journal; when it fails a journal is still there. While the candidate is live no
     * forward is started, whatever happens. Nothing but a port makes it fail over a state it can decide.
     */
    method RecoverPending() returns (ok: bool)
      requires Valid()
      modifies `disk, `writes, `running, `starts, `plans, `activeTx, `asked, `faults
      ensures Valid() && old(writes) <= writes && old(faults) <= faults
      ensures old(disk).journal.Some? && !ok ==>
                Unfinished(old(disk).journal.value, old(running), disk.journal, running)
      ensures old(disk).journal.Some? && old(disk).replaced ==> starts == old(starts) && running == old(running)
      ensures old(disk).journal.Some? && ok ==>
                var j := old(disk).journal.value;
                && Known(j.phase) && j.tx.Some? && CandidateGone(disk, j)
                && if NewVaultIsolated(old(disk), disk) then starts == old(starts) && running == old(running)
                   else OldVaultResumed(old(disk), old(running), j, disk, running)
                        && j.before.vault == Some(old(disk).live.vault.catalog)
      ensures old(disk).journal.Some? && disk.live.drift == old(disk).live.drift ==>
                var j := old(disk).journal.value;
                && (ok <==> faults == old(faults) && Recoverable(old(disk)))
                && (ok ==> if SaysReplaced(j, old(disk).live.vault) then NewVaultIsolated(old(disk), disk)
                           else OldVaultResumed(old(disk), old(running), j, disk, running))
                && (!Recoverable(old(disk)) ==>
                      OnlyDrifted(old(disk), disk) && running == old(running) && starts == old(starts))
      ensures old(disk).journal.None? ==>
                && (ok <==> faults == old(faults))
                && OnlyDrifted(old(disk).(routes := disk.routes), disk)
                && (!old(disk).quarantined ==> disk.routes == old(disk).routes)
                && (ok && old(disk).quarantined ==> (RoutesNeutral(disk) <==> RouteSteps.Truthful(old(disk).routes.m)))
      ensures old(disk).journal.Some? ==> Restarts(old(starts), starts, old(disk).journal.value, old(running))
      ensures old(disk).journal.None? ==> starts == old(starts) && running == old(running)
    {
      hide *;
      if disk.journal.None? {
        ok := ConvergePersistedQuarantine();
      } else {
        ok := RecoverJournal(disk.journal.value);
      }
    }
  }
}
