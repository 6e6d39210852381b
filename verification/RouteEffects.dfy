/**
 * RouterBiz itself: applying, compensating, neutralizing and resuming as the source writes them, every port call
 * proved to be the step the step machine takes next.
 */
module RouteEffects {
  import opened Common
  import opened RouteSteps

  class RouterBiz {
    var m: Machine

    /** Where the router stands, the operation it is in, and all its steps since the process started. */
    ghost var task: Task
    ghost var was: Machine
    ghost var begun: Step
    ghost var boot: Router
    ghost var steps: seq<Step>

    ghost function Now(): Router
      reads this
    {
      Router(task, m)
    }

    ghost predicate Valid()
      reads this
    {
      EnabledRun(boot, steps) && Run(boot, steps) == Now() && Follows(was, begun, Now())
    }

    /** The same process, further on. */
    twostate predicate Later()
      reads this
    {
      boot == old(boot) && old(steps) <= steps
    }

    constructor (m: Machine)
      ensures Valid() && Now() == boot == Quiet(m) && steps == []
    {
      this.m, task, was, begun, boot, steps := m, Idle(Nothing), m, Crash, Quiet(m), [];
    }

    // ---------- Steps ----------

    /** Records that what has just happened to the machine was this step. */
    ghost method Took(before: Machine, step: Step)
      requires EnabledRun(boot, steps) && Run(boot, steps) == Router(task, before)
               && Follows(was, begun, Router(task, before))
      requires Enabled(Router(task, before), step) && Next(Router(task, before), step).m == m && !step.Crash?
      modifies `task, `was, `begun, `steps
      ensures Valid() && Later() && Now() == Next(Router(old(task), before), step) && steps == old(steps) + [step]
      ensures step.Reply? ==> was == old(was) && begun == old(begun)
      ensures !step.Reply? ==> was == before && begun == step
    {
      var r := Router(task, before);
      OneMore(boot, steps, step);
      if step.Reply? {
        StepKeepsInv(r, step);
        if begun.BeginApply? || begun.BeginNeutralize? { ReplyFollows(was, begun, r, step.a); }
      } else {
        StepKeepsInv(r, step);
        if !step.Resume? { BeginFollows(r, step); }
        was, begun := before, step;
      }
      steps := steps + [step];
      task := Next(r, step).task;
    }

    /** The call comes next that turns the machine into `next` if it has its effect. */
    ghost predicate ExpectsEffect(next: Machine)
      reads this
    {
      !task.Idle? && forall a: Answer :: Next(Now(), Reply(a)).m == if Happened(a) then next else m
    }

    ghost predicate ExpectsWrite(next: Machine)
      reads this
    {
      !task.Idle? && forall a: Answer :: Next(Now(), Reply(a)).m == if a.ok then next else m
    }

    ghost predicate ExpectsLoad(config: nat)
      reads this
    {
      !task.Idle? && forall a: Answer :: Next(Now(), Reply(a)).m == WithCaddy(m, config, a)
    }

    /** There is nothing to do at this stage: no port is called, and none could change what follows. */
    ghost method Pass()
      requires Valid() && !task.Idle? && Next(Now(), YES).m == m
      requires forall a: Answer :: Next(Now(), Reply(a)) == Next(Now(), YES)
      modifies `task, `was, `begun, `steps
      ensures Valid() && Later() && Now() == Next(old(Now()), YES) && was == old(was) && begun == old(begun)
    {
      Took(m, YES);
    }

    // ---------- Ports: each may fail, and an effect may happen although it reports a failure ----------

    method Ask() returns (ok: bool, ghost a: Answer)
      requires Valid() && ExpectsWrite(m)
      modifies this
      ensures Valid() && Later() && Now() == Next(old(Now()), Reply(a)) && a.ok == ok
      ensures was == old(was) && begun == old(begun)
    {
      ok := *;
      a := Answer(ok, false, false, None);
      Took(m, Reply(a));
    }

    method Effect(next: Machine) returns (ok: bool, ghost a: Answer)
      requires Valid() && ExpectsEffect(next)
      modifies this
      ensures Valid() && Later() && Now() == Next(old(Now()), Reply(a)) && a.ok == ok
      ensures was == old(was) && begun == old(begun)
    {
      hide Next, Follows, Run, EnabledRun;
      ghost var before := m;
      ok := *;
      var late: bool := *;
      a := Answer(ok, late, false, None);
      if ok || late { m := next; }
      Took(before, Reply(a));
    }

    /** An atomic write of one of the two records. */
    method Write(next: Machine) returns (ok: bool, ghost a: Answer)
      requires Valid() && ExpectsWrite(next)
      modifies this
      ensures Valid() && Later() && Now() == Next(old(Now()), Reply(a)) && a.ok == ok
      ensures was == old(was) && begun == old(begun)
    {
      hide Next, Follows, Run, EnabledRun;
      ghost var before := m;
      ok := *;
      a := Answer(ok, false, false, None);
      if ok { m := next; }
      Took(before, Reply(a));
    }

    method Load(config: nat) returns (ok: bool, taken: bool, ghost a: Answer)
      requires Valid() && ExpectsLoad(config)
      modifies this
      ensures Valid() && Later() && Now() == Next(old(Now()), Reply(a)) && a.ok == ok && a.taken == taken
      ensures was == old(was) && begun == old(begun)
    {
      hide Next, Follows, Run, EnabledRun;
      ghost var before := m;
      ok, taken := *, *;
      var running: bool, other: nat := *, *;
      var left := if running then Some(other) else None;
      a := Answer(ok, false, taken, left);
      m := WithCaddy(m, config, Answer(ok, false, taken, left));
      Took(before, Reply(a));
    }

    // ---------- The stages of an application ----------

    ghost predicate At(stage: Stage)
      reads this
    {
      Valid() && task.Applying? && task.at == stage
    }

    /** The stage is over: the transaction goes on at `next`, with this known of it. */
    twostate predicate Moved(next: Stage, c: Apply)
      reads this
    {
      Valid() && Later() && task == Applying(next, c) && was == old(was) && begun == old(begun)
    }

    method EnsureHelper(needed: bool) returns (ok: bool)
      requires At(AskHelper) && needed == (task.c.desired.entries != [] || task.c.before.entries != [])
      modifies this
      ensures Moved(if ok then PutHosts else UndoTrust, old(task).c)
    {
      hide Run, EnabledRun, Follows, Backward, Neutralize, ApplyOk;
      ok := true;
      ghost var a;
      if needed { ok, a := Ask(); } else { Pass(); }
    }

    method ReplaceHosts(entries: seq<HostEntry>, prev: seq<HostEntry>) returns (ok: bool, mutated: bool)
      requires At(PutHosts) && entries == task.c.desired.entries && prev == task.c.before.entries
      modifies this
      ensures mutated <==> entries != prev
      ensures Moved(if ok then MarkHosts else UndoTrust, old(task).c.(undo := Undo(mutated, false, false)))
    {
      SoFar();
      hide Run, EnabledRun, Follows, Backward, Neutralize, ApplyOk;
      mutated, ok := entries != prev, true;
      ghost var a;
      if mutated { ok, a := Effect(m.(hosts := entries)); } else { Pass(); }
    }

    /** What the way forward implies about the effects begun. */
    lemma SoFar()
      requires Valid() && task.Applying? && !Undoing(task.at)
      ensures ForwardOk(task.at, task.c, m)
    {
    }

    /** The phase a stage records, and the stage after it. */
    ghost predicate Marks(phase: JournalPhase, next: Stage)
      requires task.Applying?
      reads this
    {
      match task.at
      case MarkHosts => phase == HostsApplied && next == (if task.c.desired.config.None? then StopCaddy else AskRedirect)
      case MarkNeutral => phase == Neutralized && next == Publish
      case MarkCaddy => phase == CaddyApplied && next == AskTrust
      case MarkTrust => phase == CaApplied && next == Publish
      case _ => false
    }

    method Advance(phase: JournalPhase, tx: nat, ghost next: Stage) returns (ok: bool)
      requires Valid() && task.Applying? && Marks(phase, next) && tx == task.c.tx
      modifies this
      ensures Moved(if ok then next else UndoTrust, old(task).c)
    {
      hide Run, EnabledRun, Follows, Backward, Neutralize, ApplyOk;
      ghost var a;
      ok, a := Write(m.(journal := Some(RouteJournal(Some(tx), phase))));
    }

    method EnsureStopped(running: bool) returns (ok: bool)
      requires At(StopCaddy) && running == task.c.before.running
      modifies this
      ensures Moved(if ok then Untrust else UndoTrust, old(task).c.(undo := Undo(old(task).c.undo.hosts, running, false)))
    {
      SoFar();
      hide Run, EnabledRun, Follows, Backward, Neutralize, ApplyOk;
      ok := true;
      ghost var a;
      if running { ok, a := Effect(m.(caddy := None)); } else { Pass(); }
    }

    method EnsureUntrusted(trusted: bool) returns (ok: bool)
      requires At(Untrust) && trusted == task.c.before.trusted
      modifies this
      ensures Moved(if ok then MarkNeutral else UndoTrust, old(task).c.(undo := old(task).c.undo.(ca := trusted)))
    {
      SoFar();
      hide Run, EnabledRun, Follows, Backward, Neutralize, ApplyOk;
      ok := true;
      ghost var a;
      if trusted { ok, a := Effect(m.(ca := false)); } else { Pass(); }
    }

    method EnsureRedirect() returns (ok: bool)
      requires At(AskRedirect)
      modifies this
      ensures Moved(if ok then LoadCaddy else UndoTrust, old(task).c.(undo := Undo(old(task).c.undo.hosts, true, false)))
    {
      SoFar();
      hide Run, EnabledRun, Follows, Backward, Neutralize, ApplyOk;
      ghost var a;
      ok, a := Ask();
    }

    method Reload(config: nat) returns (ok: bool, taken: bool)
      requires At(LoadCaddy) && task.c.desired.config == Some(config)
      modifies this
      ensures taken ==> ok
      ensures Moved(if !ok then UndoTrust else if taken then Publish else MarkCaddy,
                    old(task).c.(portTaken := taken))
    {
      SoFar();
      hide Run, EnabledRun, Follows, Backward, Neutralize, ApplyOk;
      ghost var a;
      ok, taken, a := Load(config);
      taken := ok && taken;
    }

    method AskStatus() returns (ok: bool)
      requires At(AskTrust)
      modifies this
      ensures Moved(if ok then Trust else UndoTrust, old(task).c)
    {
      hide Run, EnabledRun, Follows, Backward, Neutralize, ApplyOk;
      ghost var a;
      ok, a := Ask();
    }

    method EnsureTrusted() returns (ok: bool, mutated: bool)
      requires At(Trust)
      modifies this
      ensures Moved(if ok then MarkTrust else UndoTrust, old(task).c.(undo := old(task).c.undo.(ca := mutated)))
    {
      SoFar();
      hide Run, EnabledRun, Follows, Backward, Neutralize, ApplyOk;
      mutated, ok := !m.ca, true;
      ghost var a;
      if mutated { ok, a := Effect(m.(ca := true)); } else { Pass(); }
    }

    // ---------- Applying ----------

    /** Forward, or about to be undone, with these effects begun. */
    twostate predicate Mutated(undo: Undo, portTaken: bool)
      reads this
    {
      && Valid() && Later() && old(task).Applying? && task.Applying? && was == old(was) && begun == old(begun)
      && task.c == old(task).c.(undo := undo, portTaken := portTaken)
    }

    /** The hosts block, if it differs from what is wanted. */
    method MutateHosts(entries: seq<HostEntry>, prev: seq<HostEntry>, tx: nat) returns (ok: bool, mutated: bool)
      requires At(AskHelper) && entries == task.c.desired.entries && prev == task.c.before.entries && tx == task.c.tx
      modifies this
      ensures Mutated(Undo(mutated, false, false), false)
      ensures task.at == if !ok then UndoTrust else if task.c.desired.config.None? then StopCaddy else AskRedirect
    {
      SoFar();
      hide Valid;
      mutated := false;
      ok := EnsureHelper(entries != [] || prev != []);
      if !ok { return; }
      ok, mutated := ReplaceHosts(entries, prev);
      if !ok { return; }
      ok := Advance(HostsApplied, tx, if task.c.desired.config.None? then StopCaddy else AskRedirect);
    }

    /** No route uses Caddy: stop it, and take back the trust that the first reading saw. */
    method MutateWithoutCaddy(running: bool, trusted: bool, tx: nat) returns (ok: bool, caMutated: bool)
      requires At(StopCaddy)
      requires running == task.c.before.running && trusted == task.c.before.trusted && tx == task.c.tx
      modifies this
      ensures Mutated(Undo(old(task).c.undo.hosts, running, caMutated), false)
      ensures task.at == if ok then Publish else UndoTrust
    {
      SoFar();
      assert !task.c.undo.caddy && !task.c.undo.ca && !task.c.portTaken;
      hide Valid, ForwardOk;
      caMutated := false;
      ok := EnsureStopped(running);
      if !ok { return; }
      ok, caMutated := UntrustAndMark(trusted, tx);
    }

    /** Takes the trust back and marks that nothing is left. */
    method UntrustAndMark(trusted: bool, tx: nat) returns (ok: bool, caMutated: bool)
      requires At(Untrust) && trusted == task.c.before.trusted && tx == task.c.tx
      modifies this
      ensures caMutated <==> trusted
      ensures Moved(if ok then Publish else UndoTrust, old(task).c.(undo := old(task).c.undo.(ca := caMutated)))
    {
      hide Valid;
      caMutated := trusted;
      ok := EnsureUntrusted(trusted);
      if !ok { return; }
      ok := Advance(Neutralized, tx, Publish);
    }

    /** The reloaded Caddy is marked, and its CA trusted and marked. */
    method TrustReloaded(tx: nat) returns (ok: bool, caMutated: bool)
      requires At(MarkCaddy) && tx == task.c.tx
      modifies this
      ensures Moved(if ok then Publish else UndoTrust, old(task).c.(undo := old(task).c.undo.(ca := caMutated)))
    {
      SoFar();
      hide Valid;
      caMutated := false;
      ok := MarkAndAsk(tx);
      if !ok { return; }
      ok, caMutated := EnsureTrusted();
      if !ok { return; }
      ok := Advance(CaApplied, tx, Publish);
    }

    method MarkAndAsk(tx: nat) returns (ok: bool)
      requires At(MarkCaddy) && tx == task.c.tx
      modifies this
      ensures Moved(if ok then Trust else UndoTrust, old(task).c)
    {
      hide Valid;
      ok := Advance(CaddyApplied, tx, AskTrust);
      if !ok { return; }
      ok := AskStatus();
    }

    /** Some route uses Caddy: reload it and, unless its port is taken, see that its CA is trusted. */
    method MutateWithCaddy(config: nat, tx: nat) returns (ok: bool, caMutated: bool, conflict: bool)
      requires At(AskRedirect) && task.c.desired.config == Some(config) && tx == task.c.tx
      modifies this
      ensures Mutated(Undo(old(task).c.undo.hosts, true, caMutated), conflict) && (conflict ==> ok)
      ensures task.at == if ok then Publish else UndoTrust
    {
      SoFar();
      hide Valid;
      caMutated, conflict := false, false;
      ok := EnsureRedirect();
      if !ok { return; }
      ok, conflict := Reload(config);
      if !ok || conflict { return; }
      ok, caMutated := TrustReloaded(tx);
    }

    method Mutate(desired: Desired, before: Before, tx: nat) returns (ok: bool, undo: Undo, conflict: bool)
      requires At(AskHelper) && desired == task.c.desired && before == task.c.before && tx == task.c.tx
      modifies this
      ensures Mutated(undo, conflict)
      ensures task.at == if ok then Publish else UndoTrust
    {
      hide Valid;
      conflict := false;
      var hostsMutated, caMutated;
      ok, hostsMutated := MutateHosts(desired.entries, before.entries, tx);
      undo := Undo(hostsMutated, false, false);
      if !ok { return; }
      if desired.config.None? {
        ok, caMutated := MutateWithoutCaddy(before.running, before.trusted, tx);
        undo := Undo(hostsMutated, before.running, caMutated);
      } else {
        ok, caMutated, conflict := MutateWithCaddy(desired.config.value, tx);
        undo := Undo(hostsMutated, true, caMutated);
      }
    }

    method RecordApplied(desired: Desired, conflict: bool) returns (ok: bool)
      requires At(Publish) && desired == task.c.desired && conflict == task.c.portTaken
      modifies this
      ensures Moved(if ok then Finish else UndoTrust, old(task).c.(published := ok))
    {
      SoFar();
      hide Run, EnabledRun, Follows, Backward, Neutralize, ApplyOk, AppliedState;
      ghost var a;
      ok, a := Write(m.(state := AppliedState(desired, conflict)));
    }

    method ClearApplied() returns (ok: bool)
      requires At(Finish)
      modifies this
      ensures Valid() && Later() && was == old(was) && begun == old(begun)
      ensures task == if ok then Idle(Done(old(task).c.portTaken)) else Applying(UndoTrust, old(task).c)
    {
      hide Run, EnabledRun, Follows, Backward, Neutralize, ApplyOk, AppliedState;
      ghost var a;
      ok, a := Write(m.(journal := None));
    }

    /** Publishes success: state first, journal last. */
    method Complete(desired: Desired, conflict: bool) returns (ok: bool, published: bool)
      requires At(Publish) && desired == task.c.desired && conflict == task.c.portTaken
      modifies this
      ensures Valid() && Later() && was == old(was) && begun == old(begun)
      ensures if ok then task == Idle(Done(conflict))
              else task.Applying? && task.at.UndoTrust? && task.c == old(task).c.(published := published)
    {
      published := RecordApplied(desired, conflict);
      ok := published;
      if ok { ok := ClearApplied(); }
    }

    // ---------- Compensating ----------

    /** On the way back, with this much undone. */
    twostate predicate Back(next: Stage)
      reads this
    {
      && Valid() && Later() && old(task).Applying? && task.Applying? && task.at == next
      && was == old(was) && begun == old(begun)
      && task.c == old(task).c.(undone := task.c.undone, undoTaken := task.c.undoTaken, cleared := task.c.cleared)
    }

    /** Remove newly introduced trust before the previous Caddy is restored. */
    method RemoveNewTrust(needed: bool) returns (ok: bool)
      requires At(UndoTrust) && needed == (task.c.undo.ca && !task.c.before.trusted)
      modifies this
      ensures Back(UndoCaddy) && task.c == old(task).c.(undone := old(task).c.undone && ok)
    {
      hide Run, EnabledRun, Follows, Forward, Neutralize, ApplyOk;
      ok := true;
      ghost var a;
      if needed { ok, a := Effect(m.(ca := false)); } else { Pass(); }
    }

    /** A rollback that meets a taken port is not reported as a failure. */
    method RestoreCaddy(needed: bool, before: Before) returns (ok: bool, taken: bool)
      requires At(UndoCaddy) && needed == task.c.undo.caddy && before == task.c.before && !task.c.undoTaken
      modifies this
      ensures Back(UndoHosts) && task.c == old(task).c.(undone := old(task).c.undone && ok, undoTaken := taken)
    {
      hide Run, EnabledRun, Follows, Forward, Neutralize, ApplyOk;
      ok, taken := true, false;
      ghost var a;
      if needed && before.running && before.config.Some? {
        ok, taken, a := Load(before.config.value);
        taken := ok && taken;
      } else if needed && !before.running {
        ok, a := Effect(m.(caddy := None));
      } else {
        Pass();
      }
    }

    method RestoreHosts(needed: bool, entries: seq<HostEntry>) returns (ok: bool)
      requires At(UndoHosts) && needed == task.c.undo.hosts && entries == task.c.before.entries
      modifies this
      ensures Back(UndoUntrust) && task.c == old(task).c.(undone := old(task).c.undone && ok)
    {
      hide Run, EnabledRun, Follows, Forward, Neutralize, ApplyOk;
      ok := true;
      ghost var a;
      if needed { ok, a := Effect(m.(hosts := entries)); } else { Pass(); }
    }

    /** Restore removed trust only when the previous Caddy is active again. */
    method RestoreTrust(needed: bool) returns (ok: bool)
      requires At(UndoUntrust) && needed == (task.c.undo.ca && task.c.before.trusted)
      modifies this
      ensures Back(ClearUndone) && task.c == old(task).c.(undone := old(task).c.undone && ok)
    {
      hide Run, EnabledRun, Follows, Forward, Neutralize, ApplyOk;
      ok := true;
      ghost var a;
      if needed { ok, a := Effect(m.(ca := true)); } else { Pass(); }
    }

    /** Undoes the mutations in reverse; a failed undo does not stop the others. */
    method Compensate(before: Before, undo: Undo) returns (ok: bool, taken: bool)
      requires At(UndoTrust) && before == task.c.before && undo == task.c.undo && task.c.undone && !task.c.undoTaken
      modifies this
      ensures Back(ClearUndone) && task.c == old(task).c.(undone := ok, undoTaken := taken)
    {
      hide Valid;
      var caddyBack, hostsBack;
      caddyBack, taken := UndoTrustAndCaddy(before, undo);
      hostsBack := UndoHostsAndTrust(before, undo);
      ok := caddyBack && hostsBack;
    }

    method UndoTrustAndCaddy(before: Before, undo: Undo) returns (ok: bool, taken: bool)
      requires At(UndoTrust) && before == task.c.before && undo == task.c.undo && !task.c.undoTaken
      modifies this
      ensures Back(UndoHosts) && task.c == old(task).c.(undone := old(task).c.undone && ok, undoTaken := taken)
    {
      hide Valid;
      var trustGone := RemoveNewTrust(undo.ca && !before.trusted);
      ok, taken := RestoreCaddy(undo.caddy, before);
      ok := ok && trustGone;
    }

    method UndoHostsAndTrust(before: Before, undo: Undo) returns (ok: bool)
      requires At(UndoHosts) && before == task.c.before && undo == task.c.undo
      modifies this
      ensures Back(ClearUndone) && task.c == old(task).c.(undone := old(task).c.undone && ok)
    {
      hide Valid;
      var hostsBack := RestoreHosts(undo.hosts, before.entries);
      ok := RestoreTrust(undo.ca && before.trusted);
      ok := ok && hostsBack;
    }

    /**
     * The deferred failure path: undo, clear the journal if everything was undone, and mark the prior state as
     * failed. What it leaves is one of the outcomes of an application.
     */
    method RollBack(before: Before, undo: Undo, prior: RouteState, tx: nat, published: Option<bool>)
      returns (cleared: bool, saved: bool, taken: bool)
      requires At(UndoTrust) && before == task.c.before && undo == task.c.undo && prior == task.c.start.state
               && tx == task.c.tx
      requires published == if task.c.published then Some(task.c.portTaken) else None
      requires task.c.undone && !task.c.undoTaken && !task.c.cleared
      modifies this
      ensures Valid() && Later() && was == old(was) && begun == old(begun)
      ensures task == Idle(if cleared then RolledBack(saved, published, taken) else Stuck(saved))
    {
      var undone;
      undone, taken := Compensate(before, undo);
      cleared := ClearIf(undone);
      saved := Record(prior, tx, cleared);
    }

    method ClearIf(undone: bool) returns (cleared: bool)
      requires At(ClearUndone) && undone == task.c.undone && !task.c.cleared
      modifies this
      ensures Back(RecordFailure) && task.c == old(task).c.(cleared := cleared)
    {
      hide Run, EnabledRun, Follows, Forward, Neutralize, ApplyOk;
      cleared := false;
      ghost var a;
      if undone { cleared, a := Write(m.(journal := None)); } else { Pass(); }
    }

    method Record(prior: RouteState, tx: nat, cleared: bool) returns (saved: bool)
      requires At(RecordFailure) && prior == task.c.start.state && tx == task.c.tx && cleared == task.c.cleared
      modifies this
      ensures Valid() && Later() && was == old(was) && begun == old(begun)
      ensures var c := old(task).c;
        task == Idle(if cleared then RolledBack(saved, if c.published then Some(c.portTaken) else None, c.undoTaken)
                     else Stuck(saved))
    {
      hide Run, EnabledRun, Follows, Forward, Neutralize, ApplyOk;
      ghost var a;
      saved, a := Write(m.(state := prior.(status := Failed, pendingTx := if cleared then None else Some(tx))));
    }

    // ---------- Whole operations ----------

    /** What is read before any effect; an unreadable CA status counts as untrusted. */
    static function Reading(m: Machine, configFile: Option<nat>, statusReadable: bool): (before: Before)
      ensures Reads(before, m)
    {
      Before(m.hosts, m.caddy.Some?, configFile, statusReadable && m.ca)
    }

    /** From the journal's first record on: mutate, publish, or roll back. */
    method Transact(desired: Desired, before: Before, prior: RouteState, tx: nat, recorded: bool)
      returns (result: Result)
      requires Valid() && task.Idle? && Supersedable(m) && Reads(before, m) && prior == m.state
      modifies this
      ensures Valid() && Later() && task == Idle(result) && was == old(m)
      ensures Outcome(old(m), m, desired, before.config, result) && (result.Refused? ==> m == old(m))
      ensures old(steps) + [BeginApply(desired, before, tx, recorded)] <= steps && (result.Refused? <==> !recorded)
    {
      ghost var step, start := BeginApply(desired, before, tx, true), m;
      if !recorded {
        Took(m, BeginApply(desired, before, tx, false));
        assert old(steps) + [BeginApply(desired, before, tx, false)] <= steps;
        return Refused;
      }
      m := m.(journal := Some(RouteJournal(Some(tx), Planned)));
      Took(start, step);
      result := Proceed(desired, before, prior, tx);
      Ends();
      assert old(steps) + [step] <= steps;
    }

    /** What an application that has ended amounts to. */
    lemma Ends()
      requires Valid() && task.Idle? && begun.BeginApply? && begun.saved
      ensures Outcome(was, m, begun.desired, begun.before.config, task.last)
      ensures task.last.Done? || task.last.RolledBack? || task.last.Stuck?
    {
    }

    method Proceed(desired: Desired, before: Before, prior: RouteState, tx: nat) returns (result: Result)
      requires At(AskHelper) && task.c == Begun(was, desired, before, tx) && prior == was.state
      modifies this
      ensures Valid() && Later() && task == Idle(result) && was == old(was) && begun == old(begun)
      ensures !result.Refused?
    {
      hide Valid;
      var ok, undo, conflict := Mutate(desired, before, tx);
      var published := None;
      if ok {
        var recorded;
        ok, recorded := Complete(desired, conflict);
        if ok { return Done(conflict); }
        published := if recorded then Some(conflict) else None;
      }
      var cleared, saved, taken := RollBack(before, undo, prior, tx, published);
      result := if cleared then RolledBack(saved, published, taken) else Stuck(saved);
    }

    /**
     * ReconcileRoutes: brings the machine to what the vault asks for, or undoes what it did. `desired` is what
     * loading and compiling the vault yields, `confirmed` whether the caller confirmed the current CA,
     * `configFile` the configuration file as it was read; the CA, the recorded state and the CA status may be
     * unreadable, and the journal's first record unwritable. Refused is exactly what one of these refuses.
     */
    method ApplySystem(desired: Option<Desired>, confirmed: bool, configFile: Option<nat>, tx: nat,
                       caReadable: bool, stateReadable: bool, statusReadable: bool, recorded: bool) returns (result: Result)
      requires Valid() && task.Idle?
      modifies this
      ensures Valid() && Later() && task.Idle?
      ensures result.Refused? ==> m == old(m)
      ensures if Supersedable(old(m)) && desired.Some? && stateReadable
                 && (desired.value.config.Some? ==> caReadable && (old(m).ca || confirmed))
              then
                && old(steps) + [BeginApply(desired.value, Reading(old(m), configFile, statusReadable), tx, recorded)] <= steps
                && (result.Refused? <==> !recorded)
              else result.Refused? && steps == old(steps)
      ensures desired.Some? ==> Outcome(old(m), m, desired.value, configFile, result)
    {
      hide Valid;
      if m.journal.Some? && (m.journal.value.tx.None? || m.journal.value.phase.UnknownPhase?) { return Refused; }
      if desired.None? { return Refused; }
      if desired.value.config.Some? && (!caReadable || (!m.ca && !confirmed)) { return Refused; }
      if !stateReadable { return Refused; }
      var before := Reading(m, configFile, statusReadable);
      result := Transact(desired.value, before, m.state, tx, recorded);
    }

    // ---------- Neutralizing and resuming ----------

    ghost predicate AtNeutral(stage: NeutralStage)
      reads this
    {
      Valid() && task.Neutralizing? && task.stage == stage
    }

    twostate predicate NeutralMoved(next: NeutralStage)
      requires old(task).Neutralizing?
      reads this
    {
      Valid() && Later() && was == old(was) && begun == old(begun) && task == Neutralizing(next, old(task).start)
    }

    method RemoveHosts(applied: seq<HostEntry>) returns (ok: bool)
      requires AtNeutral(NAskHelper) && applied == task.start.state.hosts
      modifies this
      ensures NeutralMoved(if ok then NStop else NRecordFailure)
    {
      hide Run, EnabledRun, Follows, Forward, Backward;
      ok := true;
      ghost var a;
      if m.hosts != [] || applied != [] {
        ok, a := Ask(); // the privileged helper may be unavailable
        if ok { ok, a := Effect(m.(hosts := [])); }
      } else {
        Pass();
        Pass();
      }
    }

    method RemoveCaddyAndTrust() returns (ok: bool)
      requires AtNeutral(NStop)
      modifies this
      ensures NeutralMoved(if ok then NClear else NRecordFailure)
    {
      hide Run, EnabledRun, Follows, Forward, Backward;
      ok := true;
      ghost var a;
      if m.caddy.Some? { ok, a := Effect(m.(caddy := None)); } else { Pass(); }
      if !ok { return; }
      ok, a := Ask();
      if !ok { return; }
      if m.ca { ok, a := Effect(m.(ca := false)); } else { Pass(); }
    }

    /** The record of the outcome: `quarantined` only after everything was taken back and the journal cleared. */
    method RecordNeutral(removed: bool, before: RouteState) returns (ok: bool, saved: bool)
      requires AtNeutral(if removed then NClear else NRecordFailure) && before == task.start.state
      modifies this
      ensures Valid() && Later() && was == old(was) && begun == old(begun)
      ensures task == Idle(if ok then Undone else NotUndone(saved))
    {
      hide Run, EnabledRun, Follows, Forward, Backward;
      ok, saved := removed, false;
      ghost var a;
      if ok { ok, a := Write(m.(journal := None)); }
      if ok {
        ok, a := Write(m.(state := NEUTRALIZED_STATE));
      } else {
        saved, a := Write(m.(state := before.(status := CleanupPending)));
      }
    }

    /**
     * NeutralizeRoutes: takes every managed effect back and only then records `quarantined`. Wherever it stops
     * it has only taken away.
     */
    method NeutralizeRoutes(stateReadable: bool) returns (ok: bool, saved: bool)
      requires Valid() && task.Idle?
      modifies this
      ensures Valid() && Later() && task.Idle?
      ensures if ok then m == Machine([], None, false, NEUTRALIZED_STATE, None)
              else PartlyUndone(old(m), m) && m.state == if saved then old(m).state.(status := CleanupPending) else old(m).state
      ensures if stateReadable then old(steps) + [BeginNeutralize] <= steps && begun == BeginNeutralize && was == old(m)
              else !ok && m == old(m) && steps == old(steps)
      ensures stateReadable ==> task == Idle(if ok then Undone else NotUndone(saved))
    {
      hide Run, EnabledRun;
      if !stateReadable { return false, false; }
      var before := m.state;
      Took(m, BeginNeutralize);
      ok := RemoveHosts(before.hosts);
      if ok { ok := RemoveCaddyAndTrust(); }
      ok, saved := RecordNeutral(ok, before);
    }

    /**
     * Startup restarts Caddy for the vault's routes; it never runs while a route transaction is pending. Where
     * Caddy is wanted and does not run, the wanted configuration is loaded, once; a taken port counts as success.
     * The CA status is read afterwards (`statusRead`), and nothing is done about it.
     */
    method ResumeCaddy(desired: Option<Desired>, statusRead: bool) returns (ok: bool, taken: bool, ghost a: Answer)
      requires Valid() && task.Idle?
      modifies this
      ensures Valid() && Later() && task.Idle? && m == old(m).(caddy := m.caddy)
      ensures old(m).journal.Some? || desired.None? ==> !ok && m == old(m) && steps == old(steps)
      ensures old(m).journal.None? && desired.Some? && desired.value.config.None? ==>
                ok && m == old(m) && steps == old(steps)
      ensures old(m).journal.None? && desired.Some? && desired.value.config.Some? ==>
                if old(m).caddy.Some? then m == old(m) && steps == old(steps) && (ok <==> statusRead)
                else
                  var config := desired.value.config.value;
                  && steps == old(steps) + [Resume(config, a)]
                  && (taken <==> a.ok && a.taken) && (ok <==> a.ok && (a.taken || statusRead))
                  && m.caddy == (if a.ok && !taken then Some(config) else a.left)
    {
      hide Run, EnabledRun, Follows;
      a, taken := Answer(true, false, false, None), false;
      if m.journal.Some? || desired.None? { return false, taken, a; }
      if desired.value.config.None? { return true, taken, a; }
      if m.caddy.None? {
        ok, taken, a := LoadAtRest(desired.value.config.value);
        if !ok || taken { return; }
      }
      ok := statusRead;
    }

    method LoadAtRest(config: nat) returns (ok: bool, taken: bool, ghost a: Answer)
      requires Valid() && task.Idle? && m.journal.None? && m.caddy.None?
      modifies this
      ensures Valid() && Later() && task.Idle? && steps == old(steps) + [Resume(config, a)]
      ensures m == WithCaddy(old(m), config, a) && ok == a.ok && (taken <==> a.ok && a.taken)
    {
      hide Run, EnabledRun, Follows;
      ok, taken := *, *;
      var running: bool, other: nat := *, *;
      taken := ok && taken;
      var answer := Answer(ok, false, taken, if running then Some(other) else None);
      ghost var before := m;
      a := answer;
      m := WithCaddy(m, config, answer);
      Took(before, Resume(config, a));
    }
  }
}
