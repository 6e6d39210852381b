/**
 * The application service's gate, as interleaved steps of any number of calls: the maintenance
 * flag, the mutation mutex, the re-read of the recovery state under the mutex, and the recovery
 * store's own mutex, which makes its two file reads one observation.
 */
module RecoveryGate {
  import opened Common
  import opened RestoreProtocol
  import RouteSteps

  /**
   * What a guarded call checks under the mutex: `Network` also refuses a pending route transaction,
   * `RestoreOnly` is the repair path and the host and legacy mutations, `LockOnly` are the calls
   * that never ask for the recovery state (importing, saving a host without an identity change).
   */
  datatype Guard = Network | RestoreOnly | LockOnly

  /** Where a call stands. */
  datatype Pc =
    | Idle
    | Checked(g: Guard)               // saw maintenance off, holds nothing
    | Locked(g: Guard)                // holds the mutation mutex
    | Admitted(g: Guard)              // ... and saw maintenance off again
    | Reading(g: Guard, q: bool)      // ... and the recovery mutex, having read the quarantine flag
    | Cleared(g: Guard)               // ... and saw neither quarantine nor journal
    | Body(g: Guard)
    | Claimed                         // a restore: maintenance set, mutex not yet held
    | Restoring
    | Released                        // a restore after its mutex, before maintenance is cleared
    | ActChecked                      // an activation of a restored network
    | ActLocked
    | ActReading(q: bool)
    | Activating
    | Peeking(q: bool)                // an unguarded reader inside State()

  /** What the calls share: the maintenance flag, the two mutexes' holders, and the durable state. */
  datatype Shared = Shared(
    maintenance: bool,
    mutation: Option<nat>,
    recovery: Option<nat>,
    disk: Disk)

  datatype System = System(calls: map<nat, Pc>, sh: Shared)

  datatype Op =
    | Check(g: Guard)
    | TakeMutation
    | Recheck
    | OpenState
    | CloseState
    | CheckRoutes
    | BodyStep(w: Write)
    | Finish
    | Claim
    | BeginRestore
    | RestoreStep(w: Write)
    | EndRestore
    | ClearMaintenance
    | CheckActivation
    | ActivateStep(w: Write)
    | Outside(catalog: nat)

  datatype Step = Step(t: nat, op: Op)

  function At(s: System, t: nat): Pc { if t in s.calls then s.calls[t] else Idle }

  /** Calls that hold the mutation mutex. */
  predicate Holds(pc: Pc) {
    pc.Locked? || pc.Admitted? || pc.Reading? || pc.Cleared? || pc.Body? || pc.Restoring? || pc.ActLocked?
    || pc.ActReading? || pc.Activating?
  }

  predicate HoldsRecovery(pc: Pc) { pc.Reading? || pc.ActReading? || pc.Peeking? }

  predicate InRestore(pc: Pc) { pc.Claimed? || pc.Restoring? || pc.Released? }

  /** A step of the router; after a crash there is no call left to go on. */
  predicate RoutesOnly(w: Write) { w.RouteStep? && !w.step.Crash? }

  /** A guarded body writes the vault and may drive the router; it has no business with restore records. */
  predicate OrdinaryWrite(g: Guard, w: Write) { w.UngatedWrite? || (g != LockOnly && RoutesOnly(w)) }

  predicate Enabled(pc: Pc, sh: Shared, op: Op) {
    match op
    case Check(g) => pc.Idle?
    case TakeMutation => (pc.Checked? || pc.ActChecked?) && sh.mutation.None?
    case Recheck => pc.Locked? && pc.g != LockOnly
    case OpenState => (pc.Admitted? || pc.ActLocked? || pc.Idle?) && sh.recovery.None?
    case CloseState => HoldsRecovery(pc)
    case CheckRoutes => pc.Cleared? || pc == Locked(LockOnly)
    case BodyStep(w) => pc.Body? && OrdinaryWrite(pc.g, w) && Allowed(sh.disk, w)
    case Finish => (pc.Body? || pc.Activating?) && sh.disk.routes.task.Idle?
    case Claim => pc.Idle?
    case BeginRestore => pc.Claimed? && sh.mutation.None?
    case RestoreStep(w) =>
      && pc.Restoring? && Allowed(sh.disk, w) && !w.UngatedWrite? && (w.RouteStep? ==> RoutesOnly(w))
      && (w.SetQuarantine? ==> w.on && sh.recovery.None?)
    case EndRestore => pc.Restoring? && sh.disk.routes.task.Idle?
    case ClearMaintenance => pc.Released?
    case CheckActivation => pc.Idle?
    case ActivateStep(w) =>
      && pc.Activating? && Allowed(sh.disk, w)
      && (RoutesOnly(w) || (w.SetQuarantine? && !w.on && sh.recovery.None?))
    case Outside(_) => true
  }

  /** One step of call `t` standing at `pc`: where it stands then, and the shared state it leaves. */
  function Act(t: nat, pc: Pc, sh: Shared, op: Op): (Pc, Shared)
    requires Enabled(pc, sh, op)
  {
    var pending := sh.disk.journal.Some?;
    match op
    case Check(g) => (if sh.maintenance then Idle else Checked(g), sh)
    case TakeMutation => (if pc.Checked? then Locked(pc.g) else ActLocked, sh.(mutation := Some(t)))
    case Recheck => if sh.maintenance then (Idle, sh.(mutation := None)) else (Admitted(pc.g), sh)
    case OpenState =>
      var q := sh.disk.quarantined;
      (if pc.Admitted? then Reading(pc.g, q) else if pc.ActLocked? then ActReading(q) else Peeking(q),
       sh.(recovery := Some(t)))
    case CloseState =>
      if pc.Peeking? then (Idle, sh.(recovery := None))
      else if pc.ActReading? && pc.q && !pending then (Activating, sh.(recovery := None))
      else if pc.Reading? && !pc.q && !pending then (Cleared(pc.g), sh.(recovery := None))
      else (Idle, sh.(recovery := None, mutation := None))
    case CheckRoutes =>
      if pc == Cleared(Network) && sh.disk.routes.m.journal.Some? then (Idle, sh.(mutation := None)) else (Body(pc.g), sh)
    case BodyStep(w) => (pc, sh.(disk := Perform(sh.disk, w)))
    case Finish => (Idle, sh.(mutation := None))
    case Claim => if sh.maintenance then (Idle, sh) else (Claimed, sh.(maintenance := true))
    case BeginRestore => (Restoring, sh.(mutation := Some(t)))
    case RestoreStep(w) => (pc, sh.(disk := Perform(sh.disk, w)))
    case EndRestore => (Released, sh.(mutation := None))
    case ClearMaintenance => (Idle, sh.(maintenance := false))
    case CheckActivation => (if sh.maintenance then Idle else ActChecked, sh)
    case ActivateStep(w) => (pc, sh.(disk := Perform(sh.disk, w)))
    case Outside(catalog) => (pc, sh.(disk := Perform(sh.disk, UngatedWrite(catalog))))
  }

  function Apply(s: System, step: Step): System
    requires Enabled(At(s, step.t), s.sh, step.op)
  {
    var (pc, sh) := Act(step.t, At(s, step.t), s.sh, step.op);
    System(s.calls[step.t := pc], sh)
  }

  /** What `State()` returns when a call closes it: the flag read first, the journal probed last. */
  function Report(s: System, t: nat): (bool, bool)
    requires HoldsRecovery(At(s, t))
  {
    (At(s, t).q, s.sh.disk.journal.Some?)
  }

  predicate Excluded(pc: Pc) { (pc.Cleared? || pc.Body?) && pc.g != LockOnly }

  /** Calls that may drive the router. */
  predicate Drives(pc: Pc) { (pc.Body? && pc.g != LockOnly) || pc.Restoring? || pc.Activating? }

  /** What one call's position says about the shared state. */
  predicate Consistent(t: nat, pc: Pc, sh: Shared) {
    && (Holds(pc) <==> sh.mutation == Some(t))
    && (HoldsRecovery(pc) <==> sh.recovery == Some(t))
    && (HoldsRecovery(pc) ==> pc.q == sh.disk.quarantined)
    && (InRestore(pc) ==> sh.maintenance)
    && (Excluded(pc) ==> !sh.disk.quarantined && sh.disk.journal.None?)
    && (Holds(pc) && !Drives(pc) ==> sh.disk.routes.task.Idle?)
  }

  ghost predicate Inv(s: System) {
    && (forall t: nat :: Consistent(t, At(s, t), s.sh))
    && (forall t: nat, u: nat :: InRestore(At(s, t)) && InRestore(At(s, u)) ==> t == u)
    && (s.sh.mutation.None? ==> s.sh.disk.routes.task.Idle?)
    && (s.sh.mutation.Some? ==> Holds(At(s, s.sh.mutation.value)))
    && (s.sh.recovery.Some? ==> HoldsRecovery(At(s, s.sh.recovery.value)))
    && (s.sh.maintenance ==> exists t: nat :: InRestore(At(s, t)))
  }

  /** The service starts with no call under way, on whatever disk startup recovery left. */
  ghost predicate Init(s: System) {
    && s.calls == map[] && !s.sh.maintenance && s.sh.mutation.None? && s.sh.recovery.None?
    && s.sh.disk.routes.task.Idle?
  }

  lemma OwnStep(t: nat, pc: Pc, sh: Shared, op: Op)
    requires Enabled(pc, sh, op) && Consistent(t, pc, sh) && (sh.mutation.None? ==> sh.disk.routes.task.Idle?)
    ensures var (pc', sh') := Act(t, pc, sh, op);
            Consistent(t, pc', sh') && (sh'.mutation.None? ==> sh'.disk.routes.task.Idle?)
  {
    hide Allowed;
  }

  /** Who holds what afterwards: each mutex and the flag have an owner or are free. */
  lemma OwnersStep(t: nat, pc: Pc, sh: Shared, op: Op)
    requires Enabled(pc, sh, op) && Consistent(t, pc, sh)
    ensures var (pc', sh') := Act(t, pc, sh, op);
      && (sh'.mutation == sh.mutation || sh'.mutation == Some(t) || sh'.mutation.None?)
      && (sh'.recovery == sh.recovery || sh'.recovery == Some(t) || sh'.recovery.None?)
      && (InRestore(pc) ==> InRestore(pc') || !sh'.maintenance)
      && (sh'.maintenance ==> sh.maintenance || InRestore(pc'))
  {
    hide Allowed;
  }

  /** A step of one call keeps every other call consistent, unless it clears a maintenance it does not own. */
  lemma OtherStep(t: nat, pc: Pc, sh: Shared, op: Op, u: nat, other: Pc)
    requires Enabled(pc, sh, op) && Consistent(t, pc, sh) && Consistent(u, other, sh) && t != u
    requires !(InRestore(pc) && InRestore(other))
    ensures var (pc', sh') := Act(t, pc, sh, op);
            Consistent(u, other, sh') && !(InRestore(pc') && InRestore(other))
  {
    hide Allowed;
  }

  lemma StepKeepsInv(s: System, step: Step)
    requires Inv(s) && Enabled(At(s, step.t), s.sh, step.op)
    ensures Inv(Apply(s, step))
  {
    var s' := Apply(s, step);
    var t, pc := step.t, At(s, step.t);
    OwnStep(t, pc, s.sh, step.op);
    forall u: nat | u != t
      ensures At(s', u) == At(s, u) && Consistent(u, At(s', u), s'.sh) && !(InRestore(At(s', t)) && InRestore(At(s', u)))
    {
      OtherStep(t, pc, s.sh, step.op, u, At(s, u));
    }
    OwnersStep(t, pc, s.sh, step.op);
    hide Act, Consistent, Enabled;
    assert Consistent(t, At(s', t), s'.sh) && forall u: nat :: Consistent(u, At(s', u), s'.sh);
    OwnersStay(s, s', t);
  }

  lemma OwnersStay(s: System, s': System, t: nat)
    requires Inv(s) && forall u: nat :: Consistent(u, At(s', u), s'.sh)
    requires forall u: nat :: u != t ==> At(s', u) == At(s, u)
    requires s'.sh.mutation == s.sh.mutation || s'.sh.mutation == Some(t) || s'.sh.mutation.None?
    requires s'.sh.recovery == s.sh.recovery || s'.sh.recovery == Some(t) || s'.sh.recovery.None?
    requires InRestore(At(s, t)) ==> InRestore(At(s', t)) || !s'.sh.maintenance
    requires s'.sh.maintenance ==> s.sh.maintenance || InRestore(At(s', t))
    ensures s'.sh.mutation.Some? ==> Holds(At(s', s'.sh.mutation.value))
    ensures s'.sh.recovery.Some? ==> HoldsRecovery(At(s', s'.sh.recovery.value))
    ensures s'.sh.maintenance ==> exists u: nat :: InRestore(At(s', u))
  {
    if s'.sh.mutation.Some? { assert Consistent(s'.sh.mutation.value, At(s', s'.sh.mutation.value), s'.sh); }
    if s'.sh.recovery.Some? { assert Consistent(s'.sh.recovery.value, At(s', s'.sh.recovery.value), s'.sh); }
    if s'.sh.maintenance && !InRestore(At(s', t)) {
      var u: nat :| InRestore(At(s, u));
      assert InRestore(At(s', u));
    }
  }

  predicate EnabledRun(s: System, steps: seq<Step>)
    decreases |steps|
  {
    steps == [] || (Enabled(At(s, steps[0].t), s.sh, steps[0].op) && EnabledRun(Apply(s, steps[0]), steps[1..]))
  }

  function RunSteps(s: System, steps: seq<Step>): System
    requires EnabledRun(s, steps)
    decreases |steps|
  {
    if steps == [] then s else RunSteps(Apply(s, steps[0]), steps[1..])
  }

  lemma {:induction false} RunKeepsInv(s: System, steps: seq<Step>)
    requires Inv(s) && EnabledRun(s, steps)
    ensures Inv(RunSteps(s, steps))
    decreases |steps|
  {
    if steps == [] {
    } else {
      StepKeepsInv(s, steps[0]);
      RunKeepsInv(Apply(s, steps[0]), steps[1..]);
    }
  }

  /**
   * In every interleaving from startup: while a guarded body runs, the vault is neither quarantined
   * nor under a restore journal, nothing else holds the mutation mutex (so no restore and no
   * activation runs), and no step of any call can change either record.
   */
  lemma GuardedBodyRunsOutsideRecovery(start: System, steps: seq<Step>, t: nat, next: Step)
    requires Init(start) && EnabledRun(start, steps)
    requires At(RunSteps(start, steps), t).Body? && At(RunSteps(start, steps), t).g != LockOnly
    requires Enabled(At(RunSteps(start, steps), next.t), RunSteps(start, steps).sh, next.op)
    ensures var s := RunSteps(start, steps);
            && !s.sh.disk.quarantined && s.sh.disk.journal.None?
            && (forall u: nat :: u != t ==> !Holds(At(s, u)))
            && Apply(s, next).sh.disk.quarantined == s.sh.disk.quarantined
            && Apply(s, next).sh.disk.journal == s.sh.disk.journal
  {
    assert Inv(start);
    RunKeepsInv(start, steps);
    BodyExcludesOthers(RunSteps(start, steps), t, next);
  }

  lemma BodyExcludesOthers(s: System, t: nat, next: Step)
    requires Inv(s) && At(s, t).Body? && At(s, t).g != LockOnly
    requires Enabled(At(s, next.t), s.sh, next.op)
    ensures !s.sh.disk.quarantined && s.sh.disk.journal.None?
    ensures forall u: nat :: u != t ==> !Holds(At(s, u))
    ensures Apply(s, next).sh.disk.quarantined == s.sh.disk.quarantined
    ensures Apply(s, next).sh.disk.journal == s.sh.disk.journal
  {
    hide Allowed;
    assert Consistent(t, At(s, t), s.sh) && Consistent(next.t, At(s, next.t), s.sh);
  }

  /** What `State()` returns is the pair on disk at the moment it probes the journal, however it is interleaved. */
  lemma StateIsOneObservation(start: System, steps: seq<Step>, t: nat)
    requires Init(start) && EnabledRun(start, steps) && HoldsRecovery(At(RunSteps(start, steps), t))
    ensures var s := RunSteps(start, steps);
            Report(s, t) == (s.sh.disk.quarantined, s.sh.disk.journal.Some?)
  {
    assert Inv(start);
    RunKeepsInv(start, steps);
    assert Consistent(t, At(RunSteps(start, steps), t), RunSteps(start, steps).sh);
  }

  /** A disk on which an isolated vault shows, and no transaction was planned over one. */
  ghost predicate Plain(d: Disk) {
    CrashSafe(d) && Visible(d) && !Nested(d) && (d.journal.Some? ==> Known(d.journal.value.phase))
  }

  ghost predicate NoNestedRestore(s: System, steps: seq<Step>)
    requires EnabledRun(s, steps)
    decreases |steps|
  {
    steps != [] ==>
      && (steps[0].op.RestoreStep? && steps[0].op.w.SaveJournal? && steps[0].op.w.j.phase.Planned? ==> !s.sh.disk.isolated)
      && NoNestedRestore(Apply(s, steps[0]), steps[1..])
  }

  lemma StepStaysPlain(pc: Pc, sh: Shared, t: nat, op: Op)
    requires Enabled(pc, sh, op) && Plain(sh.disk)
    requires op.RestoreStep? && op.w.SaveJournal? && op.w.j.phase.Planned? ==> !sh.disk.isolated
    ensures Plain(Act(t, pc, sh, op).1.disk)
  {
    if op.RestoreStep? || op.BodyStep? || op.ActivateStep? {
      WriteKeepsCrashSafe(sh.disk, op.w);
      VisibilityIsLostOnlyByRemovingANestedJournal(sh.disk, op.w);
    } else if op.Outside? {
      WriteKeepsCrashSafe(sh.disk, UngatedWrite(op.catalog));
    }
  }

  /**
   * From the rename of a restore to its activation, no interleaving lets `State()` report neither
   * quarantine nor journal, as long as no restore is planned over a vault still isolated.
   */
  lemma {:induction false} IsolationIsNeverReportedOrdinary(start: System, steps: seq<Step>, t: nat)
    requires Inv(start) && EnabledRun(start, steps) && Plain(start.sh.disk) && NoNestedRestore(start, steps)
    requires HoldsRecovery(At(RunSteps(start, steps), t)) && RunSteps(start, steps).sh.disk.isolated
    ensures Report(RunSteps(start, steps), t) != (false, false)
    decreases |steps|
  {
    if steps == [] {
      assert Consistent(t, At(start, t), start.sh);
    } else {
      StepKeepsInv(start, steps[0]);
      StepStaysPlain(At(start, steps[0].t), start.sh, steps[0].t, steps[0].op);
      IsolationIsNeverReportedOrdinary(Apply(start, steps[0]), steps[1..], t);
    }
  }

  // ---------- The routes' own record, over every interleaving ----------

  /** Only a restore or an activation has to heed the routes' record; guarded bodies do so by being admitted. */
  predicate Attentive(sh: Shared, op: Op) { op.RestoreStep? || op.ActivateStep? ==> Heedful(sh.disk, op.w) }

  predicate AttentiveRun(s: System, steps: seq<Step>)
    requires EnabledRun(s, steps)
    decreases |steps|
  {
    steps == [] || (Attentive(s.sh, steps[0].op) && AttentiveRun(Apply(s, steps[0]), steps[1..]))
  }

  /** A body that may drive the router begins under no recorded quarantine, so it need not ask for one. */
  lemma AdmittedBodiesHeed(t: nat, pc: Pc, sh: Shared, w: Write)
    requires Consistent(t, pc, sh) && Shown(sh.disk) && Enabled(pc, sh, BodyStep(w))
    ensures Heedful(sh.disk, w)
  {
    hide Allowed;
  }

  lemma StepKeepsTrust(t: nat, pc: Pc, sh: Shared, op: Op)
    requires Consistent(t, pc, sh) && Trusted(sh.disk) && Enabled(pc, sh, op) && Attentive(sh, op)
    ensures Trusted(Act(t, pc, sh, op).1.disk)
  {
    hide CrashSafe, Perform, RouteSteps.Enabled, RouteSteps.Next, RouteSteps.Trusted;
    if op.RestoreStep? || op.ActivateStep? {
      WriteKeepsTrust(sh.disk, op.w);
    } else if op.BodyStep? {
      AdmittedBodiesHeed(t, pc, sh, op.w);
      WriteKeepsTrust(sh.disk, op.w);
    } else if op.Outside? {
      WriteKeepsTrust(sh.disk, UngatedWrite(op.catalog));
    }
  }

  /**
   * In every interleaving of guarded calls, restores and activations in which those two heed the routes' record,
   * and wherever the process dies: what startup reads in it is true.
   */
  lemma {:induction false} GatedRunsStayTruthful(start: System, steps: seq<Step>)
    requires Inv(start) && Trusted(start.sh.disk) && EnabledRun(start, steps) && AttentiveRun(start, steps)
    ensures var d := RunSteps(start, steps).sh.disk; Trusted(d) && RouteSteps.Truthful(Died(d).routes.m)
    decreases |steps|
  {
    if steps == [] {
      WriteKeepsTrust(start.sh.disk, RouteStep(RouteSteps.Crash));
    } else {
      StepKeepsInv(start, steps[0]);
      StepKeepsTrust(steps[0].t, At(start, steps[0].t), start.sh, steps[0].op);
      GatedRunsStayTruthful(Apply(start, steps[0]), steps[1..]);
    }
  }

  /** Writes are carried out, each by the call that takes the step, and nothing else touches the disk. */
  lemma OnlyWritesWrite(t: nat, pc: Pc, sh: Shared, op: Op)
    requires Enabled(pc, sh, op)
    ensures Act(t, pc, sh, op).1.disk
            == match op
               case BodyStep(w) => Perform(sh.disk, w)
               case RestoreStep(w) => Perform(sh.disk, w)
               case ActivateStep(w) => Perform(sh.disk, w)
               case Outside(catalog) => Perform(sh.disk, UngatedWrite(catalog))
               case _ => sh.disk
    ensures Finish == op ==> Act(t, pc, sh, op) == (Idle, sh.(mutation := None))
  {
    hide Allowed, Perform;
  }

  // ---------- Nobody waits for nothing, and nothing is kept ----------

  /** A step of a call under way. */
  predicate CanGoOn(pc: Pc, sh: Shared, op: Op) { pc != Idle && !op.Outside? && !op.Claim? && Enabled(pc, sh, op) }

  /** Every owner of a mutex or of maintenance can go on, or waits for one that can. */
  lemma OwnersCanGoOn(s: System, t: nat)
    requires Inv(s) && (Holds(At(s, t)) || HoldsRecovery(At(s, t)) || InRestore(At(s, t)))
    ensures exists u: nat, op :: CanGoOn(At(s, u), s.sh, op)
  {
    hide Allowed;
    assert Consistent(t, At(s, t), s.sh);
    if s.sh.recovery.Some? {
      var u := s.sh.recovery.value;
      assert CanGoOn(At(s, u), s.sh, CloseState);
    } else if s.sh.mutation.Some? {
      var u := s.sh.mutation.value;
      assert Consistent(u, At(s, u), s.sh) && Holds(At(s, u));
      HolderGoesOn(u, At(s, u), s.sh);
    } else {
      assert At(s, t).Claimed? || At(s, t).Released?;
      assert CanGoOn(At(s, t), s.sh, if At(s, t).Claimed? then BeginRestore else ClearMaintenance);
    }
  }

  lemma HolderGoesOn(t: nat, pc: Pc, sh: Shared)
    requires Consistent(t, pc, sh) && Holds(pc) && sh.recovery.None?
    ensures exists op :: CanGoOn(pc, sh, op)
  {
    var reply := RouteStep(RouteSteps.YES);
    match pc {
      case Locked(g) => assert CanGoOn(pc, sh, if g == LockOnly then CheckRoutes else Recheck);
      case Admitted(_) => assert CanGoOn(pc, sh, OpenState);
      case Cleared(_) => assert CanGoOn(pc, sh, CheckRoutes);
      case Body(_) => assert CanGoOn(pc, sh, if sh.disk.routes.task.Idle? then Finish else BodyStep(reply));
      case Restoring => assert CanGoOn(pc, sh, if sh.disk.routes.task.Idle? then EndRestore else RestoreStep(reply));
      case ActLocked => assert CanGoOn(pc, sh, OpenState);
      case Activating => assert CanGoOn(pc, sh, if sh.disk.routes.task.Idle? then Finish else ActivateStep(reply));
    }
  }

  /** A sequence of one call's own steps, nobody else acting; a step that is not possible is left out. */
  function Alone(t: nat, pc: Pc, sh: Shared, ops: seq<Op>): (Pc, Shared)
    decreases |ops|
  {
    if ops == [] then (pc, sh)
    else if Enabled(pc, sh, ops[0]) then
      var (pc', sh') := Act(t, pc, sh, ops[0]);
      Alone(t, pc', sh', ops[1..])
    else (pc, sh)
  }

  predicate Free(sh: Shared) { sh.mutation.None? && sh.recovery.None? }

  /**
   * Admission is exact: a guarded call alone reaches its body if and only if there is no maintenance, quarantine,
   * journal or, where it matters, pending route transaction; turned away, it leaves everything as it was.
   */
  lemma AdmissionIsExact(t: nat, sh: Shared, g: Guard)
    requires Free(sh) && g != LockOnly
    ensures var (pc, end) := Alone(t, Idle, sh, [Check(g), TakeMutation, Recheck, OpenState, CloseState, CheckRoutes]);
      if !sh.maintenance && !sh.disk.quarantined && sh.disk.journal.None? && (g == Network ==> sh.disk.routes.m.journal.None?)
      then pc == Body(g) && end == sh.(mutation := Some(t))
      else pc == Idle && end == sh
  {
    hide Allowed;
    if !sh.maintenance {
      assert [Check(g), TakeMutation, Recheck, OpenState, CloseState, CheckRoutes][1..]
          == [TakeMutation, Recheck, OpenState, CloseState, CheckRoutes];
      Locking(t, sh, g);
    } else {
      Ignored(t, sh, [TakeMutation, Recheck, OpenState, CloseState, CheckRoutes]);
    }
  }

  /** An idle call can do nothing with what a call under way would do next. */
  lemma Ignored(t: nat, sh: Shared, ops: seq<Op>)
    requires ops != [] && (ops[0].TakeMutation? || ops[0].Recheck? || ops[0].CheckRoutes? || ops[0].CloseState?)
    ensures Alone(t, Idle, sh, ops) == (Idle, sh)
  {
    hide Allowed;
  }

  lemma Locking(t: nat, sh: Shared, g: Guard)
    requires Free(sh) && g != LockOnly && !sh.maintenance
    ensures var (pc, end) := Alone(t, Checked(g), sh, [TakeMutation, Recheck, OpenState, CloseState, CheckRoutes]);
      if !sh.disk.quarantined && sh.disk.journal.None? && (g == Network ==> sh.disk.routes.m.journal.None?)
      then pc == Body(g) && end == sh.(mutation := Some(t))
      else pc == Idle && end == sh
  {
    hide Allowed;
    var locked := sh.(mutation := Some(t));
    var looking := locked.(recovery := Some(t));
    assert [TakeMutation, Recheck, OpenState, CloseState, CheckRoutes][1..] == [Recheck, OpenState, CloseState, CheckRoutes];
    assert [Recheck, OpenState, CloseState, CheckRoutes][1..] == [OpenState, CloseState, CheckRoutes];
    assert [OpenState, CloseState, CheckRoutes][1..] == [CloseState, CheckRoutes];
    assert [CloseState, CheckRoutes][1..] == [CheckRoutes];
    assert [CheckRoutes][1..] == [];
    assert looking.(recovery := None) == locked && locked.(mutation := None) == sh;
    Looking(t, locked, g);
  }

  lemma Looking(t: nat, locked: Shared, g: Guard)
    requires locked.mutation == Some(t) && locked.recovery.None? && g != LockOnly && !locked.maintenance
    ensures var (pc, end) := Alone(t, Locked(g), locked, [Recheck, OpenState, CloseState, CheckRoutes]);
      if !locked.disk.quarantined && locked.disk.journal.None? && (g == Network ==> locked.disk.routes.m.journal.None?)
      then pc == Body(g) && end == locked
      else pc == Idle && end == locked.(mutation := None)
  {
    hide Allowed;
    assert [Recheck, OpenState, CloseState, CheckRoutes][1..] == [OpenState, CloseState, CheckRoutes];
    assert [OpenState, CloseState, CheckRoutes][1..] == [CloseState, CheckRoutes];
    assert [CloseState, CheckRoutes][1..] == [CheckRoutes];
    assert [CheckRoutes][1..] == [];
  }

  /** A call that never asks for the recovery state is turned away by maintenance alone. */
  lemma LockOnlyAdmission(t: nat, sh: Shared)
    requires Free(sh)
    ensures Alone(t, Idle, sh, [Check(LockOnly), TakeMutation, CheckRoutes])
            == if sh.maintenance then (Idle, sh) else (Body(LockOnly), sh.(mutation := Some(t)))
  {
    hide Allowed;
    assert [Check(LockOnly), TakeMutation, CheckRoutes][1..] == [TakeMutation, CheckRoutes];
    assert [TakeMutation, CheckRoutes][1..] == [CheckRoutes] && [CheckRoutes][1..] == [];
  }

  /** A restore is turned away by another one alone; afterwards the gate is as it was. */
  lemma RestoreTakesTheGate(t: nat, sh: Shared)
    requires Free(sh) && sh.disk.routes.task.Idle?
    ensures Alone(t, Idle, sh, [Claim, BeginRestore])
            == if sh.maintenance then (Idle, sh) else (Restoring, sh.(maintenance := true, mutation := Some(t)))
    ensures !sh.maintenance ==> Alone(t, Idle, sh, [Claim, BeginRestore, EndRestore, ClearMaintenance]) == (Idle, sh)
  {
    hide Allowed;
    assert [Claim, BeginRestore][1..] == [BeginRestore] && [BeginRestore][1..] == [];
    assert [Claim, BeginRestore, EndRestore, ClearMaintenance][1..] == [BeginRestore, EndRestore, ClearMaintenance];
    assert [BeginRestore, EndRestore, ClearMaintenance][1..] == [EndRestore, ClearMaintenance];
    assert [EndRestore, ClearMaintenance][1..] == [ClearMaintenance] && [ClearMaintenance][1..] == [];
  }

  /** An activation alone begins if and only if there is something to activate and no restore is pending. */
  lemma ActivationIsExact(t: nat, sh: Shared)
    requires Free(sh)
    ensures Alone(t, Idle, sh, [CheckActivation, TakeMutation, OpenState, CloseState])
            == if sh.maintenance then (Idle, sh)
               else if sh.disk.quarantined && sh.disk.journal.None? then (Activating, sh.(mutation := Some(t)))
               else (Idle, sh)
  {
    hide Allowed;
    var locked := sh.(mutation := Some(t));
    var looking := locked.(recovery := Some(t));
    assert looking.(recovery := None) == locked && looking.(recovery := None, mutation := None) == sh;
    assert [CheckActivation, TakeMutation, OpenState, CloseState][1..] == [TakeMutation, OpenState, CloseState];
    assert [TakeMutation, OpenState, CloseState][1..] == [OpenState, CloseState];
    assert [OpenState, CloseState][1..] == [CloseState] && [CloseState][1..] == [];
  }
}
