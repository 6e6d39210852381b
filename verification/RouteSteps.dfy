/**
 * The router as a step machine: one step for every call it makes on a port, so that a crash may fall between
 * any two of them. Applying drives hosts block, Caddy and CA trust under a write-ahead journal and undoes them
 * in reverse when it fails; neutralizing takes them all back and records `quarantined`.
 */
module RouteSteps {
  import opened Common

  datatype RouteStatus = Applied | HostsOnly | Failed | CleanupPending | Quarantined | Unknown

  datatype RouteState = RouteState(status: RouteStatus, revision: Option<nat>, hosts: seq<HostEntry>, pendingTx: Option<nat>)

  datatype JournalPhase = Planned | HostsApplied | CaddyApplied | CaApplied | Neutralized | UnknownPhase

  datatype RouteJournal = RouteJournal(tx: Option<nat>, phase: JournalPhase)

  /**
   * What the router acts on: the managed hosts block, the configuration its Caddy process runs, the
   * trust of its CA, and its two durable records. Configurations are known by their digest.
   */
  datatype Machine = Machine(
    hosts: seq<HostEntry>,
    caddy: Option<nat>,
    ca: bool,
    state: RouteState,
    journal: Option<RouteJournal>)

  /** What the vault asks for; no configuration means that no route uses Caddy. */
  datatype Desired = Desired(entries: seq<HostEntry>, config: Option<nat>, revision: nat)

  const NEUTRALIZED_STATE: RouteState := RouteState(Quarantined, None, [], None)

  predicate Neutral(m: Machine) { m.hosts == [] && m.caddy.None? && !m.ca }

  /** What startup asks of the two records before it skips the cleanup of a quarantined vault. */
  predicate SaysNeutral(m: Machine) { m.state.status.Quarantined? && m.journal.None? }

  /** A recorded quarantine without a pending transaction can be taken at its word. */
  predicate Truthful(m: Machine) { SaysNeutral(m) ==> Neutral(m) }

  /** A recorded quarantine can be taken at its word even while a transaction is pending. */
  predicate Settled(m: Machine) { m.state.status.Quarantined? ==> Neutral(m) }

  /** A pending transaction that a new one may supersede; any other pending record is refused. */
  predicate Supersedable(m: Machine) {
    m.journal.Some? ==> m.journal.value.tx.Some? && !m.journal.value.phase.UnknownPhase?
  }

  // ---------- One operation ----------

  /** Which effects a transaction has begun. */
  datatype Undo = Undo(hosts: bool, caddy: bool, ca: bool)

  /** The reading taken before any effect; `config` is the configuration file as it was read. */
  datatype Before = Before(entries: seq<HostEntry>, running: bool, config: Option<nat>, trusted: bool)

  /** A CA status that cannot be read counts as untrusted. */
  predicate Reads(before: Before, m: Machine) {
    before.entries == m.hosts && before.running == m.caddy.Some? && (before.trusted ==> m.ca)
  }

  /** The next call an application makes, or skips when there is nothing to do. */
  datatype Stage =
    | AskHelper | PutHosts | MarkHosts
    | StopCaddy | Untrust | MarkNeutral
    | AskRedirect | LoadCaddy | MarkCaddy | AskTrust | Trust | MarkTrust
    | Publish | Finish
    | UndoTrust | UndoCaddy | UndoHosts | UndoUntrust | ClearUndone | RecordFailure

  datatype NeutralStage = NAskHelper | NHosts | NStop | NAskTrust | NUntrust | NClear | NRecord | NRecordFailure

  /**
   * A transaction under way: the machine it began on, what it wants and read, and what became of it. `published`
   * says that the applied state has been recorded, `undone` that no undo failed so far, `undoTaken` that the
   * rollback of Caddy met a taken port, which is not reported.
   */
  datatype Apply = Apply(
    start: Machine,
    desired: Desired,
    before: Before,
    tx: nat,
    undo: Undo,
    portTaken: bool,
    published: bool,
    undone: bool,
    undoTaken: bool,
    cleared: bool)

  /** How the last operation ended. `published` names the state a failed transaction had already recorded. */
  datatype Result =
    | Nothing
    | Done(portTaken: bool)
    | Refused
    | RolledBack(saved: bool, published: Option<bool>, undoTaken: bool)
    | Stuck(saved: bool)
    | Undone
    | NotUndone(saved: bool)

  datatype Task =
    | Idle(last: Result)
    | Applying(at: Stage, c: Apply)
    | Neutralizing(stage: NeutralStage, start: Machine)

  datatype Router = Router(task: Task, m: Machine)

  /**
   * What a port answers: whether it reports success, and for an effect that fails whether it happened all the
   * same. A reload of Caddy that fails or finds its port taken leaves `left` running.
   */
  datatype Answer = Answer(ok: bool, late: bool, taken: bool, left: Option<nat>)

  function Happened(a: Answer): bool { a.ok || a.late }

  function WithCaddy(m: Machine, config: nat, a: Answer): Machine {
    m.(caddy := if a.ok && !a.taken then Some(config) else a.left)
  }

  function AppliedState(desired: Desired, portTaken: bool): RouteState {
    RouteState(if portTaken then HostsOnly else Applied, Some(desired.revision), desired.entries, None)
  }

  function FailedState(c: Apply): RouteState {
    c.start.state.(status := Failed, pendingTx := if c.cleared then None else Some(c.tx))
  }

  function Mark(m: Machine, c: Apply, phase: JournalPhase, a: Answer): Machine {
    if a.ok then m.(journal := Some(RouteJournal(Some(c.tx), phase))) else m
  }

  function Go(ok: bool, next: Stage, c: Apply): Task { Applying(if ok then next else UndoTrust, c) }

  /** The forward half of an application. */
  function Forward(at: Stage, c: Apply, m: Machine, a: Answer): Router {
    match at
    case AskHelper =>
      var needed := c.desired.entries != [] || c.before.entries != [];
      Router(Go(!needed || a.ok, PutHosts, c), m)
    case PutHosts =>
      if c.desired.entries == c.before.entries then Router(Applying(MarkHosts, c), m)
      else
        Router(Go(a.ok, MarkHosts, c.(undo := c.undo.(hosts := true))),
               if Happened(a) then m.(hosts := c.desired.entries) else m)
    case MarkHosts =>
      Router(Go(a.ok, if c.desired.config.None? then StopCaddy else AskRedirect, c), Mark(m, c, HostsApplied, a))
    case StopCaddy =>
      if !c.before.running then Router(Applying(Untrust, c), m)
      else
        Router(Go(a.ok, Untrust, c.(undo := c.undo.(caddy := true))), if Happened(a) then m.(caddy := None) else m)
    case Untrust =>
      if !c.before.trusted then Router(Applying(MarkNeutral, c), m)
      else Router(Go(a.ok, MarkNeutral, c.(undo := c.undo.(ca := true))), if Happened(a) then m.(ca := false) else m)
    case MarkNeutral => Router(Go(a.ok, Publish, c), Mark(m, c, Neutralized, a))
    case AskRedirect => Router(Go(a.ok, LoadCaddy, c.(undo := c.undo.(caddy := true))), m)
    case LoadCaddy =>
      if c.desired.config.None? then Router(Applying(UndoTrust, c), m)
      else
        Router(if a.ok && a.taken then Applying(Publish, c.(portTaken := true)) else Go(a.ok, MarkCaddy, c),
               WithCaddy(m, c.desired.config.value, a))
    case MarkCaddy => Router(Go(a.ok, AskTrust, c), Mark(m, c, CaddyApplied, a))
    case AskTrust => Router(Go(a.ok, Trust, c), m)
    case Trust =>
      if m.ca then Router(Applying(MarkTrust, c), m)
      else Router(Go(a.ok, MarkTrust, c.(undo := c.undo.(ca := true))), if Happened(a) then m.(ca := true) else m)
    case MarkTrust => Router(Go(a.ok, Publish, c), Mark(m, c, CaApplied, a))
    case Publish =>
      if a.ok then Router(Applying(Finish, c.(published := true)), m.(state := AppliedState(c.desired, c.portTaken)))
      else Router(Applying(UndoTrust, c), m)
    case Finish =>
      if a.ok then Router(Idle(Done(c.portTaken)), m.(journal := None)) else Router(Applying(UndoTrust, c), m)
    case _ => Router(Applying(at, c), m)
  }

  /** The undoing half: every mutation begun is undone, in reverse, whatever the others report. */
  function Backward(at: Stage, c: Apply, m: Machine, a: Answer): Router {
    match at
    case UndoTrust =>
      if !(c.undo.ca && !c.before.trusted) then Router(Applying(UndoCaddy, c), m)
      else Router(Applying(UndoCaddy, c.(undone := c.undone && a.ok)), if Happened(a) then m.(ca := false) else m)
    case UndoCaddy =>
      if !c.undo.caddy || (c.before.running && c.before.config.None?) then Router(Applying(UndoHosts, c), m)
      else if c.before.running then
        Router(Applying(UndoHosts, c.(undone := c.undone && a.ok, undoTaken := a.ok && a.taken)),
               WithCaddy(m, c.before.config.value, a))
      else
        Router(Applying(UndoHosts, c.(undone := c.undone && a.ok)), if Happened(a) then m.(caddy := None) else m)
    case UndoHosts =>
      if !c.undo.hosts then Router(Applying(UndoUntrust, c), m)
      else
        Router(Applying(UndoUntrust, c.(undone := c.undone && a.ok)),
               if Happened(a) then m.(hosts := c.before.entries) else m)
    case UndoUntrust =>
      if !(c.undo.ca && c.before.trusted) then Router(Applying(ClearUndone, c), m)
      else Router(Applying(ClearUndone, c.(undone := c.undone && a.ok)), if Happened(a) then m.(ca := true) else m)
    case ClearUndone =>
      if c.undone && a.ok then Router(Applying(RecordFailure, c.(cleared := true)), m.(journal := None))
      else Router(Applying(RecordFailure, c), m)
    case RecordFailure =>
      Router(Idle(if c.cleared then RolledBack(a.ok, if c.published then Some(c.portTaken) else None, c.undoTaken)
                  else Stuck(a.ok)),
             if a.ok then m.(state := FailedState(c)) else m)
    case _ => Router(Applying(at, c), m)
  }

  predicate Undoing(at: Stage) {
    at.UndoTrust? || at.UndoCaddy? || at.UndoHosts? || at.UndoUntrust? || at.ClearUndone? || at.RecordFailure?
  }

  function Neutralize(at: NeutralStage, start: Machine, m: Machine, a: Answer): Router {
    var needed := m.hosts != [] || start.state.hosts != [];
    match at
    case NAskHelper => Router(Neutralizing(if needed && !a.ok then NRecordFailure else NHosts, start), m)
    case NHosts =>
      if !needed then Router(Neutralizing(NStop, start), m)
      else Router(Neutralizing(if a.ok then NStop else NRecordFailure, start), if Happened(a) then m.(hosts := []) else m)
    case NStop =>
      if m.caddy.None? then Router(Neutralizing(NAskTrust, start), m)
      else
        Router(Neutralizing(if a.ok then NAskTrust else NRecordFailure, start), if Happened(a) then m.(caddy := None) else m)
    case NAskTrust => Router(Neutralizing(if a.ok then NUntrust else NRecordFailure, start), m)
    case NUntrust =>
      if !m.ca then Router(Neutralizing(NClear, start), m)
      else Router(Neutralizing(if a.ok then NClear else NRecordFailure, start), if Happened(a) then m.(ca := false) else m)
    case NClear =>
      Router(Neutralizing(if a.ok then NRecord else NRecordFailure, start), if a.ok then m.(journal := None) else m)
    case NRecord =>
      if a.ok then Router(Idle(Undone), m.(state := NEUTRALIZED_STATE)) else Router(Idle(NotUndone(false)), m)
    case NRecordFailure =>
      Router(Idle(NotUndone(a.ok)), if a.ok then m.(state := start.state.(status := CleanupPending)) else m)
  }

  // ---------- Steps and runs ----------

  datatype Step =
    | BeginApply(desired: Desired, before: Before, tx: nat, saved: bool)
    | BeginNeutralize
    | Resume(config: nat, a: Answer)
    | Reply(a: Answer)
    | Crash

  predicate Enabled(r: Router, step: Step) {
    match step
    case BeginApply(_, before, _, _) => r.task.Idle? && Supersedable(r.m) && Reads(before, r.m)
    case BeginNeutralize => r.task.Idle?
    case Resume(_, _) => r.task.Idle? && r.m.journal.None? && r.m.caddy.None?
    case Reply(_) => !r.task.Idle?
    case Crash => true
  }

  function Begun(m: Machine, desired: Desired, before: Before, tx: nat): Apply {
    Apply(m, desired, before, tx, Undo(false, false, false), false, false, true, false, false)
  }

  function Next(r: Router, step: Step): Router
    requires Enabled(r, step)
  {
    match step
    case BeginApply(desired, before, tx, saved) =>
      if !saved then Router(Idle(Refused), r.m)
      else Router(Applying(AskHelper, Begun(r.m, desired, before, tx)), r.m.(journal := Some(RouteJournal(Some(tx), Planned))))
    case BeginNeutralize => Router(Neutralizing(NAskHelper, r.m), r.m)
    case Resume(config, a) => Router(Idle(Nothing), WithCaddy(r.m, config, a))
    case Reply(a) =>
      (match r.task
       case Applying(at, c) => if Undoing(at) then Backward(at, c, r.m, a) else Forward(at, c, r.m, a)
       case Neutralizing(at, start) => Neutralize(at, start, r.m, a)
       case Idle(_) => r)
    case Crash => Router(Idle(Nothing), r.m.(caddy := None))
  }

  predicate EnabledRun(r: Router, steps: seq<Step>)
    decreases |steps|, 0
  {
    steps == [] ||
    (var before := steps[..|steps| - 1];
     EnabledRun(r, before) && Enabled(Run(r, before), steps[|steps| - 1]))
  }

  function Run(r: Router, steps: seq<Step>): Router
    requires EnabledRun(r, steps)
    decreases |steps|, 1
  {
    if steps == [] then r else Next(Run(r, steps[..|steps| - 1]), steps[|steps| - 1])
  }

  /** How many replies an operation still takes at most. */
  function Remaining(task: Task): nat {
    match task
    case Idle(_) => 0
    case Neutralizing(at, _) =>
      (match at
       case NAskHelper => 7
       case NHosts => 6
       case NStop => 5
       case NAskTrust => 4
       case NUntrust => 3
       case NClear => 2
       case NRecord => 1
       case NRecordFailure => 1)
    case Applying(at, _) =>
      (match at
       case AskHelper => 17
       case PutHosts => 16
       case MarkHosts => 15
       case StopCaddy => 11
       case Untrust => 10
       case MarkNeutral => 9
       case AskRedirect => 14
       case LoadCaddy => 13
       case MarkCaddy => 12
       case AskTrust => 11
       case Trust => 10
       case MarkTrust => 9
       case Publish => 8
       case Finish => 7
       case UndoTrust => 6
       case UndoCaddy => 5
       case UndoHosts => 4
       case UndoUntrust => 3
       case ClearUndone => 2
       case RecordFailure => 1)
  }

  lemma RepliesEnd(r: Router, a: Answer)
    requires !r.task.Idle?
    ensures Remaining(Next(r, Reply(a)).task) < Remaining(r.task)
  {
  }

  // ---------- What every step keeps ----------

  /** What a run of effects has changed at most. */
  predicate Touched(undo: Undo, was: Machine, now: Machine) {
    && (undo.hosts || now.hosts == was.hosts)
    && (undo.caddy || now.caddy == was.caddy)
    && (undo.ca || now.ca == was.ca)
  }

  /** The wanted effects are in place. */
  predicate Achieved(c: Apply, m: Machine) {
    && m.hosts == c.desired.entries
    && (c.desired.config.None? ==> !c.portTaken && m.caddy.None? && (c.before.trusted ==> !m.ca))
    && (c.desired.config.Some? && !c.portTaken ==> m.caddy == c.desired.config && m.ca)
  }

  predicate WithConfig(at: Stage) {
    at.AskRedirect? || at.LoadCaddy? || at.MarkCaddy? || at.AskTrust? || at.Trust? || at.MarkTrust?
  }

  predicate WithoutConfig(at: Stage) { at.StopCaddy? || at.Untrust? || at.MarkNeutral? }

  /** The phase on record before a stage. */
  function PhaseBefore(at: Stage, c: Apply): JournalPhase {
    if at.AskHelper? || at.PutHosts? || at.MarkHosts? then Planned
    else if at.AskTrust? || at.Trust? || at.MarkTrust? then CaddyApplied
    else if at.Publish? || at.Finish? then
      if c.desired.config.None? then Neutralized else if c.portTaken then HostsApplied else CaApplied
    else HostsApplied
  }

  /** What is known on the way forward. */
  predicate ForwardOk(at: Stage, c: Apply, m: Machine) {
    && c.undone && !c.undoTaken && !c.cleared && (c.published <==> at.Finish?)
    && m.journal == Some(RouteJournal(Some(c.tx), PhaseBefore(at, c)))
    && (!at.AskHelper? && !at.PutHosts? ==> m.hosts == c.desired.entries)
    && (WithConfig(at) ==> c.desired.config.Some?) && (WithoutConfig(at) ==> c.desired.config.None?)
    && (c.portTaken ==> at.Publish? || at.Finish?)
    && (at.Untrust? || at.MarkNeutral? ==> m.caddy.None?)
    && (at.MarkNeutral? && c.before.trusted ==> !m.ca)
    && (at.MarkCaddy? || at.AskTrust? || at.Trust? || at.MarkTrust? ==> m.caddy == c.desired.config)
    && (at.MarkTrust? ==> m.ca)
    && (at.Publish? || at.Finish? ==> Achieved(c, m))
    && (at.AskHelper? || at.PutHosts? ==> !c.undo.hosts)
    && (at.AskHelper? || at.PutHosts? || at.MarkHosts? || at.StopCaddy? || at.AskRedirect? ==> !c.undo.caddy)
    && (WithConfig(at) && !at.AskRedirect? ==> c.undo.caddy)
    && (!at.MarkNeutral? && !at.MarkTrust? && !at.Publish? && !at.Finish? ==> !c.undo.ca)
  }

  /** The rollback of Caddy brought back what ran, unless its port was taken or its file did not name it. */
  predicate CaddyBack(c: Apply, m: Machine) {
    !c.undoTaken && (c.start.caddy.Some? ==> c.before.config == c.start.caddy) ==> m.caddy == c.start.caddy
  }

  /** What is known on the way back, as long as no undo failed. */
  predicate BackwardOk(at: Stage, c: Apply, m: Machine) {
    && (c.cleared ==> at.RecordFailure? && c.undone)
    && (c.undone && !at.UndoTrust? && !c.before.trusted ==> m.ca == c.start.ca)
    && (c.undone && !at.UndoTrust? && !at.UndoCaddy? ==>
          CaddyBack(c, m) && (c.start.caddy.None? ==> m.caddy.None?))
    && (c.undone && (at.UndoUntrust? || at.ClearUndone? || at.RecordFailure?) ==> m.hosts == c.start.hosts)
    && (c.undone && (at.ClearUndone? || at.RecordFailure?) ==> m.ca == c.start.ca)
    && (at.UndoTrust? ==> c.undone && !c.undoTaken)
    && (at.UndoCaddy? ==> !c.undoTaken)
  }

  /** What is known of a transaction all the way. */
  predicate UnderWay(c: Apply, m: Machine) {
    && Reads(c.before, c.start) && Touched(c.undo, c.start, m)
    && (c.undo.ca ==> c.before.trusted == c.start.ca)
    && m.state == (if c.published then AppliedState(c.desired, c.portTaken) else c.start.state)
    && (m.journal.None? <==> c.cleared) && (m.journal.Some? ==> m.journal.value.tx == Some(c.tx))
  }

  predicate ApplyOk(at: Stage, c: Apply, m: Machine) {
    UnderWay(c, m) && if Undoing(at) then BackwardOk(at, c, m) else ForwardOk(at, c, m)
  }

  /** Neutralizing only ever takes away. */
  predicate PartlyUndone(was: Machine, now: Machine) {
    && (now.hosts == was.hosts || now.hosts == [])
    && (now.caddy == was.caddy || now.caddy.None?)
    && (now.ca == was.ca || !now.ca)
    && (now.journal == was.journal || (now.journal.None? && Neutral(now)))
    && (now.state == was.state || now.state == was.state.(status := CleanupPending))
  }

  predicate NeutralizeOk(at: NeutralStage, start: Machine, m: Machine) {
    && PartlyUndone(start, m) && m.state == start.state
    && (!at.NAskHelper? && !at.NHosts? && !at.NRecordFailure? ==> m.hosts == [])
    && (at.NAskTrust? || at.NUntrust? || at.NClear? || at.NRecord? ==> m.caddy.None?)
    && (at.NClear? || at.NRecord? ==> !m.ca)
    && (at.NRecord? ==> m.journal.None?)
  }

  predicate Inv(r: Router) {
    match r.task
    case Idle(_) => true
    case Applying(at, c) => ApplyOk(at, c, r.m)
    case Neutralizing(at, start) => NeutralizeOk(at, start, r.m)
  }

  /** Going forward keeps what is known all the way. */
  lemma ForwardStaysUnderWay(at: Stage, c: Apply, m: Machine, a: Answer)
    requires !Undoing(at) && !at.Finish? && ApplyOk(at, c, m)
    ensures var r := Forward(at, c, m, a); r.task.Applying? && UnderWay(r.task.c, r.m)
  {
    hide Achieved;
  }

  lemma HostsStagesKeepInv(at: Stage, c: Apply, m: Machine, a: Answer)
    requires at.AskHelper? || at.PutHosts? || at.MarkHosts?
    requires ApplyOk(at, c, m)
    ensures Inv(Forward(at, c, m, a))
  {
    ForwardStaysUnderWay(at, c, m, a);
    hide AppliedState;
  }

  lemma StagesWithoutConfigKeepInv(at: Stage, c: Apply, m: Machine, a: Answer)
    requires WithoutConfig(at) && ApplyOk(at, c, m)
    ensures Inv(Forward(at, c, m, a))
  {
    ForwardStaysUnderWay(at, c, m, a);
    hide AppliedState;
  }

  lemma CaddyStagesKeepInv(at: Stage, c: Apply, m: Machine, a: Answer)
    requires at.AskRedirect? || at.LoadCaddy? || at.MarkCaddy?
    requires ApplyOk(at, c, m)
    ensures Inv(Forward(at, c, m, a))
  {
    ForwardStaysUnderWay(at, c, m, a);
    hide AppliedState;
  }

  lemma TrustStagesKeepInv(at: Stage, c: Apply, m: Machine, a: Answer)
    requires at.AskTrust? || at.Trust? || at.MarkTrust?
    requires ApplyOk(at, c, m)
    ensures Inv(Forward(at, c, m, a))
  {
    ForwardStaysUnderWay(at, c, m, a);
    hide AppliedState;
  }

  lemma LastStagesKeepInv(at: Stage, c: Apply, m: Machine, a: Answer)
    requires (at.Publish? || at.Finish?) && ApplyOk(at, c, m)
    ensures Inv(Forward(at, c, m, a))
  {
  }

  lemma ForwardKeepsInv(at: Stage, c: Apply, m: Machine, a: Answer)
    requires !Undoing(at) && ApplyOk(at, c, m)
    ensures Inv(Forward(at, c, m, a))
  {
    hide Forward, Inv, ApplyOk;
    if at.AskTrust? || at.Trust? || at.MarkTrust? {
      TrustStagesKeepInv(at, c, m, a);
    } else if WithConfig(at) {
      CaddyStagesKeepInv(at, c, m, a);
    } else if WithoutConfig(at) {
      StagesWithoutConfigKeepInv(at, c, m, a);
    } else if at.Publish? || at.Finish? {
      LastStagesKeepInv(at, c, m, a);
    } else {
      HostsStagesKeepInv(at, c, m, a);
    }
  }

  /** The same transaction, but for how its undoing goes; only effects it has begun differ. */
  predicate Onward(c: Apply, m: Machine, next: Apply, now: Machine) {
    && next == c.(undone := next.undone, undoTaken := next.undoTaken)
    && now == m.(hosts := now.hosts, caddy := now.caddy, ca := now.ca) && Touched(c.undo, m, now)
  }

  lemma OnwardIsUnderWay(c: Apply, m: Machine, next: Apply, now: Machine)
    requires UnderWay(c, m) && Onward(c, m, next, now)
    ensures UnderWay(next, now)
  {
    hide AppliedState;
  }

  lemma UndoingCaddyIsOnward(c: Apply, m: Machine, a: Answer)
    ensures var r := Backward(UndoCaddy, c, m, a); r.task.Applying? && Onward(c, m, r.task.c, r.m)
  {
  }

  lemma UndoingHostsIsOnward(c: Apply, m: Machine, a: Answer)
    ensures var r := Backward(UndoHosts, c, m, a); r.task.Applying? && Onward(c, m, r.task.c, r.m)
  {
  }

  lemma UndoingTrustIsOnward(at: Stage, c: Apply, m: Machine, a: Answer)
    requires at.UndoTrust? || at.UndoUntrust?
    ensures var r := Backward(at, c, m, a); r.task.Applying? && Onward(c, m, r.task.c, r.m)
  {
  }

  lemma UndoingIsOnward(at: Stage, c: Apply, m: Machine, a: Answer)
    requires Undoing(at) && !at.ClearUndone? && !at.RecordFailure?
    ensures var r := Backward(at, c, m, a); r.task.Applying? && Onward(c, m, r.task.c, r.m)
  {
    hide Onward, Touched;
    if at.UndoCaddy? { UndoingCaddyIsOnward(c, m, a); }
    else if at.UndoHosts? { UndoingHostsIsOnward(c, m, a); }
    else { UndoingTrustIsOnward(at, c, m, a); }
  }

  lemma BackwardKeepsFacts(at: Stage, c: Apply, m: Machine, a: Answer)
    requires Undoing(at) && !at.RecordFailure? && UnderWay(c, m) && BackwardOk(at, c, m)
    ensures var r := Backward(at, c, m, a);
      r.task.Applying? && Undoing(r.task.at) && BackwardOk(r.task.at, r.task.c, r.m)
  {
  }

  lemma BackwardKeepsInv(at: Stage, c: Apply, m: Machine, a: Answer)
    requires Undoing(at) && ApplyOk(at, c, m)
    ensures Inv(Backward(at, c, m, a))
  {
    if !at.RecordFailure? {
      BackwardKeepsFacts(at, c, m, a);
      if !at.ClearUndone? {
        UndoingIsOnward(at, c, m, a);
        OnwardIsUnderWay(c, m, Backward(at, c, m, a).task.c, Backward(at, c, m, a).m);
      }
      hide BackwardOk, Onward, AppliedState, Touched;
    }
  }

  lemma StepKeepsInv(r: Router, step: Step)
    requires Inv(r) && Enabled(r, step)
    ensures Inv(Next(r, step))
  {
    if step.Reply? && r.task.Applying? {
      hide *;
      if Undoing(r.task.at) { BackwardKeepsInv(r.task.at, r.task.c, r.m, step.a); }
      else { ForwardKeepsInv(r.task.at, r.task.c, r.m, step.a); }
    }
  }

  /** A phase is on record only once what it names has happened, and names everything that has been marked. */
  lemma RecordedPhasesAreEarned(r: Router)
    requires Inv(r) && r.task.Applying? && !Undoing(r.task.at)
    ensures var c := r.task.c; r.m.journal.Some? && r.m.journal.value.tx == Some(c.tx)
    ensures var c, phase := r.task.c, r.m.journal.value.phase;
      && (!phase.Planned? ==> r.m.hosts == c.desired.entries)
      && (phase.CaddyApplied? || phase.CaApplied? ==> c.desired.config.Some? && r.m.caddy == c.desired.config)
      && (phase.CaApplied? ==> r.m.ca)
      && (phase.Neutralized? ==> c.desired.config.None? && r.m.caddy.None? && (c.before.trusted ==> !r.m.ca))
      && (phase.Planned? ==> !c.undo.caddy && !c.undo.ca)
      && !phase.UnknownPhase?
  {
  }

  // ---------- With every port obeying ----------

  /** The end of an operation whose ports all do as they are told. */
  function Obeyed(r: Router): Router
    decreases Remaining(r.task)
  {
    if r.task.Idle? then r
    else
      RepliesEnd(r, YES.a);
      Obeyed(Next(r, YES))
  }

  lemma {:induction false} ObeyedUndoing(r: Router)
    requires Inv(r) && r.task.Applying? && Undoing(r.task.at) && r.task.c.undone && !r.task.c.undoTaken
    requires r.task.at.RecordFailure? ==> r.task.c.cleared
    ensures var end := Obeyed(r); end.task.Idle? && end.task.last.RolledBack? && end.task.last.saved && !end.task.last.undoTaken
    decreases Remaining(r.task)
  {
    StepKeepsInv(r, YES);
    RepliesEnd(r, YES.a);
    if !r.task.at.RecordFailure? { ObeyedUndoing(Next(r, YES)); }
  }

  lemma {:induction false} ObeyedForward(r: Router)
    requires Inv(r) && r.task.Applying? && !Undoing(r.task.at)
    ensures var end := Obeyed(r); end.task == Idle(Done(r.task.c.portTaken))
    decreases Remaining(r.task)
  {
    StepKeepsInv(r, YES);
    RepliesEnd(r, YES.a);
    if !r.task.at.Finish? { ObeyedForward(Next(r, YES)); }
  }

  lemma {:induction false} ObeyedNeutralizing(r: Router)
    requires Inv(r) && r.task.Neutralizing? && !r.task.stage.NRecordFailure?
    ensures Obeyed(r).task == Idle(Undone)
    decreases Remaining(r.task)
  {
    StepKeepsInv(r, YES);
    RepliesEnd(r, YES.a);
    if !r.task.stage.NRecord? { ObeyedNeutralizing(Next(r, YES)); }
  }

  // ---------- How operations end ----------

  /**
   * How an application may end. Rolled back means hosts and trust as before, Caddy too unless its port was taken
   * or its configuration file did not name what ran; the recorded state is the prior one marked failed, or, if
   * that could not be saved, whatever had been recorded last. Stuck means that the transaction stays pending.
   */
  predicate Outcome(was: Machine, now: Machine, desired: Desired, config: Option<nat>, result: Result) {
    match result
    case Done(portTaken) =>
      && now.hosts == desired.entries && now.journal.None?
      && now.state == RouteState(if portTaken then HostsOnly else Applied, Some(desired.revision), desired.entries, None)
      && (desired.config.None? ==> !portTaken && now.caddy.None?)
      && (desired.config.Some? && !portTaken ==> now.caddy == desired.config && now.ca)
    case RolledBack(saved, published, undoTaken) =>
      && now.hosts == was.hosts && now.ca == was.ca && now.journal.None?
      && (was.caddy.None? ==> now.caddy.None?)
      && (!undoTaken && (was.caddy.Some? ==> config == was.caddy) ==> now.caddy == was.caddy)
      && now.state == (if saved then was.state.(status := Failed, pendingTx := None)
                       else if published.Some? then
                         RouteState(if published.value then HostsOnly else Applied, Some(desired.revision),
                                    desired.entries, None)
                       else was.state)
    case Stuck(saved) =>
      && now.journal.Some? && now.journal.value.tx.Some?
      && (saved ==> now.state == was.state.(status := Failed, pendingTx := now.journal.value.tx))
    case _ => now == was
  }

  lemma ForwardEnds(at: Stage, c: Apply, m: Machine, a: Answer)
    requires !Undoing(at) && ApplyOk(at, c, m)
    ensures var r := Forward(at, c, m, a);
      if r.task.Applying? then
        r.task.c.start == c.start && r.task.c.desired == c.desired && r.task.c.before == c.before && r.task.c.tx == c.tx
      else r.task.Idle? && r.task.last.Done? && Outcome(c.start, r.m, c.desired, c.before.config, r.task.last)
  {
  }

  lemma BackwardEnds(at: Stage, c: Apply, m: Machine, a: Answer)
    requires Undoing(at) && ApplyOk(at, c, m)
    ensures var r := Backward(at, c, m, a);
      if r.task.Applying? then
        r.task.c.start == c.start && r.task.c.desired == c.desired && r.task.c.before == c.before && r.task.c.tx == c.tx
      else
        && r.task.Idle? && (r.task.last.RolledBack? || r.task.last.Stuck?)
        && Outcome(c.start, r.m, c.desired, c.before.config, r.task.last)
  {
  }

  /** An operation under way keeps what it began on, and ends in one of its outcomes. */
  ghost predicate Follows(was: Machine, begun: Step, r: Router) {
    && Inv(r)
    && match begun
       case BeginApply(desired, before, tx, true) =>
         if r.task.Applying? then
           r.task.c.start == was && r.task.c.desired == desired && r.task.c.before == before && r.task.c.tx == tx
         else
           && r.task.Idle? && (r.task.last.Done? || r.task.last.RolledBack? || r.task.last.Stuck?)
           && Outcome(was, r.m, desired, before.config, r.task.last)
       case BeginApply(_, _, _, false) => r.task == Idle(Refused) && r.m == was
       case BeginNeutralize =>
         if r.task.Neutralizing? then r.task.start == was
         else if r.task == Idle(Undone) then r.m == Machine([], None, false, NEUTRALIZED_STATE, None)
         else
           && r.task.Idle? && r.task.last.NotUndone? && PartlyUndone(was, r.m)
           && r.m.state == (if r.task.last.saved then was.state.(status := CleanupPending) else was.state)
       case _ => true
  }

  lemma BeginFollows(r: Router, begun: Step)
    requires Inv(r) && Enabled(r, begun) && (begun.BeginApply? || begun.BeginNeutralize?)
    ensures Follows(r.m, begun, Next(r, begun))
  {
    StepKeepsInv(r, begun);
  }

  lemma ReplyFollows(was: Machine, begun: Step, r: Router, a: Answer)
    requires (begun.BeginApply? || begun.BeginNeutralize?) && Follows(was, begun, r) && !r.task.Idle?
    ensures Follows(was, begun, Next(r, Reply(a)))
  {
    StepKeepsInv(r, Reply(a));
    if r.task.Applying? {
      if Undoing(r.task.at) { BackwardEnds(r.task.at, r.task.c, r.m, a); } else { ForwardEnds(r.task.at, r.task.c, r.m, a); }
      hide Inv, Outcome, Forward, Backward;
    }
  }

  // ---------- A recorded quarantine, over runs ----------

  /** Truthful now, and after a rollback to where the transaction began. */
  predicate Trusted(r: Router) { Truthful(r.m) && (r.task.Applying? ==> Settled(r.task.c.start)) }

  /**
   * The caller's caution, as far as the records show it: no transaction is begun over a pending one while
   * `quarantined` is on record, and Caddy is not resumed under a recorded quarantine.
   */
  predicate Cautious(r: Router, step: Step) {
    match step
    case BeginApply(_, _, _, _) => !(r.m.state.status.Quarantined? && r.m.journal.Some?)
    case Resume(_, _) => !r.m.state.status.Quarantined?
    case _ => true
  }

  /** What caution has to achieve. */
  predicate Careful(r: Router, step: Step) {
    match step
    case BeginApply(_, _, _, _) => Settled(r.m)
    case Resume(_, _) => !r.m.state.status.Quarantined?
    case _ => true
  }

  lemma StepKeepsTrust(r: Router, step: Step)
    requires Inv(r) && Trusted(r) && Enabled(r, step) && Careful(r, step)
    ensures Trusted(Next(r, step))
  {
    if step.Reply? && r.task.Applying? {
      var at, c := r.task.at, r.task.c;
      if Undoing(at) { BackwardKeepsTrust(at, c, r.m, step.a); } else { ForwardKeepsTrust(at, c, r.m, step.a); }
    }
  }

  lemma ForwardKeepsTrust(at: Stage, c: Apply, m: Machine, a: Answer)
    requires !Undoing(at) && ApplyOk(at, c, m) && Settled(c.start)
    ensures Trusted(Forward(at, c, m, a))
  {
  }

  lemma BackwardKeepsTrust(at: Stage, c: Apply, m: Machine, a: Answer)
    requires Undoing(at) && ApplyOk(at, c, m) && Settled(c.start) && Truthful(m)
    ensures Trusted(Backward(at, c, m, a))
  {
  }

  predicate CarefulRun(r: Router, steps: seq<Step>)
    requires EnabledRun(r, steps)
    decreases |steps|
  {
    steps == [] ||
    (var before := steps[..|steps| - 1];
     CarefulRun(r, before) && Careful(Run(r, before), steps[|steps| - 1]))
  }

  predicate CautiousRun(r: Router, steps: seq<Step>)
    requires EnabledRun(r, steps)
    decreases |steps|
  {
    steps == [] ||
    (var before := steps[..|steps| - 1];
     CautiousRun(r, before) && Cautious(Run(r, before), steps[|steps| - 1]))
  }

  lemma {:induction false} RunKeepsTrust(r: Router, steps: seq<Step>)
    requires Inv(r) && Trusted(r) && EnabledRun(r, steps) && CarefulRun(r, steps)
    ensures Inv(Run(r, steps)) && Trusted(Run(r, steps))
    decreases |steps|
  {
    if steps == [] {
    } else {
      var before := steps[..|steps| - 1];
      RunKeepsTrust(r, before);
      StepKeepsInv(Run(r, before), steps[|steps| - 1]);
      StepKeepsTrust(Run(r, before), steps[|steps| - 1]);
    }
  }

  lemma {:induction false} CautionIsEnough(r: Router, steps: seq<Step>)
    requires Inv(r) && Trusted(r) && EnabledRun(r, steps) && CautiousRun(r, steps)
    ensures CarefulRun(r, steps)
    decreases |steps|
  {
    if steps == [] {
    } else {
      var before := steps[..|steps| - 1];
      CautionIsEnough(r, before);
      RunKeepsTrust(r, before);
    }
  }

  /**
   * Over every run of applications, neutralizations, resumptions and crashes, each of them cut anywhere: as long
   * as the records are heeded, `quarantined` without a pending transaction means that nothing is left.
   */
  lemma {:induction false} QuarantineIsTruthful(r: Router, steps: seq<Step>, crash: nat)
    requires Inv(r) && Trusted(r) && EnabledRun(r, steps) && CautiousRun(r, steps) && crash <= |steps|
    ensures EnabledRun(r, steps[..crash]) && Inv(Run(r, steps[..crash]))
    ensures Truthful(Next(Run(r, steps[..crash]), Crash).m) && Truthful(Run(r, steps[..crash]).m)
    decreases |steps|
  {
    if crash == |steps| {
      assert steps[..crash] == steps;
      CautionIsEnough(r, steps);
      RunKeepsTrust(r, steps);
    } else {
      assert steps[..|steps| - 1][..crash] == steps[..crash];
      QuarantineIsTruthful(r, steps[..|steps| - 1], crash);
    }
  }

  // ---------- Exactly when applications are safe ----------

  function Quiet(m: Machine): Router { Router(Idle(Nothing), m) }

  /** One application from a machine at rest, cut anywhere. */
  predicate IsApply(m: Machine, steps: seq<Step>) {
    && steps != [] && steps[0].BeginApply? && (forall k :: 0 < k < |steps| ==> steps[k].Reply?)
    && EnabledRun(Quiet(m), steps)
  }

  lemma OneMore(r: Router, steps: seq<Step>, step: Step)
    requires EnabledRun(r, steps) && Enabled(Run(r, steps), step)
    ensures EnabledRun(r, steps + [step]) && Run(r, steps + [step]) == Next(Run(r, steps), step)
  {
    assert (steps + [step])[..|steps|] == steps;
  }

  const YES: Step := Reply(Answer(true, false, false, None))
  const NO: Step := Reply(Answer(false, false, false, None))
  const TAKEN: Step := Reply(Answer(true, false, true, None))

  /** A run from `was`, spelled out so far. */
  ghost predicate Reaches(was: Router, steps: seq<Step>, now: Router) { EnabledRun(was, steps) && Run(was, steps) == now }

  lemma Then(was: Router, steps: seq<Step>, now: Router, step: Step)
    requires Reaches(was, steps, now) && Enabled(now, step)
    ensures Reaches(was, steps + [step], Next(now, step))
  {
    OneMore(was, steps, step);
  }

  /** Takes a run on through a transaction whose undoing meets nothing to undo. */
  lemma NothingToUndo(was: Router, steps: seq<Step>, c: Apply, m: Machine)
    requires Reaches(was, steps, Router(Applying(UndoTrust, c), m))
    requires !c.undo.ca && !c.undo.hosts && (c.undo.caddy ==> c.before.running && c.before.config.None?) && c.undone
    ensures Reaches(was, steps + [YES, YES, YES, YES, YES],
                    Router(Applying(RecordFailure, c.(cleared := true)), m.(journal := None)))
  {
    Then(was, steps, Router(Applying(UndoTrust, c), m), YES);
    var s1 := steps + [YES];
    Then(was, s1, Router(Applying(UndoCaddy, c), m), YES);
    var s2 := s1 + [YES];
    Then(was, s2, Router(Applying(UndoHosts, c), m), YES);
    var s3 := s2 + [YES];
    Then(was, s3, Router(Applying(UndoUntrust, c), m), YES);
    var s4 := s3 + [YES];
    Then(was, s4, Router(Applying(ClearUndone, c), m), YES);
    assert s4 + [YES] == steps + [YES, YES, YES, YES, YES];
  }

  /** An application that fails at its first mark is rolled back to where it began, with the journal gone. */
  lemma FailedMark(was: Router, steps: seq<Step>, now: Router, desired: Desired, before: Before)
    requires Reaches(was, steps, now) && now.task.Idle? && Supersedable(now.m) && Reads(before, now.m)
    requires desired.entries == now.m.hosts
    ensures exists m: Machine, c: Apply ::
              && Reaches(was, steps + [BeginApply(desired, before, 0, true), YES, YES, NO] + [YES, YES, YES, YES, YES],
                         Router(Applying(RecordFailure, c), m))
              && m == now.m.(journal := None)
  {
    var begin := BeginApply(desired, before, 0, true);
    var c := Begun(now.m, desired, before, 0);
    var m := now.m.(journal := Some(RouteJournal(Some(0), Planned)));
    Then(was, steps, now, begin);
    var s1 := steps + [begin];
    Then(was, s1, Router(Applying(AskHelper, c), m), YES);
    var s2 := s1 + [YES];
    Then(was, s2, Router(Applying(PutHosts, c), m), YES);
    var s3 := s2 + [YES];
    Then(was, s3, Router(Applying(MarkHosts, c), m), NO);
    var s4 := s3 + [NO];
    NothingToUndo(was, s4, c, m);
    assert s4 == steps + [begin, YES, YES, NO];
  }

  /**
   * The whole answer for one application from a truthful machine: every point it can be cut at is truthful
   * again if and only if the machine is settled, or the application is refused for its pending record.
   */
  lemma ApplyStaysTruthfulIff(m: Machine)
    requires Truthful(m)
    ensures (forall steps :: IsApply(m, steps) ==> Truthful(Run(Quiet(m), steps).m)) <==> Settled(m) || !Supersedable(m)
  {
    if Settled(m) || !Supersedable(m) {
      forall steps | IsApply(m, steps) ensures Truthful(Run(Quiet(m), steps).m) {
        SettledApply(m, steps);
      }
    } else {
      var desired, before := Desired(m.hosts, None, 0), Before(m.hosts, m.caddy.Some?, None, false);
      assert Reaches(Quiet(m), [], Quiet(m));
      FailedMark(Quiet(m), [], Quiet(m), desired, before);
      var steps := [] + [BeginApply(desired, before, 0, true), YES, YES, NO] + [YES, YES, YES, YES, YES];
      assert IsApply(m, steps) && !Truthful(Run(Quiet(m), steps).m);
    }
  }

  lemma {:induction false} SettledApply(m: Machine, steps: seq<Step>)
    requires Truthful(m) && (Settled(m) || !Supersedable(m)) && IsApply(m, steps)
    ensures Inv(Run(Quiet(m), steps)) && Trusted(Run(Quiet(m), steps))
    decreases |steps|
  {
    var n := |steps| - 1;
    var last := steps[n];
    if n == 0 {
      assert EnabledRun(Quiet(m), steps[..0]) && Run(Quiet(m), steps[..0]) == Quiet(m);
      assert Settled(m);
      StepKeepsInv(Quiet(m), last);
      StepKeepsTrust(Quiet(m), last);
    } else {
      assert IsApply(m, steps[..n]);
      SettledApply(m, steps[..n]);
      StepKeepsInv(Run(Quiet(m), steps[..n]), last);
      StepKeepsTrust(Run(Quiet(m), steps[..n]), last);
    }
  }

  /**
   * Without caution the record can lie, from the very machine a restore leaves: an activation dies after its
   * hosts write, the cleanup at the next start fails and cannot record that, and the next activation is rolled
   * back to what it found.
   */
  lemma HeedlessRunCanLie(e: HostEntry) returns (steps: seq<Step>)
    ensures var restored := Quiet(Machine([], None, false, NEUTRALIZED_STATE, None));
      && EnabledRun(restored, steps) && Truthful(restored.m)
      && SaysNeutral(Run(restored, steps).m) && Run(restored, steps).m.hosts == [e]
  {
    hide Backward;
    var m := Machine([], None, false, NEUTRALIZED_STATE, None);
    var was, desired := Quiet(m), Desired([e], None, 0);
    var before := Before([], false, None, false);
    var begin, c := BeginApply(desired, before, 0, true), Begun(m, desired, before, 0);
    m := m.(journal := Some(RouteJournal(Some(0), Planned)));
    assert Reaches(was, [], was);
    Then(was, [], was, begin);
    steps := [] + [begin];
    Then(was, steps, Router(Applying(AskHelper, c), m), YES);
    steps := steps + [YES];
    Then(was, steps, Router(Applying(PutHosts, c), m), YES);
    steps := steps + [YES];
    m, c := m.(hosts := [e]), c.(undo := Undo(true, false, false));
    Then(was, steps, Router(Applying(MarkHosts, c), m), Crash);
    steps := steps + [Crash];
    steps := CleanupFails(was, steps, m);
    var again := Before([e], false, None, false);
    FailedMark(was, steps, Router(Idle(NotUndone(false)), m), desired, again);
    steps := steps + [BeginApply(desired, again, 0, true), YES, YES, NO] + [YES, YES, YES, YES, YES];
  }

  lemma CleanupFails(was: Router, steps: seq<Step>, m: Machine) returns (all: seq<Step>)
    requires Reaches(was, steps, Quiet(m)) && m.hosts != []
    ensures Reaches(was, all, Router(Idle(NotUndone(false)), m))
  {
    Then(was, steps, Quiet(m), BeginNeutralize);
    all := steps + [BeginNeutralize];
    Then(was, all, Router(Neutralizing(NAskHelper, m), m), NO);
    all := all + [NO];
    Then(was, all, Router(Neutralizing(NRecordFailure, m), m), NO);
    all := all + [NO];
  }

  lemma {:induction false} ApplyFollows(m: Machine, steps: seq<Step>)
    requires IsApply(m, steps)
    ensures Follows(m, steps[0], Run(Quiet(m), steps))
    decreases |steps|
  {
    var n := |steps| - 1;
    if n == 0 {
      assert EnabledRun(Quiet(m), steps[..0]) && Run(Quiet(m), steps[..0]) == Quiet(m);
      BeginFollows(Quiet(m), steps[0]);
    } else {
      assert IsApply(m, steps[..n]);
      ApplyFollows(m, steps[..n]);
      ReplyFollows(m, steps[0], Run(Quiet(m), steps[..n]), steps[n].a);
    }
  }

  /** An application that read `config` as the configuration file and was rolled back. */
  predicate RollsBack(m: Machine, config: Option<nat>, steps: seq<Step>) {
    && IsApply(m, steps) && steps[0].before.config == config
    && Run(Quiet(m), steps).task.Idle? && Run(Quiet(m), steps).task.last.RolledBack?
  }

  /** An application from `m` that read `before`, cut where the router stands at `now`. */
  ghost predicate Stands(m: Machine, before: Before, steps: seq<Step>, now: Router) {
    IsApply(m, steps) && steps[0].before == before && Run(Quiet(m), steps) == now
  }

  lemma Starts(m: Machine, desired: Desired, before: Before)
    requires Supersedable(m) && Reads(before, m)
    ensures Stands(m, before, [BeginApply(desired, before, 0, true)],
                   Router(Applying(AskHelper, Begun(m, desired, before, 0)),
                          m.(journal := Some(RouteJournal(Some(0), Planned)))))
  {
    var begin := BeginApply(desired, before, 0, true);
    OneMore(Quiet(m), [], begin);
    assert [] + [begin] == [begin];
  }

  lemma Stepped(m: Machine, before: Before, steps: seq<Step>, now: Router, reply: Step)
    requires Stands(m, before, steps, now) && !now.task.Idle? && reply.Reply?
    ensures Stands(m, before, steps + [reply], Next(now, reply))
  {
    OneMore(Quiet(m), steps, reply);
  }

  /** Begins, and gets as far as having marked the hosts block, which is as wanted already. */
  lemma HostsMarked(m: Machine, desired: Desired, before: Before) returns (steps: seq<Step>, c: Apply, now: Machine)
    requires Supersedable(m) && Reads(before, m) && desired.entries == m.hosts
    ensures c == Begun(m, desired, before, 0) && now == m.(journal := Some(RouteJournal(Some(0), HostsApplied)))
    ensures Stands(m, before, steps, Router(Applying(if desired.config.None? then StopCaddy else AskRedirect, c), now))
  {
    hide Stands, Backward, Neutralize;
    c := Begun(m, desired, before, 0);
    now := m.(journal := Some(RouteJournal(Some(0), Planned)));
    Starts(m, desired, before);
    steps := [BeginApply(desired, before, 0, true)];
    Stepped(m, before, steps, Router(Applying(AskHelper, c), now), YES);
    steps := steps + [YES];
    Stepped(m, before, steps, Router(Applying(PutHosts, c), now), YES);
    steps := steps + [YES];
    Stepped(m, before, steps, Router(Applying(MarkHosts, c), now), YES);
    steps := steps + [YES];
    now := now.(journal := Some(RouteJournal(Some(0), HostsApplied)));
  }

  /** A reload of Caddy that fails and leaves nothing running, about to be undone. */
  lemma FailedReload(m: Machine, config: Option<nat>, wanted: nat) returns (steps: seq<Step>, c: Apply, now: Machine)
    requires Supersedable(m) && m.caddy.Some?
    ensures Stands(m, Before(m.hosts, true, config, false), steps, Router(Applying(UndoCaddy, c), now))
    ensures c == Begun(m, Desired(m.hosts, Some(wanted), 0), Before(m.hosts, true, config, false), 0).(undo := c.undo)
    ensures c.undo == Undo(false, true, false) && now.caddy.None?
  {
    hide Stands, Neutralize;
    var before := Before(m.hosts, true, config, false);
    steps, c, now := HostsMarked(m, Desired(m.hosts, Some(wanted), 0), before);
    Stepped(m, before, steps, Router(Applying(AskRedirect, c), now), YES);
    steps := steps + [YES];
    c := c.(undo := Undo(false, true, false));
    Stepped(m, before, steps, Router(Applying(LoadCaddy, c), now), NO);
    steps := steps + [NO];
    now := now.(caddy := None);
    Stepped(m, before, steps, Router(Applying(UndoTrust, c), now), YES);
    steps := steps + [YES];
  }

  /** A transaction with no effect left to undo is rolled back; only recording that may fail. */
  lemma NothingLeft(m: Machine, before: Before, steps: seq<Step>, c: Apply, now: Machine, save: Step)
    returns (all: seq<Step>)
    requires Stands(m, before, steps, Router(Applying(UndoHosts, c), now)) && save.Reply?
    requires !c.undo.hosts && !c.undo.ca && c.undone && !c.cleared
    ensures var cleared := c.(cleared := true);
      Stands(m, before, all,
             Router(Idle(RolledBack(save.a.ok, if c.published then Some(c.portTaken) else None, c.undoTaken)),
                    now.(journal := None, state := if save.a.ok then FailedState(cleared) else now.state)))
  {
    hide Stands, Forward, Neutralize, FailedState;
    Stepped(m, before, steps, Router(Applying(UndoHosts, c), now), YES);
    all := steps + [YES];
    Stepped(m, before, all, Router(Applying(UndoUntrust, c), now), YES);
    all := all + [YES];
    Stepped(m, before, all, Router(Applying(ClearUndone, c), now), YES);
    all := all + [YES];
    Stepped(m, before, all, Router(Applying(RecordFailure, c.(cleared := true)), now.(journal := None)), save);
    all := all + [save];
  }

  /** A failed reload is rolled back, whatever its undoing leaves running. */
  lemma ReloadUndone(m: Machine, config: Option<nat>, reload: Step) returns (all: seq<Step>)
    requires Supersedable(m) && m.caddy.Some? && (reload == YES || reload == TAKEN)
    ensures RollsBack(m, config, all)
    ensures var r := Run(Quiet(m), all);
      && r.task.last.undoTaken == (config.Some? && reload == TAKEN)
      && r.m.caddy == if config.Some? && reload == YES then config else None
  {
    var before := Before(m.hosts, true, config, false);
    var steps, c, now := FailedReload(m, config, 0);
    assert Stands(m, before, steps + [reload], Next(Router(Applying(UndoCaddy, c), now), reload)) by {
      Stepped(m, before, steps, Router(Applying(UndoCaddy, c), now), reload);
    }
    var r := Next(Router(Applying(UndoCaddy, c), now), reload);
    all := NothingLeft(m, before, steps + [reload], r.task.c, r.m, YES);
  }

  /**
   * Exactly when a rollback is sure to bring Caddy back, ports being free: Caddy was not running, or the
   * configuration file named what it ran.
   */
  lemma CaddyComesBackIff(m: Machine, config: Option<nat>)
    requires Supersedable(m)
    ensures (forall steps :: RollsBack(m, config, steps) && !Run(Quiet(m), steps).task.last.undoTaken ==>
                               Run(Quiet(m), steps).m.caddy == m.caddy)
            <==> m.caddy.None? || config == m.caddy
  {
    if m.caddy.None? || config == m.caddy {
      forall steps | RollsBack(m, config, steps) && !Run(Quiet(m), steps).task.last.undoTaken
        ensures Run(Quiet(m), steps).m.caddy == m.caddy
      {
        ApplyFollows(m, steps);
      }
    } else {
      var all := ReloadUndone(m, config, YES);
    }
  }

  /**
   * Without that assumption only a Caddy that was not running is sure to be as before: a rollback that meets a
   * taken port still reports success.
   */
  lemma TakenPortGoesUnreported(m: Machine, config: Option<nat>)
    requires Supersedable(m)
    ensures (forall steps :: RollsBack(m, config, steps) ==> Run(Quiet(m), steps).m.caddy == m.caddy) <==> m.caddy.None?
  {
    if m.caddy.None? {
      forall steps | RollsBack(m, config, steps) ensures Run(Quiet(m), steps).m.caddy == m.caddy {
        ApplyFollows(m, steps);
      }
    } else {
      var all := ReloadUndone(m, config, TAKEN);
    }
  }

  /** The other way a rollback hides: its last write fails after the applied state was recorded, and stays. */
  lemma RollbackCanStayApplied(m: Machine) returns (steps: seq<Step>)
    requires Supersedable(m) && m.caddy.None?
    ensures IsApply(m, steps)
    ensures var r := Run(Quiet(m), steps);
      r.task == Idle(RolledBack(false, Some(false), false)) && r.m == m.(state := r.m.state, journal := None)
      && r.m.state.status.Applied?
  {
    var before := Before(m.hosts, false, None, false);
    var c, now;
    steps, c, now := HostsMarked(m, Desired(m.hosts, None, 0), before);
    var first := steps;
    steps, c, now := PublishedOnly(m, before, first, c, now);
    steps := NothingLeft(m, before, steps, c, now, NO);
  }

  /** Nothing to do but to publish; then the journal cannot be cleared. */
  lemma PublishedOnly(m: Machine, before: Before, first: seq<Step>, begun: Apply, marked: Machine)
    returns (steps: seq<Step>, c: Apply, now: Machine)
    requires Stands(m, before, first, Router(Applying(StopCaddy, begun), marked))
    requires !begun.before.running && !begun.before.trusted && begun.undo == Undo(false, false, false) && begun.undone
    ensures c == begun.(published := true)
    ensures now == marked.(state := AppliedState(begun.desired, begun.portTaken), journal := now.journal)
    ensures Stands(m, before, steps, Router(Applying(UndoHosts, c), now))
  {
    hide Stands, Neutralize, AppliedState;
    c, now := begun, marked;
    Stepped(m, before, first, Router(Applying(StopCaddy, c), now), YES);
    steps := first + [YES];
    Stepped(m, before, steps, Router(Applying(Untrust, c), now), YES);
    steps := steps + [YES];
    Stepped(m, before, steps, Router(Applying(MarkNeutral, c), now), YES);
    steps := steps + [YES];
    now := now.(journal := Some(RouteJournal(Some(c.tx), Neutralized)));
    Stepped(m, before, steps, Router(Applying(Publish, c), now), YES);
    steps := steps + [YES];
    c, now := c.(published := true), now.(state := AppliedState(c.desired, c.portTaken));
    Stepped(m, before, steps, Router(Applying(Finish, c), now), NO);
    steps := steps + [NO];
    Stepped(m, before, steps, Router(Applying(UndoTrust, c), now), YES);
    steps := steps + [YES];
    Stepped(m, before, steps, Router(Applying(UndoCaddy, c), now), YES);
    steps := steps + [YES];
  }
}
