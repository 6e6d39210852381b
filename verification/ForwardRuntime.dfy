/**
 * The forward runtime: its table of runs, the sections it executes under its mutex, and every
 * interleaving of those sections with dials, stops, watchers and background finishers, which all
 * run outside the mutex.
 */
module ForwardRuntime {
  import opened Common

  datatype Phase = Starting | Running | Stopping

  /** `run` is the published handle of a generation; a handle is known by the number of its creation. */
  datatype Entry = Entry(generation: nat, phase: Phase, run: Option<nat>)

  datatype Status = StatusRunning | StatusReconnecting | StatusStopped | StatusError

  /** The fields RuntimeBiz guards with its mutex. */
  datatype Table = Table(runs: map<int, Entry>, states: map<int, Status>, nextGeneration: nat, closing: bool)

  // ---------- The sections under the mutex ----------

  datatype Reservation = Closing | StillStopping | AlreadyThere | Reserved(generation: nat)

  function Reserve(tab: Table, id: int): (Table, Reservation) {
    if tab.closing then (tab, Closing)
    else if id in tab.runs then (tab, if tab.runs[id].phase.Stopping? then StillStopping else AlreadyThere)
    else
      var g := tab.nextGeneration + 1;
      (tab.(nextGeneration := g, runs := tab.runs[id := Entry(g, Starting, None)]), Reserved(g))
  }

  function Drop(tab: Table, id: int, status: Status): Table {
    tab.(runs := tab.runs - {id}, states := tab.states[id := status])
  }

  function FailStart(tab: Table, id: int, generation: nat): Table {
    if id in tab.runs && tab.runs[id].generation == generation then Drop(tab, id, StatusError) else tab
  }

  predicate CanPublish(tab: Table, id: int, generation: nat) {
    && id in tab.runs && tab.runs[id].generation == generation && tab.runs[id].phase.Starting? && !tab.closing
  }

  function Publish(tab: Table, id: int, generation: nat, run: nat): Table {
    if CanPublish(tab, id, generation) then
      tab.(runs := tab.runs[id := Entry(generation, Running, Some(run))], states := tab.states[id := StatusRunning])
    else tab
  }

  function Outcome(ok: bool): Status { if ok then StatusStopped else StatusError }

  function Abandon(tab: Table, id: int, generation: nat, ok: bool): Table {
    if id in tab.runs && tab.runs[id].generation == generation && tab.runs[id].run.None? then
      Drop(tab, id, Outcome(ok))
    else tab
  }

  predicate IsCurrent(tab: Table, id: int, generation: nat, run: nat) {
    id in tab.runs && tab.runs[id].generation == generation && tab.runs[id].run == Some(run)
  }

  function MarkStopping(tab: Table, id: int): Table
    requires id in tab.runs
  {
    tab.(runs := tab.runs[id := tab.runs[id].(phase := Stopping)])
  }

  /** The end of Stop, of a shutdown worker, and of a suspended run that had a handle. */
  function FinishStop(tab: Table, id: int, generation: nat, run: nat, ok: bool): Table {
    if !IsCurrent(tab, id, generation, run) then tab
    else if ok then Drop(tab, id, StatusStopped)
    else tab.(states := tab.states[id := StatusError])
  }

  /** An empty selection selects every forward. */
  predicate Wanted(ids: set<int>, id: int) { ids == {} || id in ids }

  /** The generations a suspension captures: every wanted entry that is not already stopping. */
  function SuspendPlan(tab: Table, ids: set<int>): map<int, nat> {
    map id | id in tab.runs && Wanted(ids, id) && !tab.runs[id].phase.Stopping? :: tab.runs[id].generation
  }

  function BeginSuspend(tab: Table, ids: set<int>): Table {
    var plan := SuspendPlan(tab, ids);
    tab.(runs := map id | id in tab.runs ::
                   if id in plan then tab.runs[id].(phase := Stopping) else tab.runs[id])
  }

  function FinishSuspend(tab: Table, id: int, generation: nat, ok: bool): Table {
    if !(id in tab.runs && tab.runs[id].generation == generation) then tab
    else if ok then Drop(tab, id, StatusStopped)
    else tab.(states := tab.states[id := StatusError])
  }

  function BeginShutdown(tab: Table): Table {
    tab.(closing := true, runs := map id | id in tab.runs :: tab.runs[id].(phase := Stopping))
  }

  function Finalized(tab: Table, id: int, generation: nat, run: nat, ok: bool): Table {
    if !IsCurrent(tab, id, generation, run) || tab.runs[id].phase.Stopping? then tab else Drop(tab, id, Outcome(ok))
  }

  function Event(tab: Table, id: int, generation: nat, run: nat, reconnected: bool): Table {
    if !IsCurrent(tab, id, generation, run) then tab
    else tab.(states := tab.states[id := if reconnected then StatusRunning else StatusReconnecting])
  }

  function FinishInBackground(tab: Table, id: int, generation: nat, run: nat): Table {
    if IsCurrent(tab, id, generation, run) then Drop(tab, id, StatusStopped) else tab
  }

  // ---------- Interleaving ----------

  /** Where a call stands between its sections; watchers, finishers and shutdown workers need no place. */
  datatype Pc =
    | Idle
    | Dialing(id: int, generation: nat)
    | Dialed(id: int, generation: nat, run: nat)      // Start of the handle succeeded
    | Abandoning(id: int, generation: nat, run: nat)  // publication refused, handle to be stopped
    | Stopper(id: int, generation: nat, run: nat)
    | Suspending(plan: map<int, nat>)                 // the captured generations not yet settled

  /** The start that made a handle. */
  datatype Home = Home(id: int, generation: nat, call: nat)

  /**
   * Beside the table, what happened to the handles: which start made each one whose Start succeeded,
   * which were published, had Stop invoked on them, or ended by themselves, and whose Stop reported success.
   */
  datatype Env = Env(
    tab: Table, home: map<nat, Home>, published: set<nat>, stopped: set<nat>, finished: set<nat>, down: set<nat>)

  datatype Op =
    | StartBegin(id: int)
    | DialFails
    | DialOk(run: nat)
    | StartEnd
    | AbandonEnd(ok: bool)
    | StopBegin(id: int)
    | StopEnd(ok: bool)
    | SuspendBegin(ids: set<int>)
    | SuspendEnd(id: int, ok: bool)
    | SuspendReturn
    | ShutdownBegin
    | ShutdownEnd(run: nat, ok: bool)
    | WatchEvent(run: nat, reconnected: bool)
    | WatchDone(run: nat, ok: bool)
    | FinishEnd(run: nat)

  predicate Enabled(pc: Pc, env: Env, op: Op) {
    match op
    case StartBegin(_) => pc.Idle?
    case DialFails => pc.Dialing?
    case DialOk(run) => pc.Dialing? && run !in env.home
    case StartEnd => pc.Dialed?
    case AbandonEnd(_) => pc.Abandoning?
    case StopBegin(_) => pc.Idle?
    case StopEnd(_) => pc.Stopper?
    case SuspendBegin(_) => pc.Idle?
    case SuspendEnd(id, ok) =>
      && pc.Suspending? && id in pc.plan
      && (!ok ==> id in env.tab.runs ==> env.tab.runs[id].run.Some?)
    case SuspendReturn => pc.Suspending? && pc.plan == map[]
    case ShutdownBegin => true
    case ShutdownEnd(run, _) => run in env.published && run in env.home && env.tab.closing
    case WatchEvent(run, _) => run in env.published && run in env.home
    case WatchDone(run, _) => run in env.published && run in env.home
    case FinishEnd(run) => run in env.published && run in env.home
  }

  /** The handle a suspension stops for a captured generation, if that generation had one. */
  function HandleOf(tab: Table, id: int, generation: nat): set<nat> {
    if id in tab.runs && tab.runs[id].generation == generation && tab.runs[id].run.Some? then {tab.runs[id].run.value} else {}
  }

  function Down(env: Env, runs: set<nat>, ok: bool): set<nat> { if ok then env.down + runs else env.down }

  function Act(t: nat, pc: Pc, env: Env, op: Op): (Pc, Env)
    requires Enabled(pc, env, op)
  {
    var tab := env.tab;
    match op
    case StartBegin(id) =>
      var (tab', r) := Reserve(tab, id);
      (if r.Reserved? then Dialing(id, r.generation) else Idle, env.(tab := tab'))
    case DialFails => (Idle, env.(tab := FailStart(tab, pc.id, pc.generation)))
    case DialOk(run) =>
      (Dialed(pc.id, pc.generation, run), env.(home := env.home[run := Home(pc.id, pc.generation, t)]))
    case StartEnd =>
      if CanPublish(tab, pc.id, pc.generation) then
        (Idle, env.(tab := Publish(tab, pc.id, pc.generation, pc.run), published := env.published + {pc.run}))
      else (Abandoning(pc.id, pc.generation, pc.run), env)
    case AbandonEnd(ok) =>
      (Idle, env.(tab := Abandon(tab, pc.id, pc.generation, ok), stopped := env.stopped + {pc.run},
                   down := Down(env, {pc.run}, ok)))
    case StopBegin(id) =>
      if id !in tab.runs || tab.runs[id].phase.Stopping? then (Idle, env)
      else
        var e := tab.runs[id];
        (if e.run.Some? then Stopper(id, e.generation, e.run.value) else Idle, env.(tab := MarkStopping(tab, id)))
    case StopEnd(ok) =>
      (Idle, env.(tab := FinishStop(tab, pc.id, pc.generation, pc.run, ok), stopped := env.stopped + {pc.run},
                   down := Down(env, {pc.run}, ok)))
    case SuspendBegin(ids) => (Suspending(SuspendPlan(tab, ids)), env.(tab := BeginSuspend(tab, ids)))
    case SuspendEnd(id, ok) =>
      (Suspending(pc.plan - {id}),
       env.(tab := FinishSuspend(tab, id, pc.plan[id], ok), stopped := env.stopped + HandleOf(tab, id, pc.plan[id]),
            down := Down(env, HandleOf(tab, id, pc.plan[id]), ok)))
    case SuspendReturn => (Idle, env)
    case ShutdownBegin => (pc, env.(tab := BeginShutdown(tab)))
    case ShutdownEnd(run, ok) =>
      var h := env.home[run];
      (pc, env.(tab := FinishStop(tab, h.id, h.generation, run, ok), stopped := env.stopped + {run},
                down := Down(env, {run}, ok)))
    case WatchEvent(run, reconnected) =>
      var h := env.home[run];
      (pc, env.(tab := Event(tab, h.id, h.generation, run, reconnected)))
    case WatchDone(run, ok) =>
      var h := env.home[run];
      (pc, env.(tab := Finalized(tab, h.id, h.generation, run, ok), finished := env.finished + {run}))
    case FinishEnd(run) =>
      var h := env.home[run];
      (pc, env.(tab := FinishInBackground(tab, h.id, h.generation, run), stopped := env.stopped + {run},
                down := Down(env, {run}, true)))
  }

  datatype System = System(calls: map<nat, Pc>, env: Env)

  datatype Step = Step(t: nat, op: Op)

  function At(s: System, t: nat): Pc { if t in s.calls then s.calls[t] else Idle }

  function Apply(s: System, step: Step): System
    requires Enabled(At(s, step.t), s.env, step.op)
  {
    var (pc, env) := Act(step.t, At(s, step.t), s.env, step.op);
    System(s.calls[step.t := pc], env)
  }

  // ---------- What every step keeps ----------

  predicate Live(st: Status) { st.StatusRunning? || st.StatusReconnecting? }

  predicate EntryOk(env: Env, id: int)
    requires id in env.tab.runs
  {
    var e := env.tab.runs[id];
    && 1 <= e.generation <= env.tab.nextGeneration
    && (e.run.None? ==> !e.phase.Running?)
    && (e.run.Some? ==>
          && !e.phase.Starting? && e.run.value in env.published && e.run.value in env.home
          && env.home[e.run.value].id == id && env.home[e.run.value].generation == e.generation)
  }

  /** A status of running or reconnecting belongs to a published entry with a handle: no ghosts. */
  predicate NoGhost(tab: Table, id: int) {
    id in tab.states && Live(tab.states[id]) ==> id in tab.runs && tab.runs[id].run.Some?
  }

  ghost predicate TableOk(env: Env) {
    && (forall id :: id in env.tab.runs ==> EntryOk(env, id))
    && (forall id :: id in env.tab.states ==> NoGhost(env.tab, id))
  }

  predicate InFlight(pc: Pc) { pc.Dialing? || pc.Dialed? || pc.Abandoning? }

  predicate CallOk(t: nat, pc: Pc, env: Env) {
    && (InFlight(pc) ==>
          && 1 <= pc.generation <= env.tab.nextGeneration
          && (pc.id in env.tab.runs && env.tab.runs[pc.id].generation == pc.generation ==> env.tab.runs[pc.id].run.None?))
    && (pc.Dialed? || pc.Abandoning? ==> pc.run in env.home && env.home[pc.run] == Home(pc.id, pc.generation, t))
  }

  /** No leak: a started handle is published, was stopped, ended, or is still held by its start. */
  predicate Accounted(env: Env, run: nat, pc: Pc)
    requires run in env.home
  {
    || run in env.stopped || run in env.finished
    || IsCurrent(env.tab, env.home[run].id, env.home[run].generation, run)
    || ((pc.Dialed? || pc.Abandoning?) && pc.run == run)
  }

  lemma EntryStep(t: nat, pc: Pc, env: Env, op: Op, id: int)
    requires Enabled(pc, env, op) && TableOk(env) && CallOk(t, pc, env) && id in Act(t, pc, env, op).1.tab.runs
    ensures EntryOk(Act(t, pc, env, op).1, id)
  {
  }

  lemma GhostStep(t: nat, pc: Pc, env: Env, op: Op, id: int)
    requires Enabled(pc, env, op) && TableOk(env) && CallOk(t, pc, env)
    ensures NoGhost(Act(t, pc, env, op).1.tab, id)
  {
    assert NoGhost(env.tab, id);
  }

  lemma OwnStepKeepsTable(t: nat, pc: Pc, env: Env, op: Op)
    requires Enabled(pc, env, op) && TableOk(env) && CallOk(t, pc, env)
    ensures TableOk(Act(t, pc, env, op).1)
  {
    hide Act, Enabled, EntryOk, NoGhost;
    var next := Act(t, pc, env, op).1;
    forall id | id in next.tab.runs ensures EntryOk(next, id) {
      EntryStep(t, pc, env, op, id);
    }
    forall id | id in next.tab.states ensures NoGhost(next.tab, id) {
      GhostStep(t, pc, env, op, id);
    }
  }

  lemma OwnStepKeepsCall(t: nat, pc: Pc, env: Env, op: Op)
    requires Enabled(pc, env, op) && TableOk(env) && CallOk(t, pc, env)
    ensures var (pc', env') := Act(t, pc, env, op); CallOk(t, pc', env')
  {
  }

  lemma OtherStep(t: nat, pc: Pc, env: Env, op: Op, u: nat, other: Pc)
    requires Enabled(pc, env, op) && TableOk(env) && CallOk(t, pc, env) && CallOk(u, other, env) && t != u
    requires InFlight(pc) && InFlight(other) ==> pc.generation != other.generation
    ensures var (pc', env') := Act(t, pc, env, op);
            CallOk(u, other, env') && (InFlight(pc') && InFlight(other) ==> pc'.generation != other.generation)
  {
  }

  lemma AccountStep(t: nat, pc: Pc, env: Env, op: Op, run: nat, holder: Pc)
    requires Enabled(pc, env, op) && TableOk(env) && CallOk(t, pc, env)
    requires run in env.home && Accounted(env, run, holder) && (env.home[run].call == t ==> holder == pc)
    ensures var (pc', env') := Act(t, pc, env, op);
            run in env'.home && Accounted(env', run, if env.home[run].call == t then pc' else holder)
  {
  }

  ghost predicate CallsOk(s: System) {
    && (forall t: nat :: CallOk(t, At(s, t), s.env))
    && (forall t: nat, u: nat :: t != u && InFlight(At(s, t)) && InFlight(At(s, u)) ==>
          At(s, t).generation != At(s, u).generation)
  }

  ghost predicate NoLeak(s: System) {
    forall run :: run in s.env.home ==> Accounted(s.env, run, At(s, s.env.home[run].call))
  }

  ghost predicate Inv(s: System) { TableOk(s.env) && CallsOk(s) && NoLeak(s) }

  ghost predicate Init(s: System) {
    s.calls == map[] && s.env == Env(Table(map[], map[], 0, false), map[], {}, {}, {}, {})
  }

  lemma StepKeepsInv(s: System, step: Step)
    requires Inv(s) && Enabled(At(s, step.t), s.env, step.op)
    ensures Inv(Apply(s, step))
  {
    var s' := Apply(s, step);
    var t, pc := step.t, At(s, step.t);
    OwnStepKeepsTable(t, pc, s.env, step.op);
    OwnStepKeepsCall(t, pc, s.env, step.op);
    forall u: nat | u != t
      ensures At(s', u) == At(s, u) && CallOk(u, At(s', u), s'.env)
      ensures InFlight(At(s', t)) && InFlight(At(s', u)) ==> At(s', t).generation != At(s', u).generation
    {
      OtherStep(t, pc, s.env, step.op, u, At(s, u));
    }
    forall run | run in s'.env.home
      ensures Accounted(s'.env, run, At(s', s'.env.home[run].call))
    {
      if run in s.env.home {
        AccountStep(t, pc, s.env, step.op, run, At(s, s.env.home[run].call));
      }
    }
  }

  predicate EnabledRun(s: System, steps: seq<Step>)
    decreases |steps|
  {
    steps == [] || (Enabled(At(s, steps[0].t), s.env, steps[0].op) && EnabledRun(Apply(s, steps[0]), steps[1..]))
  }

  function RunSteps(s: System, steps: seq<Step>): System
    requires EnabledRun(s, steps)
    decreases |steps|
  {
    if steps == [] then s else RunSteps(Apply(s, steps[0]), steps[1..])
  }

  lemma {:induction false} RunKeepsInv(s: System, steps: seq<Step>)
    requires Inv(s) && EnabledRun(s, steps)
    ensures Inv(RunSteps(s, steps))
    decreases |steps|
  {
    if steps == [] {
    } else {
      StepKeepsInv(s, steps[0]);
      RunKeepsInv(Apply(s, steps[0]), steps[1..]);
    }
  }

  /**
   * In every reachable state: a status of running or reconnecting belongs to a published entry with
   * a handle, and every handle whose Start succeeded is published as the current generation, had
   * Stop invoked on it, ended, or is held by the call that started it.
   */
  lemma NoGhostAndNoLeakedRun(start: System, steps: seq<Step>, id: int, run: nat)
    requires Init(start) && EnabledRun(start, steps)
    ensures NoGhost(RunSteps(start, steps).env.tab, id)
    ensures var s := RunSteps(start, steps);
            run in s.env.home ==> Accounted(s.env, run, At(s, s.env.home[run].call))
  {
    RunKeepsInv(start, steps);
  }

  /** Whatever a watcher, finisher, stopper or shutdown worker of a replaced generation does, the table stays. */
  lemma StaleActorsChangeNothing(t: nat, pc: Pc, env: Env, op: Op, run: nat)
    requires Enabled(pc, env, op) && run in env.home
    requires !IsCurrent(env.tab, env.home[run].id, env.home[run].generation, run)
    requires match op
             case ShutdownEnd(r, _) => r == run
             case WatchEvent(r, _) => r == run
             case WatchDone(r, _) => r == run
             case FinishEnd(r) => r == run
             case StopEnd(_) => pc.run == run && env.home[run].id == pc.id && env.home[run].generation == pc.generation
             case _ => false
    ensures Act(t, pc, env, op).1.tab == env.tab
  {
  }

  // ---------- Suspend, then resume ----------

  /** A suspended generation is gone, still stopping, or replaced by a newer one. */
  predicate StaysSuspended(tab: Table, id: int, generation: nat) {
    && generation <= tab.nextGeneration
    && (id in tab.runs ==>
          tab.runs[id].generation > generation
          || (tab.runs[id].generation == generation && tab.runs[id].phase.Stopping?))
  }

  lemma StepKeepsSuspended(t: nat, pc: Pc, env: Env, op: Op, id: int, generation: nat)
    requires Enabled(pc, env, op) && StaysSuspended(env.tab, id, generation)
    ensures StaysSuspended(Act(t, pc, env, op).1.tab, id, generation)
  {
  }

  lemma {:induction false} RunKeepsSuspended(s: System, steps: seq<Step>, id: int, generation: nat)
    requires EnabledRun(s, steps) && StaysSuspended(s.env.tab, id, generation)
    ensures StaysSuspended(RunSteps(s, steps).env.tab, id, generation)
    decreases |steps|
  {
    if steps == [] {
    } else {
      StepKeepsSuspended(steps[0].t, At(s, steps[0].t), s.env, steps[0].op, id, generation);
      RunKeepsSuspended(Apply(s, steps[0]), steps[1..], id, generation);
    }
  }

  /**
   * After a suspension, under any concurrent starts, stops, dials and events: a start of a suspended
   * forward that succeeds, whether it finds a run there, reserves one, or publishes its own, is
   * backed by a generation newer than the suspended one.
   */
  lemma ResumedRunsAreNewer(s: System, ids: set<int>, t: nat, steps: seq<Step>, id: int)
    requires Inv(s) && At(s, t).Idle?
    requires id in SuspendPlan(s.env.tab, ids)
    requires EnabledRun(Apply(s, Step(t, SuspendBegin(ids))), steps)
    ensures var captured := SuspendPlan(s.env.tab, ids)[id];
            var tab := RunSteps(Apply(s, Step(t, SuspendBegin(ids))), steps).env.tab;
            && (Reserve(tab, id).1.AlreadyThere? ==> tab.runs[id].generation > captured)
            && (Reserve(tab, id).1.Reserved? ==> Reserve(tab, id).1.generation > captured)
            && (forall g: nat :: CanPublish(tab, id, g) ==> g > captured)
  {
    var suspended := Apply(s, Step(t, SuspendBegin(ids)));
    assert EntryOk(s.env, id);
    RunKeepsSuspended(suspended, steps, id, SuspendPlan(s.env.tab, ids)[id]);
  }

  // ---------- What runs is alive, and is reported so ----------

  /** An entry that is not stopping has a handle that neither ended nor was told to stop, and says so. */
  predicate AliveEntry(env: Env, id: int)
    requires id in env.tab.runs
  {
    var e := env.tab.runs[id];
    && (env.tab.closing ==> e.phase.Stopping?)
    && (e.run.Some? && !e.phase.Stopping? ==> e.run.value !in env.stopped && e.run.value !in env.finished)
    && (e.run.Some? ==> e.run.value !in env.down)
    && (e.phase.Running? ==> id in env.tab.states && Live(env.tab.states[id]))
  }

  /** A start holds a handle nobody knows yet; what is being stopped cannot come back. */
  ghost predicate AliveCall(pc: Pc, env: Env) {
    match pc
    case Dialed(_, _, run) => run !in env.published && run !in env.stopped && run !in env.finished
    case Abandoning(_, _, run) => run !in env.published
    case Stopper(id, generation, run) =>
      && StaysSuspended(env.tab, id, generation)
      && run in env.home && env.home[run].id == id && env.home[run].generation == generation && run in env.published
      && (id in env.tab.runs && env.tab.runs[id].generation == generation ==> env.tab.runs[id].run == Some(run))
    case Suspending(plan) => forall id :: id in plan ==> StaysSuspended(env.tab, id, plan[id])
    case _ => true
  }

  ghost predicate AliveEnv(env: Env) {
    && env.published <= env.home.Keys && env.stopped <= env.home.Keys && env.finished <= env.home.Keys
    && env.down <= env.stopped
    && (forall id :: id in env.tab.runs ==> AliveEntry(env, id))
  }

  ghost predicate Alive(s: System) { AliveEnv(s.env) && forall t: nat :: AliveCall(At(s, t), s.env) }

  lemma AliveEntryStep(t: nat, pc: Pc, env: Env, op: Op, id: int)
    requires Enabled(pc, env, op) && TableOk(env) && CallOk(t, pc, env) && AliveEnv(env) && AliveCall(pc, env)
    requires id in Act(t, pc, env, op).1.tab.runs
    ensures AliveEntry(Act(t, pc, env, op).1, id)
  {
    if id in env.tab.runs { assert EntryOk(env, id) && AliveEntry(env, id); }
  }

  lemma AliveEnvStep(t: nat, pc: Pc, env: Env, op: Op)
    requires Enabled(pc, env, op) && TableOk(env) && CallOk(t, pc, env) && AliveEnv(env) && AliveCall(pc, env)
    ensures AliveEnv(Act(t, pc, env, op).1)
  {
    var next := Act(t, pc, env, op).1;
    HandlesAreKnown(t, pc, env, op);
    hide Act, Enabled, AliveEntry, TableOk, CallOk;
    forall id | id in next.tab.runs ensures AliveEntry(next, id) { AliveEntryStep(t, pc, env, op, id); }
  }

  lemma HandlesAreKnown(t: nat, pc: Pc, env: Env, op: Op)
    requires Enabled(pc, env, op) && TableOk(env) && CallOk(t, pc, env) && AliveEnv(env) && AliveCall(pc, env)
    ensures var next := Act(t, pc, env, op).1;
      && next.published <= next.home.Keys && next.stopped <= next.home.Keys && next.finished <= next.home.Keys
      && next.down <= next.stopped
  {
    if op.SuspendEnd? && op.id in env.tab.runs { assert EntryOk(env, op.id); }
  }

  lemma OwnCallStaysAlive(t: nat, pc: Pc, env: Env, op: Op)
    requires Enabled(pc, env, op) && TableOk(env) && CallOk(t, pc, env) && AliveEnv(env) && AliveCall(pc, env)
    ensures var (pc', env') := Act(t, pc, env, op); AliveCall(pc', env')
  {
    var (pc', env') := Act(t, pc, env, op);
    if pc'.Suspending? {
      forall id | id in pc'.plan ensures StaysSuspended(env'.tab, id, pc'.plan[id]) {
        if op.SuspendBegin? { assert EntryOk(env, id); } else { StepKeepsSuspended(t, pc, env, op, id, pc.plan[id]); }
      }
    } else if pc'.Stopper? {
      if op.StopBegin? { assert EntryOk(env, pc'.id); } else { StepKeepsSuspended(t, pc, env, op, pc.id, pc.generation); }
    }
  }

  lemma OtherCallStaysAlive(t: nat, pc: Pc, env: Env, op: Op, u: nat, other: Pc)
    requires Enabled(pc, env, op) && TableOk(env) && CallOk(t, pc, env) && AliveEnv(env) && AliveCall(pc, env)
    requires CallOk(u, other, env) && AliveCall(other, env) && t != u
    ensures AliveCall(other, Act(t, pc, env, op).1)
  {
    match other {
      case Stopper(id, generation, _) => StepKeepsSuspended(t, pc, env, op, id, generation);
      case Suspending(plan) =>
        forall id | id in plan ensures StaysSuspended(Act(t, pc, env, op).1.tab, id, plan[id]) {
          StepKeepsSuspended(t, pc, env, op, id, plan[id]);
        }
      case Dialed(_, _, run) => OthersLeaveHandle(t, pc, env, op, run);
      case Abandoning(_, _, run) => OthersLeaveHandle(t, pc, env, op, run);
      case _ =>
    }
  }

  /** A handle that only its own start knows is neither published, stopped nor ended by anybody else. */
  lemma OthersLeaveHandle(t: nat, pc: Pc, env: Env, op: Op, run: nat)
    requires Enabled(pc, env, op) && TableOk(env) && CallOk(t, pc, env) && AliveCall(pc, env)
    requires run in env.home && env.home[run].call != t && run !in env.published
    ensures var next := Act(t, pc, env, op).1;
      && run !in next.published
      && (run in next.stopped ==> run in env.stopped) && (run in next.finished ==> run in env.finished)
  {
    if op.SuspendEnd? && op.id in env.tab.runs { assert EntryOk(env, op.id); }
  }

  lemma StepStaysAlive(s: System, step: Step)
    requires Inv(s) && Alive(s) && Enabled(At(s, step.t), s.env, step.op)
    ensures Alive(Apply(s, step))
  {
    var s', t, pc := Apply(s, step), step.t, At(s, step.t);
    AliveEnvStep(t, pc, s.env, step.op);
    OwnCallStaysAlive(t, pc, s.env, step.op);
    forall u: nat | u != t ensures At(s', u) == At(s, u) && AliveCall(At(s', u), s'.env) {
      OtherCallStaysAlive(t, pc, s.env, step.op, u, At(s, u));
    }
  }

  lemma {:induction false} RunStaysAlive(s: System, steps: seq<Step>)
    requires Inv(s) && Alive(s) && EnabledRun(s, steps)
    ensures Inv(RunSteps(s, steps)) && Alive(RunSteps(s, steps))
    decreases |steps|
  {
    if steps == [] {
    } else {
      StepKeepsInv(s, steps[0]);
      StepStaysAlive(s, steps[0]);
      RunStaysAlive(Apply(s, steps[0]), steps[1..]);
    }
  }

  /**
   * In every reachable state: a handle that ended or was told to stop is current only in an entry that is
   * stopping, one that has stopped is not current at all, a running entry is reported as running or reconnecting,
   * and while closing every entry is stopping.
   */
  lemma EndedHandlesAreRetired(start: System, steps: seq<Step>, id: int)
    requires Init(start) && EnabledRun(start, steps) && id in RunSteps(start, steps).env.tab.runs
    ensures var env := RunSteps(start, steps).env;
      var e := env.tab.runs[id];
      && (e.run.Some? && e.run.value in env.finished + env.stopped ==> e.phase.Stopping?)
      && (e.run.Some? ==> e.run.value !in env.down)
      && (e.phase.Running? ==> id in env.tab.states && Live(env.tab.states[id]))
      && (env.tab.closing ==> e.phase.Stopping?)
  {
    RunStaysAlive(start, steps);
    assert AliveEntry(RunSteps(start, steps).env, id);
  }

  /** The end of a current run nobody is stopping: its entry goes, and how it ended is what is reported. */
  lemma EndOfACurrentRun(t: nat, pc: Pc, env: Env, run: nat, ok: bool)
    requires Enabled(pc, env, WatchDone(run, ok))
    requires var h := env.home[run]; IsCurrent(env.tab, h.id, h.generation, run) && !env.tab.runs[h.id].phase.Stopping?
    ensures var id, next := env.home[run].id, Act(t, pc, env, WatchDone(run, ok)).1.tab;
      && next.runs.Keys == env.tab.runs.Keys - {id}
      && (forall other :: other in next.runs ==> next.runs[other] == env.tab.runs[other])
      && next.states == env.tab.states[id := if ok then StatusStopped else StatusError]
  {
  }

  // ---------- Nothing is left behind ----------

  /** The start that works on this generation. */
  predicate StartsIt(pc: Pc, id: int, generation: nat) { InFlight(pc) && pc.id == id && pc.generation == generation }

  /** The stop or suspension that has this generation still to settle. */
  predicate StopsIt(pc: Pc, id: int, generation: nat) {
    || (pc.Stopper? && pc.id == id && pc.generation == generation)
    || (pc.Suspending? && id in pc.plan && pc.plan[id] == generation)
  }

  /**
   * Somebody is at work on every entry that is not running: on one without a handle the start that reserved it,
   * on a stopping one with a handle whoever is to stop that, unless it was told to stop or the runtime is closing.
   */
  predicate Served(env: Env, id: int, pc: Pc)
    requires id in env.tab.runs
  {
    var e := env.tab.runs[id];
    && (e.run.None? ==> StartsIt(pc, id, e.generation))
    && (e.run.Some? && e.phase.Stopping? && e.run.value !in env.stopped && !env.tab.closing ==> StopsIt(pc, id, e.generation))
  }

  ghost predicate AllServed(s: System) {
    forall id :: id in s.env.tab.runs ==> exists t: nat :: Served(s.env, id, At(s, t))
  }

  /** A step passes the work on: the entry's helper goes on, the acting call takes it over, or nobody is needed. */
  lemma ServedStep(t: nat, pc: Pc, env: Env, op: Op, id: int, helper: Pc, own: bool)
    requires Enabled(pc, env, op) && TableOk(env) && CallOk(t, pc, env) && AliveEnv(env) && AliveCall(pc, env)
    requires id in Act(t, pc, env, op).1.tab.runs && (id in env.tab.runs ==> Served(env, id, helper))
    requires own ==> helper == pc
    ensures var (pc', env') := Act(t, pc, env, op);
      Served(env', id, if own then pc' else helper) || Served(env', id, pc')
  {
    if id in env.tab.runs { assert EntryOk(env, id) && AliveEntry(env, id); }
  }

  lemma StepServes(s: System, step: Step)
    requires Inv(s) && Alive(s) && AllServed(s) && Enabled(At(s, step.t), s.env, step.op)
    ensures AllServed(Apply(s, step))
  {
    var s', t, pc := Apply(s, step), step.t, At(s, step.t);
    assert At(s', t) == Act(t, pc, s.env, step.op).0;
    forall id | id in s'.env.tab.runs ensures exists u: nat :: Served(s'.env, id, At(s', u)) {
      var u: nat := t;
      if id in s.env.tab.runs { u :| Served(s.env, id, At(s, u)); }
      ServedStep(t, pc, s.env, step.op, id, At(s, u), u == t);
      assert u != t ==> At(s', u) == At(s, u);
      assert Served(s'.env, id, At(s', u)) || Served(s'.env, id, At(s', t));
    }
  }

  lemma {:induction false} RunServes(s: System, steps: seq<Step>)
    requires Inv(s) && Alive(s) && AllServed(s) && EnabledRun(s, steps)
    ensures AllServed(RunSteps(s, steps))
    decreases |steps|
  {
    if steps == [] {
    } else {
      StepKeepsInv(s, steps[0]);
      StepStaysAlive(s, steps[0]);
      StepServes(s, steps[0]);
      RunServes(Apply(s, steps[0]), steps[1..]);
    }
  }

  /**
   * In every reachable state every entry is running, or worked on, or its handle was told to stop. So once all
   * calls have returned and nothing is closing, an entry is running or has a handle that was told to stop.
   */
  lemma NothingIsLeftBehind(start: System, steps: seq<Step>, id: int)
    requires Init(start) && EnabledRun(start, steps) && id in RunSteps(start, steps).env.tab.runs
    ensures exists t: nat :: Served(RunSteps(start, steps).env, id, At(RunSteps(start, steps), t))
    ensures var s := RunSteps(start, steps);
      var e := s.env.tab.runs[id];
      (forall t: nat :: At(s, t).Idle?) && !s.env.tab.closing ==>
        e.run.Some? && (e.phase.Running? || e.run.value in s.env.stopped)
  {
    RunStaysAlive(start, steps);
    RunServes(start, steps);
    assert EntryOk(RunSteps(start, steps).env, id);
  }

  /** A run of steps is followed step by step. */
  lemma {:induction false} OneStepMore(s: System, steps: seq<Step>, step: Step)
    requires EnabledRun(s, steps) && Enabled(At(RunSteps(s, steps), step.t), RunSteps(s, steps).env, step.op)
    ensures EnabledRun(s, steps + [step]) && RunSteps(s, steps + [step]) == Apply(RunSteps(s, steps), step)
    decreases |steps|
  {
    if steps == [] {
      var all := steps + [step];
      assert all[0] == step && all[1..] == [];
      assert RunSteps(s, steps) == s && RunSteps(Apply(s, step), []) == Apply(s, step);
      assert EnabledRun(s, all);
      assert RunSteps(s, all) == RunSteps(Apply(s, step), []);
    } else {
      assert (steps + [step])[1..] == steps[1..] + [step];
      OneStepMore(Apply(s, steps[0]), steps[1..], step);
    }
  }

  /** A step moves the call that takes it, and no other. */
  lemma StepMovesItsCall(s: System, step: Step, u: nat)
    requires Enabled(At(s, step.t), s.env, step.op)
    ensures At(Apply(s, step), u) == if u == step.t then Act(step.t, At(s, step.t), s.env, step.op).0 else At(s, u)
  {
  }

  // ---------- What calls achieve when nobody interferes ----------

  /** A start whose dial succeeds ends with the forward running and reported so; one whose dial fails, with an error. */
  lemma UndisturbedStart(t: nat, env: Env, id: int, run: nat)
    requires id !in env.tab.runs && !env.tab.closing && run !in env.home
    ensures var (dialing, reserved) := Act(t, Idle, env, StartBegin(id));
      && Enabled(dialing, reserved, DialOk(run)) && Enabled(dialing, reserved, DialFails)
      && var (dialed, started) := Act(t, dialing, reserved, DialOk(run));
         && Enabled(dialed, started, StartEnd)
         && var g := env.tab.nextGeneration + 1;
            && Act(t, dialed, started, StartEnd)
               == (Idle, env.(tab := Table(env.tab.runs[id := Entry(g, Running, Some(run))],
                                           env.tab.states[id := StatusRunning], g, false),
                              home := env.home[run := Home(id, g, t)], published := env.published + {run}))
            && Act(t, dialing, reserved, DialFails)
               == (Idle, env.(tab := Table(env.tab.runs, env.tab.states[id := StatusError], g, false)))
  {
    var g := env.tab.nextGeneration + 1;
    var (dialing, reserved) := Act(t, Idle, env, StartBegin(id));
    var (dialed, started) := Act(t, dialing, reserved, DialOk(run));
    var (_, next) := Act(t, dialed, started, StartEnd);
    assert next.tab.runs == env.tab.runs[id := Entry(g, Running, Some(run))];
    var (_, failed) := Act(t, dialing, reserved, DialFails);
    assert failed.tab.runs == env.tab.runs;
  }

  /** A stop that succeeds removes the forward; one that does not leaves it stopping, with an error. */
  lemma UndisturbedStop(t: nat, env: Env, id: int, ok: bool)
    requires id in env.tab.runs && !env.tab.runs[id].phase.Stopping? && env.tab.runs[id].run.Some?
    ensures var e := env.tab.runs[id];
      var (stopper, marked) := Act(t, Idle, env, StopBegin(id));
      && stopper == Stopper(id, e.generation, e.run.value) && Enabled(stopper, marked, StopEnd(ok))
      && var (pc, next) := Act(t, stopper, marked, StopEnd(ok));
         && pc == Idle && next.stopped == env.stopped + {e.run.value}
         && next.tab == env.tab.(runs := if ok then env.tab.runs - {id} else env.tab.runs[id := e.(phase := Stopping)],
                                 states := env.tab.states[id := if ok then StatusStopped else StatusError])
  {
  }

  /** A start stopped while it dials does not publish: it stops its handle itself and leaves nothing. */
  lemma StoppedWhileDialing(t: nat, u: nat, env: Env, id: int, run: nat, ok: bool)
    requires id !in env.tab.runs && !env.tab.closing && run !in env.home.Keys + env.published && t != u
    ensures var (dialing, reserved) := Act(t, Idle, env, StartBegin(id));
      var (idle, marked) := Act(u, Idle, reserved, StopBegin(id));
      && idle == Idle && Enabled(dialing, marked, DialOk(run))
      && var (dialed, started) := Act(t, dialing, marked, DialOk(run));
         && Enabled(dialed, started, StartEnd)
         && var (abandoning, refused) := Act(t, dialed, started, StartEnd);
            && Enabled(abandoning, refused, AbandonEnd(ok))
            && var (pc, next) := Act(t, abandoning, refused, AbandonEnd(ok));
               && pc == Idle && run in next.stopped && run !in next.published
               && next.tab.runs == env.tab.runs && next.tab.states == env.tab.states[id := Outcome(ok)]
  {
    var (dialing, reserved) := Act(t, Idle, env, StartBegin(id));
    var (idle, marked) := Act(u, Idle, reserved, StopBegin(id));
    assert idle == Idle && marked.tab.runs[id] == Entry(dialing.generation, Stopping, None);
    var (dialed, started) := Act(t, dialing, marked, DialOk(run));
    assert started.tab == marked.tab && marked.tab.runs - {id} == env.tab.runs;
    var (abandoning, refused) := Act(t, dialed, started, StartEnd);
    assert refused == started;
    assert abandoning == Abandoning(id, dialing.generation, run);
    var (pc, next) := Act(t, abandoning, refused, AbandonEnd(ok));
    assert next.tab == Drop(started.tab, id, Outcome(ok));
    assert pc == Idle && run in next.stopped && run !in next.published;
    assert next.tab.runs == env.tab.runs;
  }

  /** A suspension of one forward that stops in time takes it away and returns. */
  lemma UndisturbedSuspension(t: nat, env: Env, id: int)
    requires id in env.tab.runs && !env.tab.runs[id].phase.Stopping?
    ensures var (suspending, marked) := Act(t, Idle, env, SuspendBegin({id}));
      && suspending == Suspending(map[id := env.tab.runs[id].generation]) && Enabled(suspending, marked, SuspendEnd(id, true))
      && var (rest, settled) := Act(t, suspending, marked, SuspendEnd(id, true));
         && Enabled(rest, settled, SuspendReturn) && Act(t, rest, settled, SuspendReturn) == (Idle, settled)
         && settled.tab.runs == env.tab.runs - {id} && settled.tab.states == env.tab.states[id := StatusStopped]
         && settled.stopped == env.stopped + (if env.tab.runs[id].run.Some? then {env.tab.runs[id].run.value} else {})
  {
    assert SuspendPlan(env.tab, {id}) == map[id := env.tab.runs[id].generation];
    var (suspending, marked) := Act(t, Idle, env, SuspendBegin({id}));
    assert marked.tab.runs[id].generation == env.tab.runs[id].generation && marked.tab.runs[id].run == env.tab.runs[id].run;
    var (rest, settled) := Act(t, suspending, marked, SuspendEnd(id, true));
    assert SuspendPlan(env.tab, {id}) == map[id := env.tab.runs[id].generation];
    assert rest == Suspending(map[]);
    assert settled.tab == Drop(marked.tab, id, StatusStopped);
    assert marked.tab.runs - {id} == env.tab.runs - {id};
  }

  /** A shutdown closes, marks everything, and its workers remove what stops. */
  lemma UndisturbedShutdown(t: nat, pc: Pc, env: Env, run: nat, ok: bool)
    requires TableOk(env) && run in env.published && run in env.home
    requires IsCurrent(env.tab, env.home[run].id, env.home[run].generation, run)
    ensures var id := env.home[run].id;
      var (_, closed) := Act(t, pc, env, ShutdownBegin);
      && closed.tab.closing && (forall other :: other in closed.tab.runs ==> closed.tab.runs[other].phase.Stopping?)
      && Enabled(pc, closed, ShutdownEnd(run, ok))
      && var (_, next) := Act(t, pc, closed, ShutdownEnd(run, ok));
         && (id in next.tab.runs <==> !ok) && id in next.tab.states && next.tab.states[id] == Outcome(ok)
         && run in next.stopped
  {
  }

  /** What watchers report of a current run is what is shown; a late stop of one removes it. */
  lemma CurrentRunIsReported(t: nat, pc: Pc, env: Env, run: nat, up: bool)
    requires run in env.published && run in env.home
    requires IsCurrent(env.tab, env.home[run].id, env.home[run].generation, run)
    ensures var id := env.home[run].id;
      && Act(t, pc, env, WatchEvent(run, up)).1.tab
         == env.tab.(states := env.tab.states[id := if up then StatusRunning else StatusReconnecting])
      && Act(t, pc, env, FinishEnd(run)).1.tab
         == env.tab.(runs := env.tab.runs - {id}, states := env.tab.states[id := StatusStopped])
  {
  }
}
