/**
 * The durable half of a full restore: what is on disk, which single atomic writes the
 * transaction may perform, and why every state such writes can leave behind is one that
 * startup recovery decides correctly. A crash is "no further write", so a statement about
 * every prefix of a write log is a statement about every crash point.
 */
module RestoreProtocol {
  import opened Common
  import RouteSteps

  datatype Phase =
    | Planned
    | CandidatePrepared
    | RuntimeSuspending
    | RuntimeSuspended
    | RoutesNeutralized
    | ReplacingVault
    | VaultReplaced
    | Quarantined
    | UnknownPhase(name: string)

  predicate Known(p: Phase) { !p.UnknownPhase? }

  /** restorePhaseOrder; an unknown phase has the zero value of a missing map key. */
  function Order(p: Phase): nat {
    match p
    case Planned => 1
    case CandidatePrepared => 2
    case RuntimeSuspending => 3
    case RuntimeSuspended => 4
    case RoutesNeutralized => 5
    case ReplacingVault => 6
    case VaultReplaced => 7
    case Quarantined => 8
    case UnknownPhase(_) => 0
  }

  /** A vault file: the digest of its sealed bytes and the public revision of its content. */
  datatype VaultFile = VaultFile(storage: nat, catalog: nat)

  datatype Facts = Facts(vault: Option<nat>, runtime: nat, route: nat)

  datatype Journal = Journal(
    tx: Option<nat>,
    before: Facts,
    beforeStorage: Option<nat>,
    phase: Phase,
    candidate: Option<nat>,
    running: seq<int>,
    routesNeutralized: bool,
    vaultReplaced: bool)

  /** The live vault, the next unused file digest, and how many writes bypassed the mutation gate. */
  datatype LiveVault = LiveVault(vault: VaultFile, nextSeal: nat, drift: nat)

  /**
   * Everything that survives a crash, and with `routes` the router, whose Caddy process and place in an operation
   * do not. Three fields are history, kept only to state properties:
   * `replaced` says the current journal's transaction has renamed its candidate over the vault,
   * `isolated` that the live vault came from a restore nobody activated yet, and `drift` counts
   * the vault writes that bypass the mutation gate. No two sealed files have the same digest,
   * because each sealing draws a fresh nonce.
   */
  datatype Disk = Disk(
    live: LiveVault,
    candidates: map<nat, VaultFile>,
    journal: Option<Journal>,
    quarantined: bool,
    routes: RouteSteps.Router,
    replaced: bool,
    isolated: bool)

  /** One atomic durable write, or one step of the router, a crash among them. */
  datatype Write =
    | UngatedWrite(catalog: nat)
    | SealCandidate(id: nat, catalog: nat)
    | DropCandidate(id: nat)
    | SaveJournal(j: Journal)
    | RenameCandidate(id: nat)
    | SetQuarantine(on: bool)
    | RemoveJournal
    | RouteStep(step: RouteSteps.Step)

  function Perform(d: Disk, w: Write): Disk {
    match w
    case UngatedWrite(catalog) =>
      d.(live := LiveVault(VaultFile(d.live.nextSeal, catalog), d.live.nextSeal + 1, d.live.drift + 1))
    case SealCandidate(id, catalog) =>
      d.(candidates := d.candidates[id := VaultFile(d.live.nextSeal, catalog)],
          live := d.live.(nextSeal := d.live.nextSeal + 1))
    case DropCandidate(id) => d.(candidates := d.candidates - {id})
    case SaveJournal(j) => d.(journal := Some(j), replaced := if j.phase.Planned? then false else d.replaced)
    case RenameCandidate(id) =>
      if id in d.candidates then
        d.(live := d.live.(vault := d.candidates[id]), candidates := d.candidates - {id}, replaced := true, isolated := true)
      else d
    case SetQuarantine(on) =>
      // Only an activation, which runs without a journal, ends the isolation of a restored vault.
      d.(quarantined := on, isolated := if !on && d.journal.None? then false else d.isolated)
    case RemoveJournal => d.(journal := None)
    case RouteStep(step) => if RouteSteps.Enabled(d.routes, step) then d.(routes := RouteSteps.Next(d.routes, step)) else d
  }

  /** The router is at rest and everything it manages is undone. */
  predicate RoutesNeutral(d: Disk) { d.routes.task.Idle? && RouteSteps.Neutral(d.routes.m) }

  predicate CandidateGone(d: Disk, j: Journal) {
    j.candidate.Some? ==> j.candidate.value !in d.candidates
  }

  /** A new transaction's first record; nothing requires that an older record is gone. */
  predicate Planning(d: Disk, j: Journal) {
    && j.phase.Planned? && j.tx.Some? && j.candidate.None? && !j.routesNeutralized && !j.vaultReplaced
    && j.beforeStorage.Some? && j.beforeStorage.value < d.live.nextSeal
  }

  /** The transaction's next record: one phase on, each phase with the fact it promises. */
  predicate Advancing(d: Disk, j: Journal) {
    && d.journal.Some?
    && var was := d.journal.value;
    && Known(was.phase) && was.beforeStorage.Some? && Order(j.phase) == Order(was.phase) + 1
    && match j.phase
       case CandidatePrepared =>
         && !d.replaced && j.candidate.Some? && j.candidate.value in d.candidates
         && was.beforeStorage.value < d.candidates[j.candidate.value].storage
         && j == was.(phase := j.phase, candidate := j.candidate)
       case RuntimeSuspending => !d.replaced && j == was.(phase := j.phase)
       case RuntimeSuspended => !d.replaced && j == was.(phase := j.phase, running := j.running)
       case RoutesNeutralized =>
         !d.replaced && RoutesNeutral(d) && j == was.(phase := j.phase, routesNeutralized := true)
       case ReplacingVault => !d.replaced && RoutesNeutral(d) && j == was.(phase := j.phase)
       case VaultReplaced => d.replaced && j == was.(phase := j.phase, vaultReplaced := true)
       case Quarantined => d.quarantined && j == was.(phase := j.phase)
       case _ => false
  }

  /** Recovery of the old vault crosses started forwards off the record, first ones first. */
  predicate Checkpointing(d: Disk, j: Journal) {
    && d.journal.Some? && !d.replaced && 3 <= Order(j.phase)
    && var was := d.journal.value;
    && |was.running| > 0
    && j == was.(running := was.running[1..])
  }

  /** The write discipline of restore, recovery and activation. */
  predicate Allowed(d: Disk, w: Write) {
    match w
    case UngatedWrite(_) => true
    case SealCandidate(id, _) => id !in d.candidates
    case DropCandidate(_) => true
    case SaveJournal(j) => Planning(d, j) || Advancing(d, j) || Checkpointing(d, j)
    case RenameCandidate(id) =>
      && d.journal.Some? && d.journal.value.phase.ReplacingVault? && !d.replaced && RoutesNeutral(d)
      && d.journal.value.candidate == Some(id) && id in d.candidates && d.journal.value.beforeStorage.Some?
    case SetQuarantine(on) =>
      if on then d.journal.Some?
      else
        && d.routes.task.Idle?
        && if d.journal.Some? then !d.replaced else d.quarantined && !d.routes.m.state.status.Quarantined?
    case RemoveJournal =>
      && d.journal.Some? && CandidateGone(d, d.journal.value) && d.routes.task.Idle?
      && (d.replaced ==> d.quarantined && RoutesNeutral(d))
    case RouteStep(step) =>
      && RouteSteps.Enabled(d.routes, step)
      && (step.BeginApply? ==> !(d.journal.Some? && d.replaced))
      && (step.BeginNeutralize? ==> d.journal.Some? || d.quarantined)
      && (step.Resume? ==> d.journal.None? && !d.quarantined)
  }

  /**
   * What a readable journal says about the vault beside it: before `replacing_vault` the vault is
   * the old one, after it the candidate; and once the candidate is live the recorded digest cannot
   * be the live one. A journal of an older release (no digest) is covered unless it stands at
   * `replacing_vault` with the rename done and a known public revision.
   */
  predicate Truthful(d: Disk, j: Journal) {
    && (Order(j.phase) < 6 ==> !d.replaced)
    && (Order(j.phase) > 6 ==> d.replaced)
    && (j.vaultReplaced ==> Order(j.phase) > 6)
    && (j.phase.Quarantined? ==> d.quarantined)
    && (d.replaced ==> !d.routes.task.Applying? && RouteSteps.Neutral(d.routes.m))
    && (match j.beforeStorage
        case Some(b) =>
          && b < d.live.nextSeal
          && (d.replaced ==> b < d.live.vault.storage)
          && (j.candidate.Some? && j.candidate.value in d.candidates ==> b < d.candidates[j.candidate.value].storage)
        case None => d.replaced && j.phase.ReplacingVault? ==> j.before.vault.None?)
  }

  predicate CrashSafe(d: Disk) {
    && RouteSteps.Inv(d.routes)
    && d.live.vault.storage < d.live.nextSeal
    && (forall id :: id in d.candidates ==> d.candidates[id].storage < d.live.nextSeal)
    && (d.journal.Some? && Known(d.journal.value.phase) ==> Truthful(d, d.journal.value))
  }

  /** Neutralizing what is neutral leaves it neutral. */
  lemma NeutralStays(r: RouteSteps.Router, step: RouteSteps.Step)
    requires RouteSteps.Enabled(r, step) && RouteSteps.Neutral(r.m) && !r.task.Applying?
    requires step.Reply? || step.BeginNeutralize? || step.Crash?
    ensures var next := RouteSteps.Next(r, step); !next.task.Applying? && RouteSteps.Neutral(next.m)
  {
  }

  lemma RouteStepKeepsCrashSafe(d: Disk, step: RouteSteps.Step)
    requires CrashSafe(d) && Allowed(d, RouteStep(step))
    ensures CrashSafe(Perform(d, RouteStep(step)))
  {
    hide RouteSteps.Inv, RouteSteps.Next;
    RouteSteps.StepKeepsInv(d.routes, step);
    if d.journal.Some? && d.replaced && Known(d.journal.value.phase) { NeutralStays(d.routes, step); }
  }

  lemma WriteKeepsCrashSafe(d: Disk, w: Write)
    requires CrashSafe(d) && Allowed(d, w)
    ensures CrashSafe(Perform(d, w))
  {
    hide RouteSteps.Inv, RouteSteps.Next, RouteSteps.Enabled;
    if w.RouteStep? { RouteStepKeepsCrashSafe(d, w.step); }
  }

  /** The disk after a log of writes. */
  function Run(boot: Disk, writes: seq<Write>): Disk
    decreases |writes|
  {
    if writes == [] then boot else Perform(Run(boot, writes[..|writes| - 1]), writes[|writes| - 1])
  }

  predicate AllowedRun(boot: Disk, writes: seq<Write>)
    decreases |writes|
  {
    writes == [] ||
    (var before := writes[..|writes| - 1];
     AllowedRun(boot, before) && Allowed(Run(boot, before), writes[|writes| - 1]))
  }

  /**
   * Whatever the transaction, its recovery and ungated writers do, and wherever the process dies:
   * after every prefix of the log the disk is crash safe.
   */
  lemma {:induction false} EveryCrashPointIsSafe(boot: Disk, writes: seq<Write>, crash: nat)
    requires CrashSafe(boot) && AllowedRun(boot, writes) && crash <= |writes|
    ensures CrashSafe(Run(boot, writes[..crash]))
    decreases |writes|
  {
    if writes == [] {
    } else if crash < |writes| {
      assert writes[..|writes| - 1][..crash] == writes[..crash];
      EveryCrashPointIsSafe(boot, writes[..|writes| - 1], crash);
    } else {
      var before := writes[..|writes| - 1];
      assert before[..|before|] == before && writes[..crash] == writes;
      EveryCrashPointIsSafe(boot, before, |before|);
      WriteKeepsCrashSafe(Run(boot, before), writes[|writes| - 1]);
    }
  }

  // ---------- What recovery concludes from a journal and the live vault ----------

  /** Recovery's reading of a journal: has the candidate become the live vault? */
  predicate SaysReplaced(j: Journal, live: VaultFile) {
    if j.phase.ReplacingVault? then
      match j.beforeStorage
      case Some(b) => live.storage != b
      case None => j.before.vault.None? || j.before.vault != Some(live.catalog)
    else
      j.vaultReplaced || Order(VaultReplaced) <= Order(j.phase)
  }

  /**
   * The candidate is never taken for the old vault, whatever ungated writers did meanwhile; recovery
   * reads the digest and the public revision at two moments, so the revision may be any.
   */
  lemma CandidateIsNeverTakenForOldVault(d: Disk, catalog: nat)
    requires CrashSafe(d) && d.journal.Some? && Known(d.journal.value.phase) && d.replaced
    ensures SaysReplaced(d.journal.value, VaultFile(d.live.vault.storage, catalog))
  {
  }

  /** The decision is exact except in one case: an ungated write to the old vault at `replacing_vault`. */
  lemma VerdictIsExactUnlessTheOldVaultDrifted(d: Disk)
    requires CrashSafe(d) && d.journal.Some? && Known(d.journal.value.phase) && d.journal.value.beforeStorage.Some?
    ensures var j := d.journal.value;
            (SaysReplaced(j, d.live.vault) == d.replaced)
            <==> !(j.phase.ReplacingVault? && !d.replaced && d.live.vault.storage != j.beforeStorage.value)
  {
    if d.replaced {
      CandidateIsNeverTakenForOldVault(d, d.live.vault.catalog);
    }
  }

  /**
   * A journal without a storage digest cannot tell a candidate with the old public revision from the
   * old vault: this disk satisfies every other clause, its vault is the candidate, recovery says no.
   */
  lemma LegacyJournalCanMissAReplacement()
    ensures exists d: Disk ::
      && d.journal.Some? && d.journal.value.phase.ReplacingVault? && d.journal.value.beforeStorage.None?
      && d.replaced && d.live.vault.storage < d.live.nextSeal && !SaysReplaced(d.journal.value, d.live.vault)
  {
    var j := Journal(Some(1), Facts(Some(7), 0, 0), None, ReplacingVault, Some(1), [], true, false);
    var neutral := RouteSteps.Quiet(RouteSteps.Machine([], None, false, RouteSteps.NEUTRALIZED_STATE, None));
    var d := Disk(LiveVault(VaultFile(1, 7), 2, 0), map[], Some(j), false, neutral, true, true);
    assert !SaysReplaced(d.journal.value, d.live.vault);
  }

  // ---------- Isolation is visible until it is lifted ----------

  /** What the gate reads: an isolated vault shows as quarantined or as a pending journal. */
  predicate Visible(d: Disk) { d.isolated ==> d.quarantined || d.journal.Some? }

  /** A transaction planned over a vault still isolated by an earlier restore. */
  predicate Nested(d: Disk) { d.journal.Some? && d.isolated && !d.replaced }

  /** Exactly one write can make an isolated vault look ordinary. */
  lemma VisibilityIsLostOnlyByRemovingANestedJournal(d: Disk, w: Write)
    requires CrashSafe(d) && Visible(d) && Allowed(d, w)
    requires d.journal.Some? ==> Known(d.journal.value.phase)
    ensures Visible(Perform(d, w)) <==> !(w.RemoveJournal? && Nested(d) && !d.quarantined)
  {
  }

  predicate NoNestedPlan(boot: Disk, writes: seq<Write>)
    decreases |writes|
  {
    writes == [] ||
    (var before := writes[..|writes| - 1];
     var w := writes[|writes| - 1];
     && NoNestedPlan(boot, before)
     && (w.SaveJournal? && w.j.phase.Planned? ==> !Run(boot, before).isolated))
  }

  /**
   * Over any run in which no restore is planned while an earlier one is still isolated, the gate
   * never sees an ordinary state between the rename and the activation.
   */
  lemma {:induction false} IsolationStaysVisible(boot: Disk, writes: seq<Write>)
    requires CrashSafe(boot) && Visible(boot) && !Nested(boot)
    requires boot.journal.Some? ==> Known(boot.journal.value.phase)
    requires AllowedRun(boot, writes) && NoNestedPlan(boot, writes)
    ensures var d := Run(boot, writes);
            Visible(d) && !Nested(d) && (d.journal.Some? ==> Known(d.journal.value.phase))
    decreases |writes|
  {
    if writes == [] {
    } else {
      var before := writes[..|writes| - 1];
      IsolationStaysVisible(boot, before);
      EveryCrashPointIsSafe(boot, before, |before|);
      assert before[..|before|] == before;
      VisibilityIsLostOnlyByRemovingANestedJournal(Run(boot, before), writes[|writes| - 1]);
    }
  }

  lemma OneWriteMore(boot: Disk, writes: seq<Write>, d: Disk, w: Write)
    requires AllowedRun(boot, writes) && Run(boot, writes) == d && Allowed(d, w)
    ensures AllowedRun(boot, writes + [w]) && Run(boot, writes + [w]) == Perform(d, w)
  {
    assert (writes + [w])[..|writes|] == writes;
  }

  /**
   * The other half: planning a restore over an isolated vault, dying at once and recovering is allowed
   * and leaves an isolated vault that looks ordinary.
   */
  lemma NestedRestoreCanLoseIsolation(d: Disk, j: Journal)
    requires CrashSafe(d) && d.isolated && d.journal.None? && Planning(d, j)
    ensures var writes := [SaveJournal(j), RouteStep(RouteSteps.Crash), SetQuarantine(false), RemoveJournal];
            AllowedRun(d, writes) && !Visible(Run(d, writes))
  {
    var planned := Perform(d, SaveJournal(j));
    var died := Perform(planned, RouteStep(RouteSteps.Crash));
    var cleared := Perform(died, SetQuarantine(false));
    OneWriteMore(d, [], d, SaveJournal(j));
    OneWriteMore(d, [] + [SaveJournal(j)], planned, RouteStep(RouteSteps.Crash));
    hide AllowedRun, Run, CrashSafe, Planning, RouteSteps.Inv;
    OneWriteMore(d, [] + [SaveJournal(j)] + [RouteStep(RouteSteps.Crash)], died, SetQuarantine(false));
    OneWriteMore(d, [] + [SaveJournal(j)] + [RouteStep(RouteSteps.Crash)] + [SetQuarantine(false)], cleared, RemoveJournal);
    assert [] + [SaveJournal(j)] + [RouteStep(RouteSteps.Crash)] + [SetQuarantine(false)] + [RemoveJournal]
        == [SaveJournal(j), RouteStep(RouteSteps.Crash), SetQuarantine(false), RemoveJournal];
  }

  // ---------- The recorded quarantine of the routes ----------

  /** A recorded quarantine of the routes, or one in the making, comes with one of the whole network. */
  predicate Shown(d: Disk) {
    d.routes.m.state.status.Quarantined? || d.routes.task.Neutralizing? ==> d.quarantined || d.journal.Some?
  }

  /** Exactly one write can part the two: removing the journal of a restore planned over quarantined routes. */
  lemma QuarantinesPartOnlyByRemovingANestedJournal(d: Disk, w: Write)
    requires CrashSafe(d) && Shown(d) && Allowed(d, w)
    ensures Shown(Perform(d, w)) <==> !(w.RemoveJournal? && !d.quarantined && d.routes.m.state.status.Quarantined?)
  {
    if w.RouteStep? { RecordStep(d.routes, w.step); }
  }

  /** Only neutralizing records a quarantine. */
  lemma RecordStep(r: RouteSteps.Router, step: RouteSteps.Step)
    requires RouteSteps.Inv(r) && RouteSteps.Enabled(r, step)
    ensures var next := RouteSteps.Next(r, step);
      && (next.task.Neutralizing? ==> r.task.Neutralizing? || step.BeginNeutralize?)
      && (next.m.state.status.Quarantined? ==> r.m.state.status.Quarantined? || r.task.Neutralizing?)
  {
  }

  /**
   * What the record-keeping relies on beyond the discipline: no route transaction is begun over a pending one
   * while `quarantined` is on record, and no restore is planned over quarantined routes and then forgotten.
   */
  predicate Heedful(d: Disk, w: Write) {
    match w
    case RouteStep(step) => step.BeginApply? ==> RouteSteps.Cautious(d.routes, step)
    case RemoveJournal => d.quarantined || !d.routes.m.state.status.Quarantined?
    case _ => true
  }

  predicate HeedfulRun(boot: Disk, writes: seq<Write>)
    decreases |writes|
  {
    writes == [] ||
    (var before := writes[..|writes| - 1];
     HeedfulRun(boot, before) && Heedful(Run(boot, before), writes[|writes| - 1]))
  }

  ghost predicate Trusted(d: Disk) { CrashSafe(d) && Shown(d) && RouteSteps.Trusted(d.routes) }

  lemma WriteKeepsTrust(d: Disk, w: Write)
    requires Trusted(d) && Allowed(d, w) && Heedful(d, w)
    ensures Trusted(Perform(d, w))
  {
    WriteKeepsCrashSafe(d, w);
    QuarantinesPartOnlyByRemovingANestedJournal(d, w);
    if w.RouteStep? {
      hide CrashSafe, RouteSteps.Next, RouteSteps.Inv;
      assert RouteSteps.Careful(d.routes, w.step);
      assert RouteSteps.Inv(d.routes);
      RouteSteps.StepKeepsTrust(d.routes, w.step);
    }
  }

  /** What another process finds after this one died. */
  function Died(d: Disk): Disk { Perform(d, RouteStep(RouteSteps.Crash)) }

  /**
   * Over every heedful run of restores, recoveries, activations and route changes, by any number of processes,
   * dying at any point: the routes' own record is truthful for the startup that follows.
   */
  lemma {:induction false} EveryHeedfulCrashIsTruthful(boot: Disk, writes: seq<Write>, crash: nat)
    requires Trusted(boot) && AllowedRun(boot, writes) && HeedfulRun(boot, writes) && crash <= |writes|
    ensures Trusted(Run(boot, writes[..crash])) && Trusted(Died(Run(boot, writes[..crash])))
    ensures RouteSteps.Truthful(Died(Run(boot, writes[..crash])).routes.m)
    decreases |writes|
  {
    if crash < |writes| {
      assert writes[..|writes| - 1][..crash] == writes[..crash];
      EveryHeedfulCrashIsTruthful(boot, writes[..|writes| - 1], crash);
    } else {
      assert writes[..crash] == writes;
      HeedfulRunIsTrusted(boot, writes);
      WriteKeepsTrust(Run(boot, writes), RouteStep(RouteSteps.Crash));
    }
  }

  lemma {:induction false} HeedfulRunIsTrusted(boot: Disk, writes: seq<Write>)
    requires Trusted(boot) && AllowedRun(boot, writes) && HeedfulRun(boot, writes)
    ensures Trusted(Run(boot, writes))
    decreases |writes|
  {
    if writes == [] {
    } else {
      var before := writes[..|writes| - 1];
      HeedfulRunIsTrusted(boot, before);
      WriteKeepsTrust(Run(boot, before), writes[|writes| - 1]);
    }
  }
}
