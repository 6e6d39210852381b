/**
 * RuntimeBiz itself: its sections under the mutex, proved to move the table exactly as the interleaving
 * model says, and the calls put together from them, with any sections of other actors in between.
 */
module RuntimeBiz {
  import opened Common
  import opened ForwardRuntime

  datatype Suspended = Suspended(id: int, generation: nat)

  /** A plan lists each captured generation exactly once, in the order of the ids. */
  ghost predicate Lists(plan: seq<Suspended>, captured: map<int, nat>) {
    && (forall i, j :: 0 <= i < j < |plan| ==> plan[i].id < plan[j].id)
    && (forall i :: 0 <= i < |plan| ==> plan[i].id in captured && captured[plan[i].id] == plan[i].generation)
    && (forall id :: id in captured ==> exists i :: 0 <= i < |plan| && plan[i].id == id)
  }

  /** The plan when the ids in `rest` are still to come, all of them above the ids passed. */
  ghost predicate ListsBut(plan: seq<Suspended>, captured: map<int, nat>, rest: set<int>) {
    && (forall i, j :: 0 <= i < j < |plan| ==> plan[i].id < plan[j].id)
    && (forall i :: 0 <= i < |plan| ==> plan[i].id in captured && captured[plan[i].id] == plan[i].generation)
    && (forall i, id :: 0 <= i < |plan| && id in rest ==> plan[i].id < id)
    && (forall id :: id in captured && id !in rest ==> exists i :: 0 <= i < |plan| && plan[i].id == id)
  }

  lemma ListsOneMore(plan: seq<Suspended>, captured: map<int, nat>, rest: set<int>, id: int)
    requires ListsBut(plan, captured, rest) && id in rest && (forall other :: other in rest ==> id <= other)
    ensures ListsBut(if id in captured then plan + [Suspended(id, captured[id])] else plan, captured, rest - {id})
  {
    if id in captured {
      var plan' := plan + [Suspended(id, captured[id])];
      forall other | other in captured && other !in rest - {id}
        ensures exists i :: 0 <= i < |plan'| && plan'[i].id == other
      {
        if other == id {
          assert plan'[|plan|].id == id;
        } else {
          var i :| 0 <= i < |plan| && plan[i].id == other;
          assert plan'[i].id == other;
        }
      }
    }
  }

  lemma SomeElement(s: set<int>)
    ensures s == {} || exists x :: x in s
  {
    assert (forall x :: x !in s) ==> s == {};
  }

  method Least(ids: set<int>) returns (least: int)
    requires ids != {}
    ensures least in ids && forall id :: id in ids ==> least <= id
  {
    SomeElement(ids);
    least :| least in ids;
    var rest := ids - {least};
    while rest != {}
      invariant rest <= ids && least in ids
      invariant forall id :: id in ids && id !in rest ==> least <= id
      decreases |rest|
    {
      SomeElement(rest);
      var id :| id in rest;
      rest := rest - {id};
      least := if id < least then id else least;
    }
  }

  /** Marks every wanted run that is not stopping yet, and lists what it marked. */
  method MarkWanted(runs: map<int, Entry>, ids: set<int>) returns (marked: map<int, Entry>, plan: seq<Suspended>)
    ensures Lists(plan, SuspendPlan(Table(runs, map[], 0, false), ids))
    ensures marked == BeginSuspend(Table(runs, map[], 0, false), ids).runs
  {
    marked, plan := runs, [];
    var rest := runs.Keys;
    ghost var captured := SuspendPlan(Table(runs, map[], 0, false), ids);
    ghost var target := BeginSuspend(Table(runs, map[], 0, false), ids).runs;
    while rest != {}
      invariant rest <= runs.Keys == marked.Keys
      invariant forall id :: id in runs ==> marked[id] == if id in rest then runs[id] else target[id]
      invariant ListsBut(plan, captured, rest)
      decreases |rest|
    {
      hide ListsBut;
      var id := Least(rest);
      ListsOneMore(plan, captured, rest, id);
      rest := rest - {id};
      if Wanted(ids, id) && !marked[id].phase.Stopping? {
        plan := plan + [Suspended(id, marked[id].generation)];
        marked := marked[id := marked[id].(phase := Stopping)];
      }
    }
    assert forall id :: id in marked <==> id in target;
    assert forall id :: id in target ==> marked[id] == target[id];
    assert marked == target;
  }

  method MarkAll(runs: map<int, Entry>) returns (marked: map<int, Entry>)
    ensures marked == map id | id in runs :: runs[id].(phase := Stopping)
  {
    marked := runs;
    var rest := runs.Keys;
    ghost var target := map id | id in runs :: runs[id].(phase := Stopping);
    while rest != {}
      invariant rest <= runs.Keys == marked.Keys
      invariant forall id :: id in runs ==> marked[id] == if id in rest then runs[id] else target[id]
      decreases |rest|
    {
      SomeElement(rest);
      var id :| id in rest;
      rest := rest - {id};
      marked := marked[id := marked[id].(phase := Stopping)];
    }
    assert forall id :: id in marked <==> id in target;
    assert forall id :: id in target ==> marked[id] == target[id];
    assert marked == target;
  }

  // ---------- What happens to the table meanwhile ----------

  predicate EntryTidy(e: Entry, nextGeneration: nat) {
    1 <= e.generation <= nextGeneration && (e.phase.Starting? ==> e.run.None?) && (e.phase.Running? ==> e.run.Some?)
  }

  ghost predicate Tidy(tab: Table) {
    forall id :: id in tab.runs ==> EntryTidy(tab.runs[id], tab.nextGeneration)
  }

  /** An entry is newer than `was`, or an entry of `was` that has at most been published or marked. */
  predicate Descends(was: Table, now: Table, id: int)
    requires id in now.runs
  {
    var e := now.runs[id];
    || was.nextGeneration < e.generation
    || (id in was.runs
        && var o := was.runs[id];
        && e.generation == o.generation && (o.phase.Stopping? ==> e.phase.Stopping?)
        && (o.run.Some? || o.phase.Stopping? ==> e.run == o.run))
  }

  /** What any sections of any actors make of a table: nothing comes back, and nothing is new once it is closing. */
  ghost predicate Onward(was: Table, now: Table) {
    && Tidy(now) && was.nextGeneration <= now.nextGeneration
    && (was.closing ==> now.closing && now.nextGeneration == was.nextGeneration)
    && (forall id :: id in now.runs ==> Descends(was, now, id))
  }

  lemma OnwardOnward(was: Table, mid: Table, now: Table)
    requires Onward(was, mid) && Onward(mid, now)
    ensures Onward(was, now)
  {
    forall id | id in now.runs ensures Descends(was, now, id) {
      assert Descends(mid, now, id);
      if now.runs[id].generation <= mid.nextGeneration { assert Descends(was, mid, id); }
    }
  }

  /** A suspended generation stays dead whatever happens meanwhile. */
  lemma OnwardKeepsSuspended(was: Table, now: Table, id: int, generation: nat)
    requires Onward(was, now) && StaysSuspended(was, id, generation)
    ensures StaysSuspended(now, id, generation)
  {
    if id in now.runs { assert Descends(was, now, id); }
  }

  /** The generation a start has reserved; nobody else publishes, fails or abandons it. */
  ghost predicate Unpublished(tab: Table, mine: Option<nat>) {
    mine.Some? ==>
      && mine.value <= tab.nextGeneration
      && forall id :: id in tab.runs && tab.runs[id].generation == mine.value ==> tab.runs[id].run.None?
  }

  /** The captured generation is no longer there. */
  predicate Gone(tab: Table, e: Suspended) { e.id in tab.runs ==> e.generation < tab.runs[e.id].generation }

  /** A forward reported as started: there, not stopping, and newer than what a suspension captured of it. */
  ghost predicate Backed(was: Table, e: Suspended, id: int, now: Table) {
    && id == e.id && id in now.runs && !now.runs[id].phase.Stopping?
    && (StaysSuspended(was, id, e.generation) ==> e.generation < now.runs[id].generation)
  }

  /** When a start succeeds: it finds the forward there, or dials and may still publish it. */
  predicate Startable(found: Table, id: int, dialed: bool, met: Table) {
    && !found.closing
    && if id in found.runs then !found.runs[id].phase.Stopping?
       else dialed && CanPublish(met, id, found.nextGeneration + 1)
  }

  lemma AnyElement(s: set<Suspended>)
    ensures s == {} || exists x :: x in s
  {
    assert (forall x :: x !in s) ==> s == {};
  }

  lemma AllStay(plan: seq<Suspended>, was: Table, now: Table)
    requires Onward(was, now)
    ensures forall e :: e in plan && StaysSuspended(was, e.id, e.generation) ==> StaysSuspended(now, e.id, e.generation)
    ensures forall e :: e in plan && Gone(was, e) && StaysSuspended(was, e.id, e.generation) ==> Gone(now, e)
  {
    forall e | e in plan && StaysSuspended(was, e.id, e.generation)
      ensures StaysSuspended(now, e.id, e.generation) && (Gone(was, e) ==> Gone(now, e))
    {
      OnwardKeepsSuspended(was, now, e.id, e.generation);
      if e.id in now.runs { assert Descends(was, now, e.id); }
    }
  }

  /** Marking is a suspension of everything it lists. */
  lemma MarkedStay(was: Table, ids: set<int>, plan: seq<Suspended>)
    requires Tidy(was) && Lists(plan, SuspendPlan(was, ids))
    ensures Onward(was, BeginSuspend(was, ids))
    ensures forall e :: e in plan ==>
              e.id in was.runs && StaysSuspended(BeginSuspend(was, ids), e.id, e.generation)
  {
  }

  /** A table that is closing and has every entry marked. */
  ghost predicate Closed(tab: Table) { tab.closing && forall id :: id in tab.runs ==> tab.runs[id].phase.Stopping? }

  /** What is left of the entries a shutdown captured. */
  predicate Captured(entries: map<int, Entry>, tab: Table) {
    forall id :: id in tab.runs ==>
      id in entries && tab.runs[id].generation == entries[id].generation && tab.runs[id].run == entries[id].run
  }

  /** It can only lose entries. */
  lemma ClosedOnward(was: Table, now: Table)
    requires Closed(was) && Onward(was, now)
    ensures Closed(now)
    ensures forall id :: id in now.runs ==>
              && id in was.runs && now.runs[id].generation == was.runs[id].generation && now.runs[id].run == was.runs[id].run
  {
    assert forall id :: id in now.runs ==> Descends(was, now, id);
  }

  lemma AllOnward(seen: seq<Table>, was: Table, now: Table)
    requires Onward(was, now) && forall i :: 0 <= i < |seen| ==> Onward(seen[i], was)
    ensures forall i :: 0 <= i < |seen| ==> Onward(seen[i], now)
  {
    forall i | 0 <= i < |seen| ensures Onward(seen[i], now) { OnwardOnward(seen[i], was, now); }
  }

  class RuntimeBiz {
    var runs: map<int, Entry>
    var states: map<int, Status>
    var nextGeneration: nat
    var closing: bool

    ghost function Snap(): Table
      reads this
    {
      Table(runs, states, nextGeneration, closing)
    }

    constructor ()
      ensures Snap() == Table(map[], map[], 0, false)
    {
      runs, states, nextGeneration, closing := map[], map[], 0, false;
    }

    method StartBegin(id: int) returns (r: Reservation)
      modifies this
      ensures (Snap(), r) == Reserve(old(Snap()), id)
      ensures r.Closing? <==> closing
      ensures id in old(runs) && !closing ==> r == if old(runs)[id].phase.Stopping? then StillStopping else AlreadyThere
      ensures id !in old(runs) && !closing ==>
                && r == Reserved(old(nextGeneration) + 1) && nextGeneration == old(nextGeneration) + 1
                && runs == old(runs)[id := Entry(nextGeneration, Starting, None)]
      ensures !r.Reserved? ==> runs == old(runs)
    {
      if closing {
        return Closing;
      }
      if id in runs {
        return if runs[id].phase.Stopping? then StillStopping else AlreadyThere;
      }
      nextGeneration := nextGeneration + 1;
      runs := runs[id := Entry(nextGeneration, Starting, None)];
      r := Reserved(nextGeneration);
    }

    method Remove(id: int, status: Status)
      modifies this
      ensures Snap() == Drop(old(Snap()), id, status)
    {
      runs := runs - {id};
      states := states[id := status];
    }

    method FinishStartFailure(id: int, generation: nat)
      modifies this
      ensures Snap() == FailStart(old(Snap()), id, generation)
      ensures if id in old(runs) && old(runs)[id].generation == generation
              then runs == old(runs) - {id} && states == old(states)[id := StatusError]
              else runs == old(runs) && states == old(states)
    {
      if id !in runs || runs[id].generation != generation {
        return;
      }
      Remove(id, StatusError);
    }

    /** Refuses a publication that lost its entry, was told to stop meanwhile, or meets a shutdown. */
    method StartEnd(id: int, generation: nat, run: nat) returns (published: bool)
      modifies this
      ensures published == CanPublish(old(Snap()), id, generation)
      ensures Snap() == Publish(old(Snap()), id, generation, run)
      ensures published <==>
                !closing && id in old(runs) && old(runs)[id].generation == generation && old(runs)[id].phase.Starting?
      ensures if published
              then runs == old(runs)[id := Entry(generation, Running, Some(run))] && states == old(states)[id := StatusRunning]
              else runs == old(runs) && states == old(states)
    {
      if id !in runs || runs[id].generation != generation || !runs[id].phase.Starting? || closing {
        return false;
      }
      runs := runs[id := runs[id].(run := Some(run), phase := Running)];
      states := states[id := StatusRunning];
      published := true;
    }

    method AbandonEnd(id: int, generation: nat, stopped: bool)
      modifies this
      ensures Snap() == Abandon(old(Snap()), id, generation, stopped)
      ensures if id in old(runs) && old(runs)[id].generation == generation && old(runs)[id].run.None?
              then runs == old(runs) - {id} && states == old(states)[id := if stopped then StatusStopped else StatusError]
              else runs == old(runs) && states == old(states)
    {
      if id in runs && runs[id].generation == generation && runs[id].run.None? {
        Remove(id, if stopped then StatusStopped else StatusError);
      }
    }

    /** The entry to stop, or nothing when there is none or somebody else is stopping it. */
    method StopBegin(id: int) returns (entry: Option<Entry>)
      modifies this
      ensures entry.Some? <==> id in old(runs) && !old(runs)[id].phase.Stopping?
      ensures entry.Some? ==> entry.value == old(runs)[id]
      ensures Snap() == if entry.Some? then MarkStopping(old(Snap()), id) else old(Snap())
      ensures runs == if entry.Some? then old(runs)[id := entry.value.(phase := Stopping)] else old(runs)
      ensures states == old(states)
    {
      if id !in runs || runs[id].phase.Stopping? {
        return None;
      }
      entry := Some(runs[id]);
      runs := runs[id := runs[id].(phase := Stopping)];
    }

    method StopEnd(id: int, generation: nat, run: nat, stopped: bool)
      modifies this
      ensures Snap() == FinishStop(old(Snap()), id, generation, run, stopped)
      ensures runs == if && stopped && id in old(runs) && old(runs)[id].generation == generation
                         && old(runs)[id].run == Some(run)
                      then old(runs) - {id} else old(runs)
      ensures states == if id in old(runs) && old(runs)[id].generation == generation && old(runs)[id].run == Some(run)
                        then old(states)[id := if stopped then StatusStopped else StatusError] else old(states)
    {
      if id !in runs || runs[id].generation != generation || runs[id].run != Some(run) {
        return;
      }
      if stopped {
        Remove(id, StatusStopped);
      } else {
        states := states[id := StatusError];
      }
    }

    method SuspendBegin(ids: set<int>) returns (plan: seq<Suspended>)
      modifies this
      ensures Lists(plan, SuspendPlan(old(Snap()), ids))
      ensures Snap() == BeginSuspend(old(Snap()), ids)
      ensures runs.Keys == old(runs).Keys && states == old(states)
      ensures forall id :: id in runs ==>
                runs[id] == if ids == {} || id in ids then old(runs)[id].(phase := Stopping) else old(runs)[id]
    {
      runs, plan := MarkWanted(runs, ids);
    }

    method SuspendEnd(id: int, generation: nat, stopped: bool)
      modifies this
      ensures Snap() == FinishSuspend(old(Snap()), id, generation, stopped)
      ensures runs == if stopped && id in old(runs) && old(runs)[id].generation == generation
                      then old(runs) - {id} else old(runs)
      ensures states == if id in old(runs) && old(runs)[id].generation == generation
                        then old(states)[id := if stopped then StatusStopped else StatusError] else old(states)
    {
      if id in runs && runs[id].generation == generation {
        if stopped {
          Remove(id, StatusStopped);
        } else {
          states := states[id := StatusError];
        }
      }
    }

    method ShutdownBegin()
      modifies this
      ensures Snap() == BeginShutdown(old(Snap()))
      ensures closing && runs.Keys == old(runs).Keys && states == old(states)
      ensures forall id :: id in runs ==> runs[id] == old(runs)[id].(phase := Stopping)
    {
      closing := true;
      runs := MarkAll(runs);
    }

    /** The watcher's last section: the run ended by itself, and nobody is stopping it. */
    method WatchDone(id: int, generation: nat, run: nat, clean: bool)
      modifies this
      ensures Snap() == Finalized(old(Snap()), id, generation, run, clean)
      ensures if && id in old(runs) && old(runs)[id].generation == generation
                 && old(runs)[id].run == Some(run) && !old(runs)[id].phase.Stopping?
              then runs == old(runs) - {id} && states == old(states)[id := if clean then StatusStopped else StatusError]
              else runs == old(runs) && states == old(states)
    {
      if id !in runs || runs[id].generation != generation || runs[id].run != Some(run) {
        return;
      }
      if runs[id].phase.Stopping? {
        return;
      }
      Remove(id, if clean then StatusStopped else StatusError);
    }

    method HandleEvent(id: int, generation: nat, run: nat, reconnected: bool)
      modifies this
      ensures Snap() == Event(old(Snap()), id, generation, run, reconnected)
      ensures runs == old(runs)
      ensures states == if id in old(runs) && old(runs)[id].generation == generation && old(runs)[id].run == Some(run)
                        then old(states)[id := if reconnected then StatusRunning else StatusReconnecting] else old(states)
    {
      if id !in runs || runs[id].generation != generation || runs[id].run != Some(run) {
        return;
      }
      states := states[id := if reconnected then StatusRunning else StatusReconnecting];
    }

    method FinishStopInBackground(id: int, generation: nat, run: nat)
      modifies this
      ensures Snap() == FinishInBackground(old(Snap()), id, generation, run)
      ensures if id in old(runs) && old(runs)[id].generation == generation && old(runs)[id].run == Some(run)
              then runs == old(runs) - {id} && states == old(states)[id := StatusStopped]
              else runs == old(runs) && states == old(states)
    {
      if id in runs && runs[id].generation == generation && runs[id].run == Some(run) {
        Remove(id, StatusStopped);
      }
    }

    // ---------- The calls, in between any sections of others ----------

    /** One section of a start that is not the one of `mine`. */
    method OtherStart(mine: Option<nat>)
      requires Tidy(Snap()) && Unpublished(Snap(), mine)
      modifies this
      ensures Onward(old(Snap()), Snap()) && Unpublished(Snap(), mine)
    {
      var id: int, generation: nat, run: nat, choice: nat, stopped: bool := *, *, *, *, *;
      if choice == 0 {
        var r := StartBegin(id);
      } else if mine != Some(generation) {
        if choice == 1 {
          FinishStartFailure(id, generation);
        } else if choice == 2 {
          var published := StartEnd(id, generation, run);
        } else {
          AbandonEnd(id, generation, stopped);
        }
      }
    }

    /** One section of a stop, a suspension or a shutdown. */
    method OtherStop(ghost mine: Option<nat>)
      requires Tidy(Snap()) && Unpublished(Snap(), mine)
      modifies this
      ensures Onward(old(Snap()), Snap()) && Unpublished(Snap(), mine)
    {
      var id: int, generation: nat, run: nat, choice: nat, stopped: bool := *, *, *, *, *;
      if choice == 0 {
        var entry := StopBegin(id);
      } else if choice == 1 {
        StopEnd(id, generation, run, stopped);
      } else if choice == 2 {
        var ids: set<int> := *;
        var plan := SuspendBegin(ids);
      } else if choice == 3 {
        SuspendEnd(id, generation, stopped);
      } else {
        ShutdownBegin();
      }
    }

    /** One section of a watcher or a background finisher. */
    method OtherWatch(ghost mine: Option<nat>)
      requires Tidy(Snap()) && Unpublished(Snap(), mine)
      modifies this
      ensures Onward(old(Snap()), Snap()) && Unpublished(Snap(), mine)
    {
      var id: int, generation: nat, run: nat, choice: nat, clean: bool := *, *, *, *, *;
      if choice == 0 {
        WatchDone(id, generation, run, clean);
      } else if choice == 1 {
        HandleEvent(id, generation, run, clean);
      } else {
        FinishStopInBackground(id, generation, run);
      }
    }

    /** Any number of sections of other actors, while this call waits outside the mutex. */
    method Elsewhere(mine: Option<nat>)
      requires Tidy(Snap()) && Unpublished(Snap(), mine)
      modifies this
      ensures Onward(old(Snap()), Snap()) && Unpublished(Snap(), mine)
    {
      var n: nat :| true;
      for i := 0 to n
        invariant Onward(old(Snap()), Snap()) && Unpublished(Snap(), mine)
      {
        ghost var mid := Snap();
        var choice: nat := *;
        if choice == 0 {
          OtherStart(mine);
        } else if choice == 1 {
          OtherStop(mine);
        } else {
          OtherWatch(mine);
        }
        OnwardOnward(old(Snap()), mid, Snap());
      }
    }

    /** What a start does once it has reserved its generation: load, dial, publish. */
    method Dial(id: int, generation: nat) returns (ok: bool, ghost dialed: bool, ghost met: Table)
      requires Tidy(Snap()) && Unpublished(Snap(), Some(generation))
      modifies this
      ensures Onward(old(Snap()), Snap())
      ensures Onward(old(Snap()), met) && (ok <==> dialed && CanPublish(met, id, generation))
      ensures ok ==>
                && id in runs && runs[id].generation == generation && runs[id].phase.Running?
                && !closing && id in states && states[id] == StatusRunning
      ensures !ok ==> id in runs ==> runs[id].generation != generation
    {
      Elsewhere(Some(generation));
      ghost var mid := Snap();
      met := mid;
      var answered: bool, run: nat := *, *;
      dialed := answered;
      if !answered {
        FinishStartFailure(id, generation);
        ok := false;
      } else {
        ok := StartEnd(id, generation, run);
        if !ok {
          var stopped: bool := *;
          Elsewhere(Some(generation));
          OnwardOnward(old(Snap()), mid, Snap());
          mid := Snap();
          AbandonEnd(id, generation, stopped);
        }
      }
      OnwardOnward(old(Snap()), mid, Snap());
    }

    /**
     * Starts a forward unless it is there already. Success leaves it there and not stopping; a start that
     * does not succeed leaves nothing of the generation it reserved.
     */
    method Start(id: int) returns (ok: bool, ghost dialed: bool, ghost met: Table)
      requires Tidy(Snap())
      modifies this
      ensures Onward(old(Snap()), Snap())
      ensures old(closing) || id in old(runs) ==>
                Snap() == old(Snap()) && (ok <==> !closing && !runs[id].phase.Stopping?)
      ensures !old(closing) && id !in old(runs) ==>
                Onward(old(Snap()), met) && (ok <==> dialed && CanPublish(met, id, old(nextGeneration) + 1))
      ensures !old(closing) && id !in old(runs) && ok ==>
                && id in runs && runs[id].generation == old(nextGeneration) + 1 && runs[id].phase.Running?
                && !closing && id in states && states[id] == StatusRunning
      ensures !old(closing) && id !in old(runs) && !ok ==>
                id in runs ==> old(nextGeneration) + 1 < runs[id].generation
    {
      var r := StartBegin(id);
      if !r.Reserved? {
        return r.AlreadyThere?, false, Snap();
      }
      var generation := r.generation;
      ghost var mid := Snap();
      ok, dialed, met := Dial(id, generation);
      OnwardOnward(old(Snap()), mid, met);
    }

    /**
     * Stops a forward. The generation found never runs again, and it is gone when a handle of it has stopped;
     * one that is still dialing is left for its start to abandon.
     */
    method Stop(id: int) returns (ok: bool)
      requires Tidy(Snap())
      modifies this
      ensures Onward(old(Snap()), Snap())
      ensures id !in old(runs) || old(runs)[id].phase.Stopping? ==> Snap() == old(Snap()) && (ok <==> id !in runs)
      ensures id in old(runs) ==>
                var e := old(runs)[id];
                && (!e.phase.Stopping? ==> StaysSuspended(Snap(), id, e.generation))
                && (!e.phase.Stopping? && e.run.None? ==> ok)
                && (ok && e.run.Some? && id in runs ==> e.generation < runs[id].generation)
    {
      var entry := StopBegin(id);
      if entry.None? {
        return id !in runs;
      }
      if entry.value.run.None? {
        return true;
      }
      ghost var mid := Snap();
      Elsewhere(None);
      OnwardOnward(old(Snap()), mid, Snap());
      mid := Snap();
      ok := *;
      StopEnd(id, entry.value.generation, entry.value.run.value, ok);
      OnwardOnward(old(Snap()), mid, Snap());
      if id in runs { assert Descends(old(Snap()), Snap(), id); }
    }

    /** Records the outcome of stopping one captured entry, in whatever state the others have left the table. */
    method Settle(e: Suspended, hadRun: bool) returns (ok: bool)
      requires Tidy(Snap()) && StaysSuspended(Snap(), e.id, e.generation)
      modifies this
      ensures Onward(old(Snap()), Snap()) && StaysSuspended(Snap(), e.id, e.generation)
      ensures ok ==> Gone(Snap(), e)
      ensures !hadRun ==> ok
    {
      Elsewhere(None);
      OnwardKeepsSuspended(old(Snap()), Snap(), e.id, e.generation);
      ghost var mid := Snap();
      ok := *;
      ok := ok || !hadRun;
      SuspendEnd(e.id, e.generation, ok);
      OnwardOnward(old(Snap()), mid, Snap());
    }

    /**
     * Suspends the wanted forwards and returns what it captured. None of these generations runs again; when
     * every handle has stopped, none of them is left.
     */
    method Suspend(ids: set<int>) returns (plan: seq<Suspended>, ok: bool)
      requires Tidy(Snap())
      modifies this
      ensures Onward(old(Snap()), Snap())
      ensures Lists(plan, SuspendPlan(old(Snap()), ids))
      ensures forall e :: e in plan ==> StaysSuspended(Snap(), e.id, e.generation)
      ensures ok ==> forall e :: e in plan ==> Gone(Snap(), e)
      ensures (forall e :: e in plan ==> old(runs)[e.id].run.None?) ==> ok
    {
      plan := SuspendBegin(ids);
      MarkedStay(old(Snap()), ids, plan);
      var entries := runs;
      var waiting := set e | e in plan;
      ok := true;
      // The stops run in parallel, so their results arrive in any order.
      while waiting != {}
        invariant Tidy(Snap()) && Onward(old(Snap()), Snap())
        invariant waiting <= set e | e in plan
        invariant forall e :: e in plan ==> StaysSuspended(Snap(), e.id, e.generation)
        invariant ok ==> forall e :: e in plan && e !in waiting ==> Gone(Snap(), e)
        invariant ok || exists e :: e in plan && old(runs)[e.id].run.Some?
        decreases |waiting|
      {
        hide Onward, StaysSuspended, Gone, Lists, Tidy;
        AnyElement(waiting);
        var e :| e in waiting;
        ghost var mid := Snap();
        waiting := waiting - {e};
        var stopped := Settle(e, entries[e.id].run.Some?);
        ok := ok && stopped;
        AllStay(plan, mid, Snap());
        OnwardOnward(old(Snap()), mid, Snap());
      }
    }

    /** One start of a resumption: others may come first, and so may the caller's cancellation. */
    method StartLater(e: Suspended, cancelled: bool)
      returns (ok: bool, ghost found: Table, ghost dialed: bool, ghost met: Table)
      requires Tidy(Snap())
      modifies this
      ensures Onward(old(Snap()), Snap())
      ensures ok ==> Backed(old(Snap()), e, e.id, Snap())
      ensures Onward(old(Snap()), found) && (ok <==> !cancelled && Startable(found, e.id, dialed, met))
    {
      Elsewhere(None);
      ghost var mid := Snap();
      found := mid;
      ok, dialed, met := false, false, mid;
      if !cancelled {
        ok, dialed, met := Start(e.id);
      }
      OnwardOnward(old(Snap()), mid, Snap());
      if StaysSuspended(old(Snap()), e.id, e.generation) {
        OnwardKeepsSuspended(old(Snap()), mid, e.id, e.generation);
      }
    }

    /**
     * Starts what a plan lists, one after another, until the caller gives up. Everything reported as
     * started was there and not stopping when its start returned, in the order of the plan; where the plan's
     * generation had been suspended, under a newer one.
     */
    method Resume(plan: seq<Suspended>, until: nat)
      returns (started: seq<int>, failed: set<int>, ghost at: seq<nat>, ghost seen: seq<Table>)
      requires Tidy(Snap())
      modifies this
      ensures Onward(old(Snap()), Snap())
      ensures |at| == |seen| == |started|
      ensures forall i, j :: 0 <= i < j < |at| ==> at[i] < at[j]
      ensures forall i :: 0 <= i < |at| ==>
                at[i] < |plan| && at[i] < until && Backed(old(Snap()), plan[at[i]], started[i], seen[i])
      ensures forall i :: 0 <= i < |seen| ==> Onward(seen[i], Snap())
      ensures forall k :: 0 <= k < |plan| ==> k in at || plan[k].id in failed
    {
      started, failed, at, seen := [], {}, [], [];
      for k := 0 to |plan|
        invariant Tidy(Snap()) && Onward(old(Snap()), Snap())
        invariant |at| == |seen| == |started|
        invariant forall i, j :: 0 <= i < j < |at| ==> at[i] < at[j]
        invariant forall i :: 0 <= i < |at| ==>
                  at[i] < k && at[i] < until && Backed(old(Snap()), plan[at[i]], started[i], seen[i])
        invariant forall i :: 0 <= i < |seen| ==> Onward(seen[i], Snap())
        invariant forall i :: 0 <= i < k ==> i in at || plan[i].id in failed
      {
        ghost var mid := Snap();
        var ok;
        ghost var found, dialed, met;
        ok, found, dialed, met := StartLater(plan[k], until <= k);
        OnwardOnward(old(Snap()), mid, Snap());
        AllOnward(seen, mid, Snap());
        if ok {
          started, at, seen := started + [plan[k].id], at + [k], seen + [Snap()];
        } else {
          failed := failed + {plan[k].id};
        }
      }
    }

    /** A shutdown worker. */
    method StopForGood(id: int, e: Entry) returns (stopped: bool)
      requires Tidy(Snap()) && Closed(Snap()) && e.run.Some?
      requires id in runs ==> runs[id].generation == e.generation && runs[id].run == e.run
      modifies this
      ensures Onward(old(Snap()), Snap()) && Closed(Snap())
      ensures forall other :: other in runs ==>
                && other in old(runs) && runs[other].generation == old(runs)[other].generation
                && runs[other].run == old(runs)[other].run
      ensures stopped ==> id !in runs
    {
      Elsewhere(None);
      ghost var mid := Snap();
      stopped := *;
      ClosedOnward(old(Snap()), mid);
      StopEnd(id, e.generation, e.run.value, stopped);
      OnwardOnward(old(Snap()), mid, Snap());
    }

    /**
     * Closes the runtime for good: from here on every entry is stopping and none is new. When every handle has
     * stopped, only starts that have not published yet are left, and those will be refused.
     */
    method Shutdown() returns (ok: bool)
      requires Tidy(Snap())
      modifies this
      ensures Onward(old(Snap()), Snap()) && closing
      ensures forall id :: id in runs ==> runs[id].phase.Stopping? && (ok ==> runs[id].run.None?)
    {
      var entries := runs;
      ShutdownBegin();
      ghost var closed := Snap();
      var waiting := set id | id in entries && entries[id].run.Some?;
      ok := true;
      while waiting != {}
        invariant Onward(closed, Snap()) && Closed(Snap())
        invariant waiting <= entries.Keys && forall id :: id in waiting ==> entries[id].run.Some?
        invariant Captured(entries, Snap())
        invariant ok ==> forall id :: id in runs && id !in waiting ==> runs[id].run.None?
        decreases |waiting|
      {
        hide Onward, Tidy, Closed;
        SomeElement(waiting);
        var id :| id in waiting;
        waiting := waiting - {id};
        ghost var mid := Snap();
        var stopped := StopForGood(id, entries[id]);
        ok := ok && stopped;
        OnwardOnward(closed, mid, Snap());
      }
      OnwardOnward(old(Snap()), closed, Snap());
    }
  }
}
