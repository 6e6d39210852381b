/**
 * The SSH connection pool: first hops shared by (host, identity), counted references, and
 * generations that outlive their replacement in watchers, keepalives, captured aborts and late
 * releases. Every section under an entry's mutex is one step; closing happens after it is dropped.
 */
module ConnectionPool {
  import opened Common

  /** A client is known by the number of its dial. */
  datatype Entry = Entry(client: Option<nat>, dead: bool, refs: int, generation: nat)

  const FRESH: Entry := Entry(None, false, 0, 0)

  // ---------- Sections under one entry's mutex ----------

  predicate NeedsDial(e: Entry) { e.client.None? || e.dead }

  /** A new generation: references belong to it alone. */
  function Redial(e: Entry, client: nat, generation: nat): Entry { Entry(Some(client), false, 0, generation) }

  function AddRef(e: Entry): Entry { e.(refs := e.refs + 1) }

  /** Giving back a lease; the client to close afterwards, if this was the last one of its generation. */
  function Release(e: Entry, client: nat): (Entry, Option<nat>) {
    if e.client != Some(client) then (e, None)
    else if e.refs - 1 != 0 then (e.(refs := e.refs - 1), None)
    else (e.(refs := 0, dead := true), e.client)
  }

  /** What a watcher, a failed keepalive and a captured abort do to the generation they belong to. */
  function Condemn(e: Entry, client: Option<nat>, generation: nat): (Entry, Option<nat>) {
    if e.client == client && e.generation == generation then (e.(dead := true), e.client) else (e, None)
  }

  /** CloseAll and RetireHost condemn whatever generation an entry has. */
  function Retire(e: Entry): (Entry, Option<nat>) { (e.(dead := true), e.client) }

  // ---------- The pool and everything running around it ----------

  datatype Key = Key(host: int, identity: nat)
  datatype Lease = Lease(entry: nat, client: nat)
  datatype Birth = Birth(entry: nat, generation: nat)
  datatype Token = Token(entry: nat, client: Option<nat>, generation: nat)

  /**
   * `table` is what the pool's own mutex guards; entries live on after leaving it. `births` are the
   * clients dialed so far, `leases` those not given back, `tokens` the captured aborts, `owed` the
   * closes some call has still to perform and `closed` the clients closed.
   */
  datatype Pool = Pool(
    table: map<Key, nat>,
    entries: map<nat, Entry>,
    nextGeneration: nat,
    births: map<nat, Birth>,
    leases: map<nat, Lease>,
    tokens: set<Token>,
    owed: set<nat>,
    closed: set<nat>)

  datatype Op =
    | Lookup(key: Key, id: nat)
    | Acquire(entry: nat, lease: nat, dialed: Option<nat>)
    | GiveBack(lease: nat)
    | Lost(client: nat)
    | Capture(entry: nat)
    | Abort(token: Token)
    | DropHost(host: int)
    | RetireEntry(entry: nat)
    | Close(client: nat)

  predicate Enabled(p: Pool, op: Op) {
    match op
    case Lookup(key, id) => key !in p.table ==> id !in p.entries
    case Acquire(entry, lease, dialed) =>
      && entry in p.entries && lease !in p.leases
      && (NeedsDial(p.entries[entry]) <==> dialed.Some?) && (dialed.Some? ==> dialed.value !in p.births)
    case GiveBack(lease) => lease in p.leases && p.leases[lease].entry in p.entries
    case Lost(client) => client in p.births && p.births[client].entry in p.entries
    case Capture(entry) => entry in p.entries
    case Abort(token) => token in p.tokens && token.entry in p.entries
    case DropHost(_) => true
    case RetireEntry(entry) => entry in p.entries
    case Close(client) => client in p.owed
  }

  function Owe(client: Option<nat>): set<nat> { if client.Some? then {client.value} else {} }

  function Put(p: Pool, entry: nat, result: (Entry, Option<nat>)): Pool {
    p.(entries := p.entries[entry := result.0], owed := p.owed + Owe(result.1))
  }

  function Act(p: Pool, op: Op): Pool
    requires Enabled(p, op)
  {
    match op
    case Lookup(key, id) =>
      if key in p.table then p else p.(table := p.table[key := id], entries := p.entries[id := FRESH])
    case Acquire(entry, lease, dialed) =>
      var e := p.entries[entry];
      if dialed.None? then
        p.(entries := p.entries[entry := AddRef(e)],
           leases := p.leases[lease := Lease(entry, if e.client.Some? then e.client.value else 0)])
      else
        var c, g := dialed.value, p.nextGeneration + 1;
        p.(entries := p.entries[entry := AddRef(Redial(e, c, g))], nextGeneration := g,
           births := p.births[c := Birth(entry, g)], leases := p.leases[lease := Lease(entry, c)],
           closed := p.closed + Owe(e.client))
    case GiveBack(lease) =>
      var l := p.leases[lease];
      Put(p, l.entry, Release(p.entries[l.entry], l.client)).(leases := p.leases - {lease})
    case Lost(client) =>
      var b := p.births[client];
      Put(p, b.entry, Condemn(p.entries[b.entry], Some(client), b.generation))
    case Capture(entry) =>
      var e := p.entries[entry];
      p.(tokens := p.tokens + {Token(entry, e.client, e.generation)})
    case Abort(token) => Put(p, token.entry, Condemn(p.entries[token.entry], token.client, token.generation))
    case DropHost(host) => p.(table := map key | key in p.table && key.host != host :: p.table[key])
    case RetireEntry(entry) => Put(p, entry, Retire(p.entries[entry]))
    case Close(client) => p.(owed := p.owed - {client}, closed := p.closed + {client})
  }

  // ---------- Accounting ----------

  ghost function Holders(p: Pool, entry: nat, client: nat): set<nat> {
    set l | l in p.leases && p.leases[l] == Lease(entry, client)
  }

  /** The references of an entry are the outstanding leases on its current client. */
  ghost predicate Counted(p: Pool, entry: nat)
    requires entry in p.entries
  {
    var e := p.entries[entry];
    && (e.client.Some? ==> e.refs == |Holders(p, entry, e.client.value)|)
    && (e.client.None? ==> e.refs == 0)
    && (!NeedsDial(e) ==> e.refs >= 1)
  }

  ghost predicate Born(p: Pool, entry: nat)
    requires entry in p.entries
  {
    var e := p.entries[entry];
    && e.generation <= p.nextGeneration
    && (e.client.Some? ==> e.client.value in p.births && p.births[e.client.value] == Birth(entry, e.generation))
  }

  /** A client that is not its entry's living one is closed, or somebody owes its close. */
  ghost predicate Settled(p: Pool, client: nat)
    requires client in p.births
  {
    var b := p.births[client];
    && b.entry in p.entries && b.generation <= p.nextGeneration
    && (p.entries[b.entry].client != Some(client) || p.entries[b.entry].dead ==> client in p.closed + p.owed)
  }

  ghost predicate LeaseOk(p: Pool, l: nat)
    requires l in p.leases
  {
    && p.leases[l].entry in p.entries && p.leases[l].client in p.births
    && p.births[p.leases[l].client].entry == p.leases[l].entry
  }

  ghost predicate Inv(p: Pool) {
    && (forall e :: e in p.entries ==> Counted(p, e) && Born(p, e))
    && (forall c :: c in p.births ==> Settled(p, c))
    && (forall l :: l in p.leases ==> LeaseOk(p, l))
    && (forall key :: key in p.table ==> p.table[key] in p.entries)
  }

  /** How the holders of an entry's client change when a lease comes or goes. */
  lemma HoldersStep(p: Pool, op: Op, entry: nat, client: nat)
    requires Enabled(p, op)
    ensures var was, now := Holders(p, entry, client), Holders(Act(p, op), entry, client);
            match op
            case Acquire(e, lease, dialed) =>
              now == if Act(p, op).leases[lease] == Lease(entry, client) then was + {lease} else was
            case GiveBack(lease) => now == was - {lease}
            case _ => now == was
    ensures op.Acquire? ==> op.lease !in Holders(p, entry, client)
    ensures op.GiveBack? ==> (op.lease in Holders(p, entry, client) <==> p.leases[op.lease] == Lease(entry, client))
  {
  }

  /** Nobody holds a client that has just been dialed. */
  lemma NewClientIsUnheld(p: Pool, op: Op, entry: nat, client: nat)
    requires Inv(p) && Enabled(p, op) && op.Acquire? && op.dialed == Some(client)
    ensures Holders(p, entry, client) == {}
  {
    hide Counted, Born, Settled, Act;
  }

  /** A new generation starts with its one lease. */
  lemma CountedRedial(p: Pool, op: Op)
    requires Inv(p) && Enabled(p, op) && op.Acquire? && op.dialed.Some?
    ensures Counted(Act(p, op), op.entry)
  {
    NewClientIsUnheld(p, op, op.entry, op.dialed.value);
    HoldersStep(p, op, op.entry, op.dialed.value);
    hide Inv, Born, Settled, LeaseOk, Holders;
  }

  /** A living client gets one lease more. */
  lemma CountedShare(p: Pool, op: Op)
    requires Inv(p) && Enabled(p, op) && op.Acquire? && op.dialed.None?
    ensures Counted(Act(p, op), op.entry)
  {
    assert Counted(p, op.entry);
    HoldersStep(p, op, op.entry, p.entries[op.entry].client.value);
    hide Inv, Born, Settled, LeaseOk, Holders;
  }

  /** An acquired entry counts one lease more, and no other entry is touched. */
  lemma CountedAcquire(p: Pool, op: Op, entry: nat)
    requires Inv(p) && Enabled(p, op) && op.Acquire? && entry in p.entries
    ensures Counted(Act(p, op), entry)
  {
    if entry == op.entry {
      if op.dialed.Some? { CountedRedial(p, op); } else { CountedShare(p, op); }
    } else {
      var e := p.entries[entry];
      assert Counted(p, entry);
      if e.client.Some? { HoldersStep(p, op, entry, e.client.value); }
      hide Inv, Born, Settled, LeaseOk, Holders;
    }
  }

  lemma CountedGiveBack(p: Pool, op: Op, entry: nat)
    requires Inv(p) && Enabled(p, op) && op.GiveBack? && entry in p.entries
    ensures Counted(Act(p, op), entry)
  {
    var e := p.entries[entry];
    assert Counted(p, entry);
    if e.client.Some? {
      HoldersStep(p, op, entry, e.client.value);
    }
    hide Inv, Born, Settled, Holders;
  }

  /** Every other step leaves the leases alone and an entry's client and count as they are. */
  lemma CountedOther(p: Pool, op: Op, entry: nat)
    requires Inv(p) && Enabled(p, op) && !op.Acquire? && !op.GiveBack? && entry in Act(p, op).entries
    ensures Counted(Act(p, op), entry)
  {
    var p' := Act(p, op);
    if entry in p.entries {
      var e, e' := p.entries[entry], p'.entries[entry];
      assert Counted(p, entry);
      assert e'.client == e.client && e'.refs == e.refs && (e.dead ==> e'.dead);
      if e.client.Some? {
        HoldersStep(p, op, entry, e.client.value);
      }
    }
    hide Inv, Born, Settled, Holders;
  }

  lemma CountedStep(p: Pool, op: Op, entry: nat)
    requires Inv(p) && Enabled(p, op) && entry in Act(p, op).entries
    ensures Counted(Act(p, op), entry)
  {
    if op.Acquire? {
      CountedAcquire(p, op, entry);
    } else if op.GiveBack? {
      CountedGiveBack(p, op, entry);
    } else {
      CountedOther(p, op, entry);
    }
  }

  lemma BornStep(p: Pool, op: Op, entry: nat)
    requires Inv(p) && Enabled(p, op) && entry in Act(p, op).entries
    ensures Born(Act(p, op), entry)
  {
    hide Counted, Settled, LeaseOk;
  }

  lemma SettledStep(p: Pool, op: Op, client: nat)
    requires Inv(p) && Enabled(p, op) && client in Act(p, op).births
    ensures Settled(Act(p, op), client)
  {
    hide Counted, LeaseOk;
  }

  lemma LeasesStep(p: Pool, op: Op, l: nat)
    requires Inv(p) && Enabled(p, op) && l in Act(p, op).leases
    ensures LeaseOk(Act(p, op), l)
  {
    if l in p.leases {
      assert LeaseOk(p, l);
    }
    if op.Acquire? {
      assert Born(p, op.entry);
    }
    hide Counted, Settled;
  }

  lemma StepKeepsInv(p: Pool, op: Op)
    requires Inv(p) && Enabled(p, op)
    ensures Inv(Act(p, op))
  {
    var p' := Act(p, op);
    assert forall key :: key in p'.table ==> p'.table[key] in p'.entries;
    hide Counted, Born, Settled, LeaseOk, Act, Enabled;
    forall e | e in p'.entries
      ensures Counted(p', e) && Born(p', e)
    {
      CountedStep(p, op, e);
      BornStep(p, op, e);
    }
    forall c | c in p'.births
      ensures Settled(p', c)
    {
      SettledStep(p, op, c);
    }
    forall l | l in p'.leases
      ensures LeaseOk(p', l)
    {
      LeasesStep(p, op, l);
    }
  }

  ghost predicate Init(p: Pool) { p == Pool(map[], map[], 0, map[], map[], {}, {}, {}) }

  predicate EnabledRun(p: Pool, ops: seq<Op>)
    decreases |ops|
  {
    ops == [] || (Enabled(p, ops[0]) && EnabledRun(Act(p, ops[0]), ops[1..]))
  }

  function RunOps(p: Pool, ops: seq<Op>): Pool
    requires EnabledRun(p, ops)
    decreases |ops|
  {
    if ops == [] then p else RunOps(Act(p, ops[0]), ops[1..])
  }

  lemma {:induction false} RunKeepsInv(p: Pool, ops: seq<Op>)
    requires Inv(p) && EnabledRun(p, ops)
    ensures Inv(RunOps(p, ops))
    decreases |ops|
  {
    if ops == [] {
    } else {
      StepKeepsInv(p, ops[0]);
      RunKeepsInv(Act(p, ops[0]), ops[1..]);
    }
  }

  /**
   * In every reachable state: an entry counts exactly the outstanding leases on its client, an entry
   * that would be shared without dialing has at least one, and once the owed closes are done every
   * client still open is leased.
   */
  lemma PoolAccounting(start: Pool, ops: seq<Op>, entry: nat, client: nat)
    requires Init(start) && EnabledRun(start, ops)
    ensures entry in RunOps(start, ops).entries ==> Counted(RunOps(start, ops), entry)
    ensures var p := RunOps(start, ops);
            p.owed == {} && client in p.births && client !in p.closed ==>
              exists l :: l in p.leases && p.leases[l] == Lease(p.births[client].entry, client)
  {
    RunKeepsInv(start, ops);
    var p := RunOps(start, ops);
    if p.owed == {} && client in p.births && client !in p.closed {
      OpenClientIsLeased(p, client);
    }
  }

  lemma OpenClientIsLeased(p: Pool, client: nat)
    requires Inv(p) && p.owed == {} && client in p.births && client !in p.closed
    ensures exists l :: l in p.leases && p.leases[l] == Lease(p.births[client].entry, client)
  {
    var entry := p.births[client].entry;
    assert Settled(p, client) && Counted(p, entry);
    var holders := Holders(p, entry, client);
    assert |holders| >= 1;
    assert (forall l :: l !in holders) ==> holders == {};
    var l :| l in holders;
  }

  /** The client and generation an event of an old or present generation speaks for. */
  function Speaks(p: Pool, op: Op): Option<nat>
    requires Enabled(p, op)
  {
    match op
    case GiveBack(lease) => Some(p.leases[lease].client)
    case Lost(client) => Some(client)
    case Abort(token) => token.client
    case _ => None
  }

  /**
   * A release, a watcher or keepalive, and a captured abort of one client leave every other client
   * alone: no other entry changes, and no close of another client becomes due.
   */
  lemma GenerationsDoNotInterfere(p: Pool, op: Op, entry: nat)
    requires Inv(p) && Enabled(p, op) && (op.GiveBack? || op.Lost? || op.Abort?)
    requires entry in p.entries && p.entries[entry].client != Speaks(p, op)
    ensures Act(p, op).entries[entry] == p.entries[entry]
    ensures Act(p, op).closed == p.closed && Act(p, op).owed <= p.owed + Owe(Speaks(p, op))
  {
  }

  /** Retiring a host forgets exactly its identities: its next lookup cannot find an old entry. */
  lemma RetiredHostIsForgotten(p: Pool, host: int, key: Key, id: nat)
    requires Inv(p) && id !in p.entries
    ensures var p' := Act(Act(p, DropHost(host)), Lookup(key, id));
            p'.table[key] == (if key.host != host && key in p.table then p.table[key] else id)
  {
  }

  // ---------- A lost client is never shared again ----------

  /** The client is closed or owed a close, and its entry would dial again or has done so. */
  predicate Retired(p: Pool, client: nat) {
    && client in p.births && p.births[client].entry in p.entries && client in p.closed + p.owed
    && var e := p.entries[p.births[client].entry];
       e.client == Some(client) ==> e.dead
  }

  /** What says that a client is lost: its watcher or keepalive, an abort captured from it, its last release. */
  ghost predicate Loses(p: Pool, op: Op, client: nat)
    requires Enabled(p, op)
  {
    && client in p.births
    && var b := p.births[client];
       match op
       case Lost(c) => c == client
       case Abort(token) => token == Token(b.entry, Some(client), b.generation)
       case RetireEntry(entry) => entry == b.entry
       case GiveBack(lease) => p.leases[lease].client == client && |Holders(p, b.entry, client)| == 1
       case _ => false
  }

  /** One step retires it: whichever of these comes first condemns it, and what comes later finds it condemned. */
  lemma LosingRetires(p: Pool, op: Op, client: nat)
    requires Inv(p) && Enabled(p, op) && Loses(p, op, client)
    ensures Retired(Act(p, op), client)
  {
    var entry := p.births[client].entry;
    assert Settled(p, client) && Counted(p, entry) && Born(p, entry);
    if op.GiveBack? { assert LeaseOk(p, op.lease); }
  }

  lemma RetiredStep(p: Pool, op: Op, client: nat)
    requires Inv(p) && Enabled(p, op) && Retired(p, client)
    ensures Retired(Act(p, op), client)
  {
    hide Counted, LeaseOk;
  }

  lemma {:induction false} RetiredRun(p: Pool, ops: seq<Op>, client: nat)
    requires Inv(p) && EnabledRun(p, ops) && Retired(p, client)
    ensures Retired(RunOps(p, ops), client)
    decreases |ops|
  {
    if ops == [] {
    } else {
      StepKeepsInv(p, ops[0]);
      RetiredStep(p, ops[0], client);
      RetiredRun(Act(p, ops[0]), ops[1..], client);
    }
  }

  /**
   * From the moment a client is lost it is closed or owed a close, its entry is dead or holds another client,
   * and over every run from there no lease on it is handed out again.
   */
  lemma LostClientIsNeverShared(start: Pool, before: seq<Op>, lost: Op, client: nat, later: seq<Op>, next: Op)
    requires Init(start) && EnabledRun(start, before)
    requires Enabled(RunOps(start, before), lost) && Loses(RunOps(start, before), lost, client)
    requires EnabledRun(Act(RunOps(start, before), lost), later)
    ensures var p := RunOps(Act(RunOps(start, before), lost), later);
      && Retired(p, client)
      && (Enabled(p, next) && next.Acquire? ==>
            && Act(p, next).leases[next.lease].client != client
            && (p.births[client].entry == next.entry && p.entries[next.entry].client == Some(client) ==> next.dialed.Some?))
  {
    RunKeepsInv(start, before);
    var p := RunOps(start, before);
    LosingRetires(p, lost, client);
    StepKeepsInv(p, lost);
    RetiredRun(Act(p, lost), later, client);
    RunKeepsInv(Act(p, lost), later);
    var q := RunOps(Act(p, lost), later);
    if Enabled(q, next) && next.Acquire? { assert Born(q, next.entry) && Counted(q, next.entry); }
  }

  /** An abort captured before the loss speaks for the client found then, and a close once due is done. */
  lemma CapturedAbortRetires(p: Pool, entry: nat, client: nat)
    requires Inv(p) && entry in p.entries && p.entries[entry].client == Some(client)
    ensures var token := Token(entry, Some(client), p.entries[entry].generation);
      var captured := Act(p, Capture(entry));
      && Inv(captured) && Enabled(captured, Abort(token)) && Retired(Act(captured, Abort(token)), client)
      && client in Act(captured, Abort(token)).owed
      && client in Act(Act(captured, Abort(token)), Close(client)).closed
      && client !in Act(Act(captured, Abort(token)), Close(client)).owed
  {
    StepKeepsInv(p, Capture(entry));
    assert Born(p, entry);
  }

  // ---------- The pool entry as the source has it ----------

  class PoolEntry {
    var client: Option<nat>
    var dead: bool
    var refs: int
    var generation: nat

    ghost function Snap(): Entry
      reads this
    {
      Entry(client, dead, refs, generation)
    }

    constructor ()
      ensures Snap() == FRESH
    {
      client, dead, refs, generation := None, false, 0, 0;
    }

    /**
     * Takes a reference, dialing first when there is no living client; `dialed` is the outcome of
     * that dial and `next` the pool's next generation. Returns the client held and the one to close.
     */
    method Acquire(dialed: Option<nat>, next: nat) returns (held: Option<nat>, close: Option<nat>)
      modifies this
      ensures NeedsDial(old(Snap())) && dialed.None? ==> Snap() == old(Snap()) && held.None? && close.None?
      ensures NeedsDial(old(Snap())) && dialed.Some? ==>
                Snap() == AddRef(Redial(old(Snap()), dialed.value, next)) && held == dialed && close == old(client)
      ensures !NeedsDial(old(Snap())) ==> Snap() == AddRef(old(Snap())) && held == client && close.None?
      // A client handed out is the entry's living one: the one there was, counted once more, or a new one's first.
      ensures held.None? <==> (old(client).None? || old(dead)) && dialed.None?
      ensures held.Some? ==>
                && client == held && !dead
                && (if old(client).None? || old(dead) then
                      held == dialed && refs == 1 && generation == next && close == old(client)
                    else held == old(client) && refs == old(refs) + 1 && generation == old(generation) && close.None?)
    {
      close := None;
      if client.None? || dead {
        if dialed.None? {
          return None, None;
        }
        close := client;
        client := dialed;
        dead := false;
        refs := 0;
        generation := next;
      }
      refs := refs + 1;
      held := client;
    }

    method GiveBack(lease: nat) returns (close: Option<nat>)
      modifies this
      ensures (Snap(), close) == Release(old(Snap()), lease)
      ensures old(client) != Some(lease) ==> close.None? && refs == old(refs) && dead == old(dead)
      ensures old(client) == Some(lease) ==>
                && refs == old(refs) - 1 && (dead <==> old(dead) || refs == 0)
                && close == if refs == 0 then Some(lease) else None
      ensures client == old(client) && generation == old(generation)
    {
      if client != Some(lease) {
        return None;
      }
      refs := refs - 1;
      if refs != 0 {
        return None;
      }
      dead := true;
      close := client;
    }

    /** The shared section of watchers, keepalives and captured aborts. */
    method MarkDead(seen: Option<nat>, seenGeneration: nat) returns (close: Option<nat>)
      modifies this
      ensures (Snap(), close) == Condemn(old(Snap()), seen, seenGeneration)
      ensures client == old(client) && refs == old(refs) && generation == old(generation)
      ensures dead <==> old(dead) || (client == seen && generation == seenGeneration)
      ensures close == if client == seen && generation == seenGeneration then client else None
    {
      close := None;
      if client == seen && generation == seenGeneration {
        dead := true;
        close := client;
      }
    }

    method Condemned() returns (close: Option<nat>)
      modifies this
      ensures (Snap(), close) == Retire(old(Snap()))
      ensures dead && close == client == old(client) && refs == old(refs) && generation == old(generation)
    {
      dead := true;
      close := client;
    }
  }
}
