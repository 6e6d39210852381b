/**
 * The cache of recent command results: a map and a recency list mutated together, pruned by age and bounded
 * by capacity. Results, payload digests and times are numbers.
 */
module CommandCache {
  import opened Common

  datatype Entry = Entry(operation: string, digest: nat, result: nat, expires: int)

  /** `order` lists the cached ids from the least to the most recently used one. */
  datatype Cache = Cache(entries: map<string, Entry>, order: seq<string>)

  datatype Op =
    | Lookup(id: string, operation: string, digest: nat, now: int)
    | Store(id: string, operation: string, digest: nat, result: nat, now: int)

  datatype Answer = Miss | Hit(result: nat) | Conflict(existing: string)

  datatype Limits = Limits(ttl: int, capacity: nat)

  // ---------- What the operations do ----------

  /** The list without some ids. */
  function Drop(order: seq<string>, gone: set<string>): seq<string> {
    if order == [] then []
    else Drop(order[..|order| - 1], gone) + (if order[|order| - 1] in gone then [] else [order[|order| - 1]])
  }

  function Expired(c: Cache, now: int): set<string> { set id | id in c.entries && c.entries[id].expires <= now }

  function Pruned(c: Cache, now: int): Cache {
    Cache(c.entries - Expired(c, now), Drop(c.order, Expired(c, now)))
  }

  function Touched(c: Cache, id: string): Cache { c.(order := Drop(c.order, {id}) + [id]) }

  function Ask(c: Cache, id: string, operation: string, digest: nat, now: int): Answer {
    if id == "" then Miss
    else
      var live := Pruned(c, now);
      if id !in live.entries then Miss
      else
        var e := live.entries[id];
        if e.operation != operation || e.digest != digest then Conflict(e.operation) else Hit(e.result)
  }

  /** Drops the least recently used id when there is one too many. */
  function Evicted(c: Cache, capacity: nat): Cache {
    if |c.order| <= capacity then c else Cache(c.entries - {c.order[0]}, c.order[1..])
  }

  function Stored(c: Cache, op: Op, ttl: int): Cache
    requires op.Store?
  {
    var e := Entry(op.operation, op.digest, op.result, op.now + ttl);
    Cache(c.entries[op.id := e], Drop(c.order, {op.id}) + [op.id])
  }

  function Next(c: Cache, op: Op, limits: Limits): Cache {
    if op.id == "" then c
    else
      var live := Pruned(c, op.now);
      match op
      case Lookup(id, operation, digest, now) => if Ask(c, id, operation, digest, now).Hit? then Touched(live, id) else live
      case Store(_, _, _, _, _) => Evicted(Stored(live, op, limits.ttl), limits.capacity)
  }

  const EMPTY := Cache(map[], [])

  function Run(c: Cache, ops: seq<Op>, limits: Limits): Cache {
    if ops == [] then c else Next(Run(c, ops[..|ops| - 1], limits), ops[|ops| - 1], limits)
  }

  // ---------- Map and list agree ----------

  predicate NoRepeats(order: seq<string>) { forall i, j :: 0 <= i < j < |order| ==> order[i] != order[j] }

  ghost predicate Agree(c: Cache) { NoRepeats(c.order) && forall id :: id in c.entries <==> id in c.order }

  ghost predicate Inv(c: Cache, limits: Limits) { Agree(c) && |c.order| <= limits.capacity }

  lemma {:induction false} DropMembers(order: seq<string>, gone: set<string>)
    ensures forall id :: id in Drop(order, gone) <==> id in order && id !in gone
  {
    if order == [] {
    } else {
      DropMembers(order[..|order| - 1], gone);
      assert order == order[..|order| - 1] + [order[|order| - 1]];
    }
  }

  lemma {:induction false} DropNoRepeats(order: seq<string>, gone: set<string>)
    requires NoRepeats(order)
    ensures NoRepeats(Drop(order, gone))
  {
    if order == [] {
    } else {
      var n := |order| - 1;
      DropNoRepeats(order[..n], gone);
      DropMembers(order[..n], gone);
      assert order[n] !in order[..n];
    }
  }

  lemma {:induction false} DropShortens(order: seq<string>, gone: set<string>)
    ensures |Drop(order, gone)| <= |order|
    ensures (exists id :: id in order && id in gone) ==> |Drop(order, gone)| < |order|
  {
    if order == [] {
    } else {
      DropShortens(order[..|order| - 1], gone);
      assert order == order[..|order| - 1] + [order[|order| - 1]];
    }
  }

  lemma PruneKeepsInv(c: Cache, now: int, limits: Limits)
    requires Inv(c, limits)
    ensures Inv(Pruned(c, now), limits)
  {
    DropMembers(c.order, Expired(c, now));
    DropNoRepeats(c.order, Expired(c, now));
    DropShortens(c.order, Expired(c, now));
  }

  lemma MoveToBack(c: Cache, id: string)
    requires NoRepeats(c.order)
    ensures var moved := Drop(c.order, {id}) + [id];
      NoRepeats(moved) && (forall x :: x in moved <==> x in c.order || x == id) && |moved| <= |c.order| + 1
    ensures id in c.order ==> |Drop(c.order, {id}) + [id]| <= |c.order|
  {
    DropMembers(c.order, {id});
    DropNoRepeats(c.order, {id});
    DropShortens(c.order, {id});
  }

  /** Map and list always hold the same distinct ids, never more than the capacity. */
  lemma StepKeepsInv(c: Cache, op: Op, limits: Limits)
    requires Inv(c, limits)
    ensures Inv(Next(c, op, limits), limits)
  {
    if op.id != "" {
      var live := Pruned(c, op.now);
      PruneKeepsInv(c, op.now, limits);
      MoveToBack(live, op.id);
      if op.Store? {
        var stored := Stored(live, op, limits.ttl);
        assert Agree(stored);
        if |stored.order| > limits.capacity { EvictKeepsAgreement(stored); }
      }
    }
  }

  lemma EvictKeepsAgreement(c: Cache)
    requires Agree(c) && c.order != []
    ensures Agree(Cache(c.entries - {c.order[0]}, c.order[1..]))
  {
    assert c.order == [c.order[0]] + c.order[1..];
  }

  lemma {:induction false} RunKeepsInv(c: Cache, ops: seq<Op>, limits: Limits)
    requires Inv(c, limits)
    ensures Inv(Run(c, ops, limits), limits)
  {
    if ops == [] {
    } else {
      RunKeepsInv(c, ops[..|ops| - 1], limits);
      StepKeepsInv(Run(c, ops[..|ops| - 1], limits), ops[|ops| - 1], limits);
    }
  }

  // ---------- What is remembered is the latest ----------

  /** The position of the last store under an id, if any. */
  function LatestStore(ops: seq<Op>, id: string): Option<Op> {
    if ops == [] then None
    else
      var op := ops[|ops| - 1];
      if op.Store? && op.id == id then Some(op) else LatestStore(ops[..|ops| - 1], id)
  }

  predicate IsLatest(e: Entry, latest: Option<Op>, ttl: int) {
    && latest.Some? && latest.value.Store?
    && e == Entry(latest.value.operation, latest.value.digest, latest.value.result, latest.value.now + ttl)
  }

  predicate AllLatest(c: Cache, ops: seq<Op>, ttl: int) {
    "" !in c.entries && forall id :: id in c.entries ==> IsLatest(c.entries[id], LatestStore(ops, id), ttl)
  }

  /**
   * Whatever is cached is what was stored last under its id, expiring a time-to-live after that store: no
   * lookup extends it.
   */
  lemma {:induction false} CachedIsLatest(ops: seq<Op>, limits: Limits)
    ensures AllLatest(Run(EMPTY, ops, limits), ops, limits.ttl)
  {
    if ops == [] {
    } else {
      var n := |ops| - 1;
      CachedIsLatest(ops[..n], limits);
      LatestStep(Run(EMPTY, ops[..n], limits), ops[..n], ops[n], limits);
      assert ops == ops[..n] + [ops[n]];
    }
  }

  lemma LatestAppend(ops: seq<Op>, op: Op, id: string)
    ensures LatestStore(ops + [op], id) == if op.Store? && op.id == id then Some(op) else LatestStore(ops, id)
  {
    assert (ops + [op])[..|ops|] == ops;
  }

  lemma LatestStep(c: Cache, ops: seq<Op>, op: Op, limits: Limits)
    requires AllLatest(c, ops, limits.ttl)
    ensures AllLatest(Next(c, op, limits), ops + [op], limits.ttl)
  {
    hide Drop;
    var next := Next(c, op, limits);
    forall id | id in next.entries ensures IsLatest(next.entries[id], LatestStore(ops + [op], id), limits.ttl) {
      LatestAppend(ops, op, id);
      if !op.Store? || op.id != id {
        assert id in c.entries && next.entries[id] == c.entries[id];
        assert IsLatest(c.entries[id], LatestStore(ops, id), limits.ttl);
      } else {
        assert next.entries[id] == Entry(op.operation, op.digest, op.result, op.now + limits.ttl);
      }
    }
  }

  /** An answer from the cache is the latest stored result of that very command, and it has not expired. */
  lemma HitIsLatest(ops: seq<Op>, id: string, operation: string, digest: nat, now: int, limits: Limits)
    requires Ask(Run(EMPTY, ops, limits), id, operation, digest, now).Hit?
    ensures var latest := LatestStore(ops, id);
      && latest.Some? && latest.value.Store?
      && latest.value.operation == operation && latest.value.digest == digest && now < latest.value.now + limits.ttl
      && Ask(Run(EMPTY, ops, limits), id, operation, digest, now) == Hit(latest.value.result)
  {
    CachedIsLatest(ops, limits);
    assert IsLatest(Run(EMPTY, ops, limits).entries[id], LatestStore(ops, id), limits.ttl);
  }

  // ---------- How long it is remembered ----------

  /** The ids used more recently than `id`. */
  function Behind(order: seq<string>, id: string): set<string> {
    if order == [] || order[|order| - 1] == id then {} else Behind(order[..|order| - 1], id) + {order[|order| - 1]}
  }

  lemma {:induction false} BehindDrop(order: seq<string>, gone: set<string>, id: string)
    requires id !in gone
    ensures Behind(Drop(order, gone), id) <= Behind(order, id)
  {
    if order == [] {
    } else {
      var n := |order| - 1;
      BehindDrop(order[..n], gone, id);
      var kept := Drop(order[..n], gone);
      BehindAppend(kept, order[n], id);
      assert kept + [] == kept;
    }
  }

  lemma BehindAppend(order: seq<string>, last: string, id: string)
    ensures Behind(order + [last], id) == if last == id then {} else Behind(order, id) + {last}
  {
    assert (order + [last])[..|order|] == order;
  }

  lemma {:induction false} BehindTail(order: seq<string>, id: string)
    requires order != []
    ensures Behind(order[1..], id) <= Behind(order, id)
  {
    var n := |order| - 1;
    if n == 0 {
    } else {
      assert order[..n][1..] == order[1..][..n - 1];
      BehindTail(order[..n], id);
    }
  }

  /** Everything but the oldest id is behind it. */
  lemma {:induction false} BehindFirst(order: seq<string>)
    requires order != [] && NoRepeats(order)
    ensures |Behind(order, order[0])| == |order| - 1
    ensures forall x :: x in Behind(order, order[0]) ==> x in order
  {
    var n := |order| - 1;
    if n == 0 {
    } else {
      BehindFirst(order[..n]);
      assert order == order[..n] + [order[n]];
      assert order[n] !in order[..n];
    }
  }

  /** The other ids a run of operations names. */
  function Others(ops: seq<Op>, id: string): set<string> { set op | op in ops && op.id != id && op.id != "" :: op.id }

  predicate Holds(c: Cache, id: string, e: Entry, others: set<string>) {
    id in c.entries && c.entries[id] == e && Behind(c.order, id) <= others
  }

  lemma PruneKeepsHeld(c: Cache, now: int, id: string, e: Entry, others: set<string>)
    requires Holds(c, id, e, others) && now < e.expires
    ensures Holds(Pruned(c, now), id, e, others)
  {
    BehindDrop(c.order, Expired(c, now), id);
  }

  /** An entry can be evicted only when as many other ids as the cache holds were used after it. */
  lemma EvictKeepsHeld(c: Cache, capacity: nat, id: string, e: Entry, others: set<string>)
    requires Agree(c) && Holds(c, id, e, others) && |others| < capacity && |c.order| <= capacity + 1
    ensures Holds(Evicted(c, capacity), id, e, others)
  {
    if |c.order| > capacity {
      BehindTail(c.order, id);
      if c.order[0] == id {
        BehindFirst(c.order);
        Fewer(Behind(c.order, id), others);
        assert false;
      }
    }
  }

  lemma {:induction false} Fewer(a: set<string>, b: set<string>)
    requires a <= b
    ensures |a| <= |b|
  {
    if a == {} {
    } else {
      var x :| x in a;
      Fewer(a - {x}, b - {x});
    }
  }

  lemma HeldStep(c: Cache, op: Op, limits: Limits, id: string, e: Entry, others: set<string>)
    requires Inv(c, limits) && Holds(c, id, e, others) && |others| < limits.capacity
    requires op.now < e.expires && (op.id == id ==> op.Lookup?)
    requires op.id != id && op.id != "" ==> op.id in others
    ensures Holds(Next(c, op, limits), id, e, others)
  {
    if op.id != "" {
      var live := Pruned(c, op.now);
      PruneKeepsInv(c, op.now, limits);
      PruneKeepsHeld(c, op.now, id, e, others);
      MoveToBack(live, op.id);
      BehindAppend(Drop(live.order, {op.id}), op.id, id);
      if op.id != id { BehindDrop(live.order, {op.id}, id); }
      if op.Store? {
        EvictKeepsHeld(Stored(live, op, limits.ttl), limits.capacity, id, e, others);
      }
    }
  }

  lemma {:induction false} HeldRun(c: Cache, ops: seq<Op>, limits: Limits, id: string, e: Entry, others: set<string>)
    requires Inv(c, limits) && Holds(c, id, e, others) && |others| < limits.capacity
    requires forall op :: op in ops ==> op.now < e.expires && (op.id == id ==> op.Lookup?)
    requires Others(ops, id) <= others
    ensures Holds(Run(c, ops, limits), id, e, others)
  {
    if ops == [] {
    } else {
      var n := |ops| - 1;
      assert ops == ops[..n] + [ops[n]];
      assert Others(ops[..n], id) <= Others(ops, id);
      HeldRun(c, ops[..n], limits, id, e, others);
      RunKeepsInv(c, ops[..n], limits);
      assert ops[n].id != id && ops[n].id != "" ==> ops[n].id in Others(ops, id);
      HeldStep(Run(c, ops[..n], limits), ops[n], limits, id, e, others);
    }
  }

  lemma {:induction false} RunAppend(c: Cache, a: seq<Op>, b: seq<Op>, limits: Limits)
    ensures Run(c, a + b, limits) == Run(Run(c, a, limits), b, limits)
  {
    if b == [] {
      assert a + b == a;
    } else {
      var most := b[..|b| - 1];
      assert (a + b)[..|a + b| - 1] == a + most;
      RunAppend(c, a, most, limits);
    }
  }

  /** A command is used by storing its result or by finding it. */
  predicate Uses(c: Cache, op: Op) { op.id != "" && (op.Store? || Ask(c, op.id, op.operation, op.digest, op.now).Hit?) }

  lemma UsedIsHeld(c: Cache, op: Op, limits: Limits)
    requires Inv(c, limits) && limits.capacity > 0 && Uses(c, op)
    ensures var next := Next(c, op, limits); op.id in next.entries && Behind(next.order, op.id) == {}
  {
    var live := Pruned(c, op.now);
    PruneKeepsInv(c, op.now, limits);
    MoveToBack(live, op.id);
    BehindAppend(Drop(live.order, {op.id}), op.id, op.id);
    if op.Store? {
      var e := Entry(op.operation, op.digest, op.result, op.now + limits.ttl);
      EvictKeepsHeld(Stored(live, op, limits.ttl), limits.capacity, op.id, e, {});
    }
  }

  /**
   * After a command was last used, its latest stored result is surely found as long as it has not expired
   * and fewer other commands were named since than the cache holds.
   */
  lemma RecentIsFound(before: seq<Op>, use: Op, later: seq<Op>, now: int, limits: Limits)
    requires Uses(Run(EMPTY, before, limits), use)
    requires forall op :: op in later && op.id == use.id ==> op.Lookup?
    requires |Others(later, use.id)| < limits.capacity
    ensures var latest := LatestStore(before + [use], use.id);
      && latest.Some? && latest.value.Store?
      && (now < latest.value.now + limits.ttl && (forall op :: op in later ==> op.now < latest.value.now + limits.ttl) ==>
            Ask(Run(EMPTY, before + [use] + later, limits), use.id, latest.value.operation, latest.value.digest, now)
            == Hit(latest.value.result))
  {
    var c := Run(EMPTY, before, limits);
    var id := use.id;
    RunKeepsInv(EMPTY, before, limits);
    UsedIsHeld(c, use, limits);
    var held := Next(c, use, limits);
    assert (before + [use])[..|before|] == before;
    assert Run(EMPTY, before + [use], limits) == held;
    RunKeepsInv(EMPTY, before + [use], limits);
    CachedIsLatest(before + [use], limits);
    var latest := LatestStore(before + [use], id);
    var e := held.entries[id];
    assert IsLatest(e, latest, limits.ttl);
    RunAppend(EMPTY, before + [use], later, limits);
    if now < e.expires && forall op :: op in later ==> op.now < e.expires {
      HeldRun(held, later, limits, id, e, Others(later, id));
      PruneKeepsHeld(Run(held, later, limits), now, id, e, Others(later, id));
    }
  }

  // ---------- The cache itself ----------

  class RecentCommandCache {
    const limits: Limits
    var entries: map<string, Entry>
    var order: seq<string>

    ghost function Contents(): Cache
      reads this
    {
      Cache(entries, order)
    }

    ghost predicate Valid()
      reads this
    {
      limits.capacity > 0 && Inv(Contents(), limits)
    }

    /** Without options: fifteen minutes (in seconds) and 1024 commands. */
    constructor (ttl: int, capacity: int)
      ensures Valid() && Contents() == EMPTY
      ensures limits == Limits(if ttl <= 0 then 900 else ttl, if capacity <= 0 then 1024 else capacity)
    {
      limits := Limits(if ttl <= 0 then 900 else ttl, if capacity <= 0 then 1024 else capacity);
      entries, order := map[], [];
    }

    method PruneExpired(now: int)
      requires Agree(Contents())
      modifies `entries, `order
      ensures Contents() == Pruned(old(Contents()), now)
    {
      ghost var was := Contents();
      ghost var gone, done := Expired(was, now), {};
      var all := order;
      var live: seq<string> := [];
      for i := 0 to |all|
        invariant live == Drop(all[..i], gone)
        invariant done <= gone && entries == was.entries - done
        invariant forall k :: 0 <= k < i ==> (all[k] in gone <==> all[k] in done)
        invariant forall k :: i <= k < |all| ==> all[k] !in done
      {
        DropOneMore(all, i, gone);
        if entries[all[i]].expires <= now {
          entries := entries - {all[i]};
          done := done + {all[i]};
        } else {
          live := live + [all[i]];
        }
      }
      assert all[..|all|] == all;
      order := live;
      assert gone <= done;
    }

    /** A hit makes the command the most recently used one; a conflict or a miss does not. */
    method Lookup(id: string, operation: string, digest: nat, now: int) returns (answer: Answer)
      requires Valid()
      modifies `entries, `order
      ensures Valid() && Contents() == Next(old(Contents()), Op.Lookup(id, operation, digest, now), limits)
      ensures answer == Ask(old(Contents()), id, operation, digest, now)
    {
      if id == "" { return Miss; }
      StepKeepsInv(Contents(), Op.Lookup(id, operation, digest, now), limits);
      PruneExpired(now);
      if id !in entries { return Miss; }
      var entry := entries[id];
      if entry.operation != operation || entry.digest != digest { return Conflict(entry.operation); }
      order := Drop(order, {id}) + [id];
      answer := Hit(entry.result);
    }

    method Store(id: string, operation: string, digest: nat, result: nat, now: int)
      requires Valid()
      modifies `entries, `order
      ensures Valid() && Contents() == Next(old(Contents()), Op.Store(id, operation, digest, result, now), limits)
    {
      if id == "" { return; }
      StoreCommand(Op.Store(id, operation, digest, result, now));
    }

    method StoreCommand(op: Op)
      requires Valid() && op.Store? && op.id != ""
      modifies `entries, `order
      ensures Valid() && Contents() == Next(old(Contents()), op, limits)
    {
      ghost var c := Contents();
      StoreSteps(c, op, limits);
      hide *;
      PruneExpired(op.now);
      PushBack(op.id, Entry(op.operation, op.digest, op.result, op.now + limits.ttl));
      EvictOldest();
    }

    method PushBack(id: string, entry: Entry)
      requires Agree(Contents())
      modifies `entries, `order
      ensures Contents() == Cache(old(entries)[id := entry], Drop(old(order), {id}) + [id])
    {
      if id in entries { order := Drop(order, {id}); } else { NothingToDrop(order, id); }
      entries := entries[id := entry];
      order := order + [id];
    }

    method EvictOldest()
      requires |order| <= limits.capacity + 1
      modifies `entries, `order
      ensures Contents() == Evicted(old(Contents()), limits.capacity)
    {
      while |order| > limits.capacity
        invariant |order| <= limits.capacity + 1
        invariant if |order| > limits.capacity then Contents() == old(Contents())
                  else Contents() == Evicted(old(Contents()), limits.capacity)
        decreases |order|
      {
        entries := entries - {order[0]};
        order := order[1..];
      }
    }
  }

  /** The states a store goes through. */
  lemma StoreSteps(c: Cache, op: Op, limits: Limits)
    requires Inv(c, limits) && op.Store? && op.id != ""
    ensures var live := Pruned(c, op.now);
      && Agree(live) && |Stored(live, op, limits.ttl).order| <= limits.capacity + 1
      && Evicted(Stored(live, op, limits.ttl), limits.capacity) == Next(c, op, limits)
      && Inv(Next(c, op, limits), limits)
  {
    StepKeepsInv(c, op, limits);
    PruneKeepsInv(c, op.now, limits);
    MoveToBack(Pruned(c, op.now), op.id);
  }

  lemma DropOneMore(order: seq<string>, i: nat, gone: set<string>)
    requires i < |order|
    ensures Drop(order[..i + 1], gone) == Drop(order[..i], gone) + (if order[i] in gone then [] else [order[i]])
  {
    assert order[..i + 1][..i] == order[..i];
  }

  lemma {:induction false} NothingToDrop(order: seq<string>, id: string)
    requires id !in order
    ensures Drop(order, {id}) == order
  {
    if order == [] {
    } else {
      assert order == order[..|order| - 1] + [order[|order| - 1]];
      NothingToDrop(order[..|order| - 1], id);
    }
  }
}
