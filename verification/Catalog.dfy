/** Batch deletion of folders, forwards and hosts in one vault update. */
module Catalog {
  import opened Common
  import opened VaultModel

  datatype Selection = Selection(folders: seq<int>, hosts: seq<int>, forwards: seq<int>, cascade: bool)

  datatype Outcome = Done | FolderNotFound | FolderNotEmpty | HostInUse | Refused | NotSaved

  // ---------- In-place filtering ----------

  /** What is left of a list, in order. */
  function Keep<T>(s: seq<T>, key: T -> int, deleted: set<int>): (r: seq<T>)
    ensures |r| <= |s|
  {
    if s == [] then []
    else Keep(s[..|s| - 1], key, deleted) + (if key(s[|s| - 1]) in deleted then [] else [s[|s| - 1]])
  }

  /** Compacts the array towards its front, reusing it for the result. */
  method Filter<T>(items: array<T>, key: T -> int, deleted: set<int>) returns (n: nat)
    modifies items
    ensures n <= items.Length && items[..n] == Keep(old(items[..]), key, deleted)
  {
    ghost var was := items[..];
    n := 0;
    for i := 0 to items.Length
      invariant n <= i && items[i..] == was[i..]
      invariant items[..n] == Keep(was[..i], key, deleted)
    {
      assert was[..i + 1][..i] == was[..i] && items[i] == was[i];
      if key(items[i]) !in deleted {
        items[n] := items[i];
        n := n + 1;
      }
      assert forall k :: i + 1 <= k < items.Length ==> items[k] == was[k];
    }
    assert was[..items.Length] == was;
  }

  lemma {:induction false} KeepExactly<T(!new)>(s: seq<T>, key: T -> int, deleted: set<int>)
    ensures forall x :: x in Keep(s, key, deleted) <==> x in s && key(x) !in deleted
  {
    if s == [] {
    } else {
      KeepExactly(s[..|s| - 1], key, deleted);
      assert s == s[..|s| - 1] + [s[|s| - 1]];
    }
  }

  /** The order is kept: filtering commutes with concatenation. */
  lemma {:induction false} KeepInOrder<T>(a: seq<T>, b: seq<T>, key: T -> int, deleted: set<int>)
    ensures Keep(a + b, key, deleted) == Keep(a, key, deleted) + Keep(b, key, deleted)
  {
    if b == [] {
      assert a + b == a;
    } else {
      var most := b[..|b| - 1];
      assert (a + b)[..|a + b| - 1] == a + most;
      KeepInOrder(a, most, key, deleted);
    }
  }

  ghost predicate DistinctBy<T>(s: seq<T>, id: T -> int) { forall i, j :: 0 <= i < j < |s| ==> id(s[i]) != id(s[j]) }

  lemma {:induction false} KeepDistinct<T(!new)>(s: seq<T>, id: T -> int, key: T -> int, deleted: set<int>)
    requires DistinctBy(s, id)
    ensures DistinctBy(Keep(s, key, deleted), id)
  {
    if s == [] {
    } else {
      var n := |s| - 1;
      KeepDistinct(s[..n], id, key, deleted);
      KeepExactly(s[..n], key, deleted);
      var kept := Keep(s[..n], key, deleted);
      forall x | x in kept ensures id(x) != id(s[n]) {
        assert x in s[..n];
      }
    }
  }

  // ---------- What is deleted ----------

  /** One pass over the folders: a folder goes when its parent is already going. */
  function Expand(folders: seq<Folder>, deleted: set<int>): set<int> {
    if folders == [] then deleted
    else
      var acc := Expand(folders[..|folders| - 1], deleted);
      var f := folders[|folders| - 1];
      if f.parent != 0 && f.parent in acc then acc + {f.id} else acc
  }

  ghost predicate Closed(folders: seq<Folder>, deleted: set<int>) {
    forall f :: f in folders && f.parent != 0 && f.parent in deleted ==> f.id in deleted
  }

  function Chosen(ids: seq<int>): set<int> { set id | id in ids }

  function DeletedFolders(d: VaultData, sel: Selection): set<int> { Expand(d.folders, Chosen(sel.folders)) }

  function DeletedForwards(d: VaultData, sel: Selection): set<int> {
    Chosen(sel.forwards) + set fw | fw in d.forwards && fw.folder in DeletedFolders(d, sel) :: fw.id
  }

  function Without(d: VaultData, sel: Selection): VaultData {
    d.(folders := Keep(d.folders, (f: Folder) => f.id, DeletedFolders(d, sel)),
       hosts := Keep(d.hosts, (h: SSHHost) => h.id, Chosen(sel.hosts)),
       forwards := Keep(d.forwards, (fw: Forward) => fw.id, DeletedForwards(d, sel)),
       routes := Keep(d.routes, (r: WebRoute) => r.forward, DeletedForwards(d, sel)))
  }

  // ---------- When the deletion is turned down ----------

  ghost predicate AllFound(d: VaultData, sel: Selection) { forall id :: id in sel.folders ==> FolderExists(d.folders, id) }

  ghost predicate LeavesContents(d: VaultData, sel: Selection) {
    || (exists f :: f in d.folders && f.parent != 0 && f.parent in sel.folders && f.id !in sel.folders)
    || (exists fw :: fw in d.forwards && fw.folder in sel.folders && fw.id !in sel.forwards)
  }

  ghost predicate StillUsed(d: VaultData, sel: Selection, host: int) {
    exists fw :: fw in d.forwards && fw.id !in DeletedForwards(d, sel) && host in fw.chain
  }

  ghost predicate UsesDeletedHost(d: VaultData, sel: Selection) { exists host :: host in sel.hosts && StillUsed(d, sel, host) }

  // ---------- The result ----------

  lemma {:induction false} ExpandOnly(folders: seq<Folder>, all: seq<Folder>, deleted: set<int>)
    requires forall f :: f in folders ==> f in all
    ensures deleted <= Expand(folders, deleted)
    ensures forall id :: id in Expand(folders, deleted) && id !in deleted ==> exists f :: f in all && f.id == id && f.parent != 0
    ensures forall s :: deleted <= s && Closed(all, s) ==> Expand(folders, deleted) <= s
  {
    if folders == [] {
    } else {
      assert folders == folders[..|folders| - 1] + [folders[|folders| - 1]];
      ExpandOnly(folders[..|folders| - 1], all, deleted);
    }
  }

  lemma {:induction false} ExpandTakesChildren(folders: seq<Folder>, deleted: set<int>)
    ensures forall f :: f in folders && f.parent != 0 && f.parent in deleted ==> f.id in Expand(folders, deleted)
  {
    if folders == [] {
    } else {
      assert folders == folders[..|folders| - 1] + [folders[|folders| - 1]];
      ExpandTakesChildren(folders[..|folders| - 1], deleted);
      ExpandOnly(folders[..|folders| - 1], folders, deleted);
    }
  }

  /** With at most two levels one pass suffices: it reaches the least set closed under subfolders. */
  lemma OnePassSuffices(folders: seq<Folder>, deleted: set<int>)
    requires Distinct(FolderIds(folders)) && forall f :: f in folders ==> FolderOk(folders, f)
    ensures deleted <= Expand(folders, deleted) && Closed(folders, Expand(folders, deleted))
    ensures forall s :: deleted <= s && Closed(folders, s) ==> Expand(folders, deleted) <= s
  {
    ExpandOnly(folders, folders, deleted);
    ExpandTakesChildren(folders, deleted);
    forall f | f in folders && f.parent != 0 && f.parent in Expand(folders, deleted) ensures f.parent in deleted {
      assert FolderOk(folders, f);
      SameFolder(folders);
    }
  }

  lemma SameFolder(folders: seq<Folder>)
    requires Distinct(FolderIds(folders))
    ensures forall f, g :: f in folders && g in folders && f.id == g.id ==> f == g
  {
    forall i, j | 0 <= i < |folders| && 0 <= j < |folders| && folders[i].id == folders[j].id ensures i == j {
      assert FolderIds(folders)[i] == FolderIds(folders)[j];
    }
  }

  lemma FoldersStayOk(d: VaultData, sel: Selection)
    requires Distinct(FolderIds(d.folders)) && forall f :: f in d.folders ==> FolderOk(d.folders, f)
    ensures var kept := Without(d, sel).folders;
      Distinct(FolderIds(kept)) && forall f :: f in kept ==> FolderOk(kept, f)
  {
    var id := (f: Folder) => f.id;
    var gone := DeletedFolders(d, sel);
    var kept := Keep(d.folders, id, gone);
    OnePassSuffices(d.folders, Chosen(sel.folders));
    KeepExactly(d.folders, id, gone);
    assert DistinctBy(d.folders, id) by {
      forall i, j | 0 <= i < j < |d.folders| ensures id(d.folders[i]) != id(d.folders[j]) {
        assert FolderIds(d.folders)[i] != FolderIds(d.folders)[j];
      }
    }
    KeepDistinct(d.folders, id, id, gone);
    forall f | f in kept ensures FolderOk(kept, f) {
      if f.parent != 0 {
        var top :| top in d.folders && top.id == f.parent && top.parent == 0;
        assert id(f) !in gone && top in kept;
      }
    }
  }

  lemma HostsStayDistinct(d: VaultData, sel: Selection)
    requires Distinct(HostIds(d.hosts))
    ensures Distinct(HostIds(Without(d, sel).hosts))
  {
    var id := (h: SSHHost) => h.id;
    forall i, j | 0 <= i < j < |d.hosts| ensures id(d.hosts[i]) != id(d.hosts[j]) {
      assert HostIds(d.hosts)[i] != HostIds(d.hosts)[j];
    }
    KeepDistinct(d.hosts, id, id, Chosen(sel.hosts));
  }

  /** What stays still finds its folder and its hosts. */
  lemma ForwardsStayOk(d: VaultData, sel: Selection)
    requires Distinct(ForwardIds(d.forwards)) && !UsesDeletedHost(d, sel)
    requires forall fw :: fw in d.forwards ==> ForwardOk(d.folders, d.hosts, fw)
    ensures var r := Without(d, sel);
      Distinct(ForwardIds(r.forwards)) && forall fw :: fw in r.forwards ==> ForwardOk(r.folders, r.hosts, fw)
  {
    var id := (fw: Forward) => fw.id;
    var gone := DeletedForwards(d, sel);
    var r := Without(d, sel);
    forall i, j | 0 <= i < j < |d.forwards| ensures id(d.forwards[i]) != id(d.forwards[j]) {
      assert ForwardIds(d.forwards)[i] != ForwardIds(d.forwards)[j];
    }
    KeepDistinct(d.forwards, id, id, gone);
    KeepExactly(d.forwards, id, gone);
    forall fw | fw in r.forwards ensures ForwardOk(r.folders, r.hosts, fw) {
      assert fw in d.forwards && id(fw) !in gone;
      ForwardStaysOk(d, sel, fw);
    }
  }

  lemma ForwardStaysOk(d: VaultData, sel: Selection, fw: Forward)
    requires fw in d.forwards && fw.id !in DeletedForwards(d, sel) && !UsesDeletedHost(d, sel)
    requires ForwardOk(d.folders, d.hosts, fw)
    ensures ForwardOk(Without(d, sel).folders, Without(d, sel).hosts, fw)
  {
    var folderId, hostId := (f: Folder) => f.id, (h: SSHHost) => h.id;
    KeepExactly(d.folders, folderId, DeletedFolders(d, sel));
    KeepExactly(d.hosts, hostId, Chosen(sel.hosts));
    var f :| f in d.folders && f.id == fw.folder;
    assert folderId(f) !in DeletedFolders(d, sel) && f in Without(d, sel).folders;
    forall id | id in fw.chain ensures HostExists(Without(d, sel).hosts, id) {
      var h :| h in d.hosts && h.id == id;
      assert StillUsed(d, sel, id) && hostId(h) !in Chosen(sel.hosts);
      assert h in Without(d, sel).hosts;
    }
  }

  /** A route goes with its forward, so what stays still finds it. */
  lemma RoutesStayOk(d: VaultData, sel: Selection)
    requires Distinct(RouteIds(d.routes)) && forall r :: r in d.routes ==> RouteOk(d.forwards, r)
    ensures var kept := Without(d, sel);
      Distinct(RouteIds(kept.routes)) && forall r :: r in kept.routes ==> RouteOk(kept.forwards, r)
  {
    hide HostSelectionOk;
    var id, forward := (r: WebRoute) => r.id, (r: WebRoute) => r.forward;
    var forwardId := (fw: Forward) => fw.id;
    var gone := DeletedForwards(d, sel);
    var kept := Without(d, sel);
    forall i, j | 0 <= i < j < |d.routes| ensures id(d.routes[i]) != id(d.routes[j]) {
      assert RouteIds(d.routes)[i] != RouteIds(d.routes)[j];
    }
    KeepDistinct(d.routes, id, forward, gone);
    KeepExactly(d.routes, forward, gone);
    KeepExactly(d.forwards, forwardId, gone);
    forall r | r in kept.routes ensures RouteOk(kept.forwards, r) {
      assert RouteOk(d.forwards, r) && forward(r) !in gone;
      var fw :| fw in d.forwards && fw.id == r.forward && fw.mode == LOCAL;
      assert forwardId(fw) !in gone && fw in kept.forwards;
    }
  }

  /** A deletion from a valid vault that leaves no dangling host never fails the final check. */
  lemma DeletionStaysValid(d: VaultData, sel: Selection)
    requires Valid(d) && !UsesDeletedHost(d, sel)
    ensures Valid(Without(d, sel))
  {
    hide FolderOk;
    hide ForwardOk;
    hide RouteOk;
    FoldersStayOk(d, sel);
    HostsStayDistinct(d, sel);
    ForwardsStayOk(d, sel);
    RoutesStayOk(d, sel);
  }

  /** Chosen, or directly under a chosen folder. */
  ghost predicate GoneFolder(d: VaultData, sel: Selection, id: int) {
    id in sel.folders || exists f :: f in d.folders && f.id == id && f.parent != 0 && f.parent in sel.folders
  }

  /** Chosen, or in a folder that is gone. */
  ghost predicate GoneForward(d: VaultData, sel: Selection, id: int) {
    id in sel.forwards || exists fw :: fw in d.forwards && fw.id == id && GoneFolder(d, sel, fw.folder)
  }

  lemma GoneExactly(d: VaultData, sel: Selection)
    requires Valid(d)
    ensures forall id :: id in DeletedFolders(d, sel) <==> GoneFolder(d, sel, id)
    ensures forall id :: id in DeletedForwards(d, sel) <==> GoneForward(d, sel, id)
  {
    hide FolderOk;
    hide ForwardOk;
    hide RouteOk;
    OnePassReaches(d.folders, Chosen(sel.folders));
  }

  /**
   * Exactly the chosen folders with everything under them, the chosen forwards, the routes of those forwards
   * and the chosen hosts are gone; all else is kept as it was.
   */
  lemma DeletionIsExact(d: VaultData, sel: Selection)
    requires Valid(d)
    ensures var r := Without(d, sel);
      && (forall f :: f in r.folders <==> f in d.folders && !GoneFolder(d, sel, f.id))
      && (forall fw :: fw in r.forwards <==> fw in d.forwards && !GoneForward(d, sel, fw.id))
      && (forall x :: x in r.routes <==> x in d.routes && !GoneForward(d, sel, x.forward))
      && (forall h :: h in r.hosts <==> h in d.hosts && h.id !in sel.hosts)
      && r.hostKeys == d.hostKeys && r.rest == d.rest
  {
    hide Valid;
    hide GoneFolder;
    hide GoneForward;
    hide DeletedFolders;
    hide DeletedForwards;
    GoneExactly(d, sel);
    KeepExactly(d.folders, (f: Folder) => f.id, DeletedFolders(d, sel));
    KeepExactly(d.hosts, (h: SSHHost) => h.id, Chosen(sel.hosts));
    KeepExactly(d.forwards, (fw: Forward) => fw.id, DeletedForwards(d, sel));
    KeepExactly(d.routes, (r: WebRoute) => r.forward, DeletedForwards(d, sel));
  }

  lemma OnePassReaches(folders: seq<Folder>, deleted: set<int>)
    requires Distinct(FolderIds(folders)) && forall f :: f in folders ==> FolderOk(folders, f)
    ensures forall id :: id in Expand(folders, deleted) <==>
              id in deleted || exists f :: f in folders && f.id == id && f.parent != 0 && f.parent in deleted
  {
    var reach := deleted + set f | f in folders && f.parent != 0 && f.parent in deleted :: f.id;
    OnePassSuffices(folders, deleted);
    SameFolder(folders);
    assert Closed(folders, reach) by {
      forall f | f in folders && f.parent != 0 && f.parent in reach ensures f.id in reach {
        assert FolderOk(folders, f);
      }
    }
  }

  // ---------- The operation ----------

  method ExpandFolders(folders: seq<Folder>, chosen: set<int>, cascade: bool) returns (deleted: set<int>, empty: bool)
    ensures empty <==> cascade || forall f :: f in folders && f.parent != 0 && f.parent in chosen ==> f.id in chosen
    ensures empty ==> deleted == Expand(folders, chosen)
    ensures empty && !cascade ==> deleted == chosen
  {
    deleted := chosen;
    for i := 0 to |folders|
      invariant deleted == Expand(folders[..i], chosen)
      invariant !cascade ==>
                  && deleted == chosen
                  && forall k :: 0 <= k < i && folders[k].parent != 0 && folders[k].parent in chosen ==> folders[k].id in chosen
    {
      var f := folders[i];
      assert folders[..i + 1][..i] == folders[..i];
      if f.parent != 0 && f.parent in deleted && f.id !in deleted {
        if !cascade { return deleted, false; }
        deleted := deleted + {f.id};
      }
      assert deleted == Expand(folders[..i + 1], chosen);
    }
    assert folders[..|folders|] == folders;
    empty := true;
  }

  method ExpandForwards(forwards: seq<Forward>, folders: set<int>, chosen: set<int>, cascade: bool)
    returns (deleted: set<int>, empty: bool)
    ensures empty <==> cascade || forall fw :: fw in forwards && fw.folder in folders ==> fw.id in chosen
    ensures empty ==> deleted == chosen + set fw | fw in forwards && fw.folder in folders :: fw.id
  {
    deleted := chosen;
    for i := 0 to |forwards|
      invariant deleted == chosen + set fw | fw in forwards[..i] && fw.folder in folders :: fw.id
      invariant !cascade ==>
                  deleted == chosen && forall k :: 0 <= k < i && forwards[k].folder in folders ==> forwards[k].id in chosen
    {
      var fw := forwards[i];
      assert forwards[..i + 1] == forwards[..i] + [fw];
      if fw.folder in folders && fw.id !in deleted {
        if !cascade { return deleted, false; }
        deleted := deleted + {fw.id};
      }
    }
    assert forwards[..|forwards|] == forwards;
    empty := true;
  }

  method Remaining(forwards: seq<Forward>, deleted: set<int>) returns (refs: set<int>)
    ensures forall id :: id in refs <==> exists fw :: fw in forwards && fw.id !in deleted && id in fw.chain
  {
    refs := {};
    for i := 0 to |forwards|
      invariant forall id :: id in refs <==> exists fw :: fw in forwards[..i] && fw.id !in deleted && id in fw.chain
    {
      var fw := forwards[i];
      assert forwards[..i + 1] == forwards[..i] + [fw];
      if fw.id !in deleted { refs := refs + set id | id in fw.chain; }
    }
    assert forwards[..|forwards|] == forwards;
  }

  method FilterSeq<T>(s: seq<T>, key: T -> int, deleted: set<int>) returns (kept: seq<T>)
    ensures kept == Keep(s, key, deleted)
  {
    var items := new T[|s|](i requires 0 <= i < |s| => s[i]);
    assert items[..] == s;
    var n := Filter(items, key, deleted);
    kept := items[..n];
  }

  /**
   * Batch deletion as one vault update. It is turned down exactly for an unknown folder, for contents a
   * non-cascading selection would leave behind, and for a host a remaining forward uses; a valid vault is
   * never turned down by the final check, and nothing changes unless the deletion is done.
   */
  method DeleteSelection(store: Store, sel: Selection) returns (outcome: Outcome)
    modifies store
    ensures store.data == if outcome.Done? then Without(old(store.data), sel) else old(store.data)
    ensures outcome.Done? ==> Valid(store.data)
    ensures outcome.FolderNotFound? <==> !AllFound(old(store.data), sel)
    ensures outcome.FolderNotEmpty? <==> AllFound(old(store.data), sel) && !sel.cascade && LeavesContents(old(store.data), sel)
    ensures outcome.HostInUse? <==>
            && AllFound(old(store.data), sel) && (sel.cascade || !LeavesContents(old(store.data), sel))
            && UsesDeletedHost(old(store.data), sel)
    ensures outcome.Refused? ==> !Valid(old(store.data))
  {
    hide Valid;
    var d := store.data;
    var found := CheckFound(d, sel);
    if !found { return FolderNotFound; }
    var folders, noSubfolders := ExpandFolders(d.folders, Chosen(sel.folders), sel.cascade);
    if !noSubfolders { return FolderNotEmpty; }
    var forwards, noForwards := ExpandForwards(d.forwards, folders, Chosen(sel.forwards), sel.cascade);
    if !noForwards { return FolderNotEmpty; }
    var refs := Remaining(d.forwards, forwards);
    assert forall id :: id in refs <==> StillUsed(d, sel, id);
    var used := AnyOf(sel.hosts, refs);
    if used { return HostInUse; }
    outcome := SaveWithout(store, sel, folders, forwards);
  }

  method CheckFound(d: VaultData, sel: Selection) returns (found: bool)
    ensures found <==> AllFound(d, sel)
  {
    for i := 0 to |sel.folders|
      invariant forall k :: 0 <= k < i ==> FolderExists(d.folders, sel.folders[k])
    {
      found := FindFolder(d.folders, sel.folders[i]);
      if !found {
        assert sel.folders[i] in sel.folders;
        return;
      }
    }
    found := true;
  }

  method AnyOf(ids: seq<int>, refs: set<int>) returns (used: bool)
    ensures used <==> exists id :: id in ids && id in refs
  {
    for i := 0 to |ids|
      invariant forall k :: 0 <= k < i ==> ids[k] !in refs
    {
      var id := ids[i];
      if id in refs {
        assert id in ids;
        return true;
      }
    }
    used := false;
  }

  method SaveWithout(store: Store, sel: Selection, folders: set<int>, forwards: set<int>) returns (outcome: Outcome)
    requires folders == DeletedFolders(store.data, sel) && forwards == DeletedForwards(store.data, sel)
    requires !UsesDeletedHost(store.data, sel)
    modifies store
    ensures outcome.Done? || outcome.Refused? || outcome.NotSaved?
    ensures store.data == if outcome.Done? then Without(old(store.data), sel) else old(store.data)
    ensures outcome.Done? ==> Valid(store.data)
    ensures outcome.Refused? ==> !Valid(old(store.data))
  {
    var d := store.data;
    var keptFolders := FilterSeq(d.folders, (f: Folder) => f.id, folders);
    var keptForwards := FilterSeq(d.forwards, (fw: Forward) => fw.id, forwards);
    var keptHosts := FilterSeq(d.hosts, (h: SSHHost) => h.id, Chosen(sel.hosts));
    var keptRoutes := FilterSeq(d.routes, (r: WebRoute) => r.forward, forwards);
    var updated := d.(folders := keptFolders, forwards := keptForwards, hosts := keptHosts, routes := keptRoutes);
    var ok := Validate(updated);
    if !ok {
      if Valid(d) { DeletionStaysValid(d, sel); }
      return Refused;
    }
    var saved := store.Save(updated);
    outcome := if saved then Done else NotSaved;
  }
}
