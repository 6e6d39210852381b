/**
 * Appending import: everything goes under one new top-level folder, all ids are remapped, second-level
 * folders are flattened into their parent, skipped hosts leave the chains and imported routes are disabled.
 *
 * The fold functions say what each loop of the import accumulates; the lemmas ending in Placed, Mapped and
 * Meaning say what that is for the entities of the imported vault.
 */
module ImportRemap {
  import opened Common
  import opened VaultModel

  /** The folder name as typed, and the endpoints the user decided to skip or to rename. */
  datatype Resolution = Resolution(host: string, port: int, user: string, action: string)
  datatype Plan = Plan(folderName: string, resolutions: seq<Resolution>)

  function EndpointKey(host: string, port: int, user: string): string {
    Lower(Trim(host)) + "|" + Decimal(port) + "|" + Trim(user)
  }

  function Key(h: SSHHost): string { EndpointKey(h.host, h.port, h.user) }

  function Keys(hosts: seq<SSHHost>): set<string> { set h | h in hosts :: Key(h) }

  function Resolved(resolutions: seq<Resolution>, action: string): set<string> {
    set r | r in resolutions && r.action == action :: EndpointKey(r.host, r.port, r.user)
  }

  /** The largest id, but at least zero. */
  function Largest(ids: seq<int>): (m: int)
    ensures m >= 0 && forall id :: id in ids ==> id <= m
    ensures m != 0 ==> m in ids
  {
    if ids == [] then 0
    else
      var m := Largest(ids[..|ids| - 1]);
      var last := ids[|ids| - 1];
      assert ids == ids[..|ids| - 1] + [last];
      if last > m then last else m
  }

  function KeyIds(keys: seq<HostKey>): (r: seq<int>)
    ensures |r| == |keys| && forall i :: 0 <= i < |keys| ==> r[i] == keys[i].id
  {
    seq(|keys|, i requires 0 <= i < |keys| => keys[i].id)
  }

  function After(ids: seq<int>): int { Largest(ids) + 1 }

  /** One more than the largest id already used. */
  method NextId(ids: seq<int>) returns (next: int)
    ensures next == After(ids)
  {
    var max := 0;
    for i := 0 to |ids|
      invariant max == Largest(ids[..i])
    {
      assert ids[..i + 1][..i] == ids[..i];
      if ids[i] > max { max := ids[i]; }
    }
    assert ids[..|ids|] == ids;
    next := max + 1;
  }

  // ---------- What the loops accumulate ----------

  /** Appended folders, new ids of top-level folders, and the parents second-level folders dissolve into. */
  datatype Folders = Folders(added: seq<Folder>, ids: map<int, int>, flatten: map<int, int>)

  function AddFolder(acc: Folders, f: Folder, wrapper: int): Folders {
    if f.parent == 0 then
      var id := wrapper + 1 + |acc.added|;
      acc.(added := acc.added + [f.(id := id, parent := wrapper)], ids := acc.ids[f.id := id])
    else acc.(flatten := acc.flatten[f.id := f.parent])
  }

  function FoldFolders(fs: seq<Folder>, wrapper: int): Folders {
    if fs == [] then Folders([], map[], map[])
    else AddFolder(FoldFolders(fs[..|fs| - 1], wrapper), fs[|fs| - 1], wrapper)
  }

  /** Where a forward's folder ends up; a dissolved folder with an unknown parent maps to zero. */
  function FolderTarget(folders: Folders, id: int): Option<int> {
    if id in folders.ids then Some(folders.ids[id])
    else if id in folders.flatten then
      Some(if folders.flatten[id] in folders.ids then folders.ids[folders.flatten[id]] else 0)
    else None
  }

  datatype Hosts = Hosts(added: seq<SSHHost>, ids: map<int, int>)

  function HostImage(h: SSHHost, id: int, renamed: set<string>): SSHHost {
    h.(id := id, name := if Key(h) in renamed then h.name + "-imported" else h.name)
  }

  function AddHost(acc: Hosts, h: SSHHost, base: int, skip: set<string>, renamed: set<string>): Hosts {
    if Key(h) in skip then acc
    else
      var id := base + |acc.added|;
      Hosts(acc.added + [HostImage(h, id, renamed)], acc.ids[h.id := id])
  }

  function FoldHosts(hs: seq<SSHHost>, base: int, skip: set<string>, renamed: set<string>): Hosts {
    if hs == [] then Hosts([], map[])
    else AddHost(FoldHosts(hs[..|hs| - 1], base, skip, renamed), hs[|hs| - 1], base, skip, renamed)
  }

  /** Whether the first host of that id is skipped. */
  predicate Skipped(hosts: seq<SSHHost>, id: int, skip: set<string>) {
    hosts != [] && if hosts[0].id == id then Key(hosts[0]) in skip else Skipped(hosts[1..], id, skip)
  }

  /** The remapped chain, or nothing when it names a host that is neither imported nor skipped. */
  function MapChain(chain: seq<int>, ids: map<int, int>, hosts: seq<SSHHost>, skip: set<string>): Option<seq<int>> {
    if chain == [] then Some([])
    else
      var acc := MapChain(chain[..|chain| - 1], ids, hosts, skip);
      var id := chain[|chain| - 1];
      if acc.None? then None
      else if id in ids then Some(acc.value + [ids[id]])
      else if Skipped(hosts, id, skip) then acc
      else None
  }

  /** What remapping a forward looks up: the folder and host maps, and the imported hosts with the skips. */
  datatype Remap = Remap(folders: Folders, ids: map<int, int>, hosts: seq<SSHHost>, skip: set<string>)

  datatype Forwards = Forwards(added: seq<Forward>, ids: map<int, int>)

  /** What one imported forward becomes under a given id, if anything. */
  function MapForward(fw: Forward, id: int, remap: Remap): (image: Option<Forward>)
    ensures image.Some? ==> image.value.id == id
  {
    var folder := FolderTarget(remap.folders, fw.folder);
    var chain := MapChain(fw.chain, remap.ids, remap.hosts, remap.skip);
    if folder.None? || chain.None? || chain.value == [] then None
    else Some(fw.(id := id, folder := folder.value, chain := chain.value))
  }

  function AddForward(acc: Forwards, fw: Forward, id: int, remap: Remap): Forwards {
    var image := MapForward(fw, id, remap);
    if image.None? then acc else Forwards(acc.added + [image.value], acc.ids[fw.id := id])
  }

  /** Every imported forward uses up an id, also one that is dropped. */
  function FoldForwards(fws: seq<Forward>, base: int, remap: Remap): Forwards {
    if fws == [] then Forwards([], map[])
    else
      var n := |fws| - 1;
      AddForward(FoldForwards(fws[..n], base, remap), fws[n], base + n, remap)
  }

  function RouteImage(r: WebRoute, id: int, forward: int): WebRoute {
    r.(id := id, forward := forward, hostsEnabled := false, caddyEnabled := false)
  }

  function FoldRoutes(rs: seq<WebRoute>, base: int, ids: map<int, int>): seq<WebRoute> {
    if rs == [] then []
    else
      var acc := FoldRoutes(rs[..|rs| - 1], base, ids);
      var r := rs[|rs| - 1];
      if r.forward in ids then acc + [RouteImage(r, base + |acc|, ids[r.forward])] else acc
  }

  predicate HasKey(keys: seq<HostKey>, host: string, port: int) {
    exists k :: k in keys && k.host == host && k.port == port
  }

  function FoldKeys(ks: seq<HostKey>, existing: seq<HostKey>, base: int): seq<HostKey> {
    if ks == [] then []
    else
      var acc := FoldKeys(ks[..|ks| - 1], existing, base);
      var k := ks[|ks| - 1];
      if HasKey(existing + acc, k.host, k.port) then acc else acc + [k.(id := base + |acc|)]
  }

  // ---------- The imported vault ----------

  function Skips(plan: Plan): set<string> { Resolved(plan.resolutions, "skip") }

  function Renames(d: VaultData, plan: Plan): set<string> { Keys(d.hosts) + Resolved(plan.resolutions, "rename") }

  function AllFolders(existing: seq<Folder>, fs: seq<Folder>, name: string): seq<Folder> {
    var wrapper := After(FolderIds(existing));
    existing + [Folder(wrapper, name, 0, 0)] + FoldFolders(fs, wrapper).added
  }

  function HostsOf(d: VaultData, imp: VaultData, plan: Plan): Hosts {
    FoldHosts(imp.hosts, After(HostIds(d.hosts)), Skips(plan), Renames(d, plan))
  }

  function RemapOf(d: VaultData, imp: VaultData, plan: Plan): Remap {
    Remap(FoldFolders(imp.folders, After(FolderIds(d.folders))), HostsOf(d, imp, plan).ids, imp.hosts, Skips(plan))
  }

  function ForwardsOf(d: VaultData, imp: VaultData, plan: Plan): Forwards {
    FoldForwards(imp.forwards, After(ForwardIds(d.forwards)), RemapOf(d, imp, plan))
  }

  function Imported(d: VaultData, imp: VaultData, plan: Plan): VaultData {
    var forwards := ForwardsOf(d, imp, plan);
    d.(folders := AllFolders(d.folders, imp.folders, Trim(plan.folderName)),
       hosts := d.hosts + HostsOf(d, imp, plan).added,
       forwards := d.forwards + forwards.added,
       routes := d.routes + FoldRoutes(imp.routes, After(RouteIds(d.routes)), forwards.ids),
       hostKeys := d.hostKeys + FoldKeys(imp.hostKeys, d.hostKeys, After(KeyIds(d.hostKeys))))
  }

  // ---------- Folders ----------

  function Tops(fs: seq<Folder>): seq<Folder> {
    if fs == [] then []
    else Tops(fs[..|fs| - 1]) + (if fs[|fs| - 1].parent == 0 then [fs[|fs| - 1]] else [])
  }

  /** The top-level folders arrive in order with consecutive ids under the wrapper. */
  lemma {:induction false} FoldersPlaced(fs: seq<Folder>, wrapper: int)
    ensures var acc := FoldFolders(fs, wrapper);
      && |acc.added| == |Tops(fs)|
      && forall i :: 0 <= i < |Tops(fs)| ==> acc.added[i] == Tops(fs)[i].(id := wrapper + 1 + i, parent := wrapper)
  {
    if fs == [] {
    } else {
      FoldersPlaced(fs[..|fs| - 1], wrapper);
    }
  }

  /** A top-level folder is mapped to its image under the wrapper, any other one to its parent only. */
  predicate FolderMapped(acc: Folders, f: Folder, wrapper: int) {
    if f.parent == 0 then
      && f.id in acc.ids
      && wrapper < acc.ids[f.id] <= wrapper + |acc.added|
      && acc.added[acc.ids[f.id] - wrapper - 1] == f.(id := acc.ids[f.id], parent := wrapper)
    else f.id !in acc.ids && f.id in acc.flatten && acc.flatten[f.id] == f.parent
  }

  lemma FolderStaysMapped(acc: Folders, f: Folder, g: Folder, wrapper: int)
    requires f.id != g.id && FolderMapped(acc, f, wrapper)
    ensures FolderMapped(AddFolder(acc, g, wrapper), f, wrapper)
  {
    assert g.parent == 0 ==> acc.added <= AddFolder(acc, g, wrapper).added;
  }

  /** Every imported folder is mapped, and nothing else is. */
  lemma {:induction false} FoldersMapped(fs: seq<Folder>, wrapper: int)
    requires Distinct(FolderIds(fs))
    ensures var acc := FoldFolders(fs, wrapper);
      && (forall id :: id in acc.ids || id in acc.flatten ==> FolderExists(fs, id))
      && forall f :: f in fs ==> FolderMapped(acc, f, wrapper)
  {
    if fs == [] {
    } else {
      var n := |fs| - 1;
      var acc := FoldFolders(fs[..n], wrapper);
      FolderPrefixDistinct(fs, n);
      FoldersMapped(fs[..n], wrapper);
      assert fs == fs[..n] + [fs[n]];
      assert fs[n] in fs && forall id :: FolderExists(fs[..n], id) ==> FolderExists(fs, id);
      assert fs[n].id !in acc.ids && fs[n].id !in acc.flatten;
      assert FolderMapped(AddFolder(acc, fs[n], wrapper), fs[n], wrapper);
      forall f | f in fs[..n] ensures FolderMapped(AddFolder(acc, fs[n], wrapper), f, wrapper) {
        FolderStaysMapped(acc, f, fs[n], wrapper);
      }
    }
  }

  lemma FolderPrefixDistinct(fs: seq<Folder>, n: nat)
    requires n < |fs| && Distinct(FolderIds(fs))
    ensures Distinct(FolderIds(fs[..n]))
    ensures forall f :: f in fs[..n] ==> f.id != fs[n].id
  {
    forall i, j | 0 <= i < j <= n ensures fs[i].id != fs[j].id {
      assert FolderIds(fs)[i] != FolderIds(fs)[j];
    }
  }

  lemma {:induction false} TopsAreFolders(fs: seq<Folder>)
    ensures forall t :: t in Tops(fs) <==> t in fs && t.parent == 0
  {
    if fs == [] {
    } else {
      TopsAreFolders(fs[..|fs| - 1]);
      assert fs == fs[..|fs| - 1] + [fs[|fs| - 1]];
    }
  }

  // ---------- Hosts ----------

  function KeptHosts(hs: seq<SSHHost>, skip: set<string>): seq<SSHHost> {
    if hs == [] then []
    else KeptHosts(hs[..|hs| - 1], skip) + (if Key(hs[|hs| - 1]) in skip then [] else [hs[|hs| - 1]])
  }

  /** The hosts that are not skipped arrive in order with consecutive ids. */
  lemma {:induction false} HostsPlaced(hs: seq<SSHHost>, base: int, skip: set<string>, renamed: set<string>)
    ensures var acc := FoldHosts(hs, base, skip, renamed);
      && |acc.added| == |KeptHosts(hs, skip)|
      && forall i :: 0 <= i < |acc.added| ==>
           var h := KeptHosts(hs, skip)[i];
           acc.added[i] == h.(id := base + i, name := h.name + (if Key(h) in renamed then "-imported" else ""))
  {
    hide Key;
    if hs == [] {
    } else {
      HostsPlaced(hs[..|hs| - 1], base, skip, renamed);
    }
  }

  predicate Resolves(plan: Plan, h: SSHHost, action: string) {
    exists r :: r in plan.resolutions && r.action == action && EndpointKey(r.host, r.port, r.user) == Key(h)
  }

  /**
   * An imported host is left out exactly if a resolution skips its endpoint; otherwise it arrives as it is, under
   * its new id, renamed exactly if the endpoint is taken or a resolution says so.
   */
  lemma HostMeaning(d: VaultData, imp: VaultData, plan: Plan, h: SSHHost)
    requires Distinct(HostIds(imp.hosts)) && h in imp.hosts
    ensures var ids, now := HostsOf(d, imp, plan).ids, Imported(d, imp, plan).hosts;
      && (h.id in ids <==> !Resolves(plan, h, "skip"))
      && (h.id in ids ==>
            && h.(id := ids[h.id],
                  name := h.name + (if Key(h) in Keys(d.hosts) || Resolves(plan, h, "rename") then "-imported" else ""))
               in now[|d.hosts|..]
            && ids[h.id] > Largest(HostIds(d.hosts)))
  {
    hide Key, EndpointKey;
    var acc := HostsOf(d, imp, plan);
    HostsMapped(imp.hosts, After(HostIds(d.hosts)), Skips(plan), Renames(d, plan));
    assert HostMapped(acc, h, After(HostIds(d.hosts)), Skips(plan), Renames(d, plan));
    assert Imported(d, imp, plan).hosts[|d.hosts|..] == acc.added;
    if h.id in acc.ids {
      var g := acc.added[acc.ids[h.id] - After(HostIds(d.hosts))];
      assert h.name + "" == h.name;
      assert g == HostImage(h, acc.ids[h.id], Renames(d, plan)) && g in acc.added;
    }
  }

  lemma HostPrefixDistinct(hs: seq<SSHHost>, n: nat)
    requires n < |hs| && Distinct(HostIds(hs))
    ensures Distinct(HostIds(hs[..n]))
    ensures forall h :: h in hs[..n] ==> h.id != hs[n].id
  {
    forall i, j | 0 <= i < j <= n ensures hs[i].id != hs[j].id {
      assert HostIds(hs)[i] != HostIds(hs)[j];
    }
  }

  predicate HostMapped(acc: Hosts, h: SSHHost, base: int, skip: set<string>, renamed: set<string>) {
    if Key(h) in skip then h.id !in acc.ids
    else
      && h.id in acc.ids
      && base <= acc.ids[h.id] < base + |acc.added|
      && acc.added[acc.ids[h.id] - base] == HostImage(h, acc.ids[h.id], renamed)
  }

  lemma HostStaysMapped(acc: Hosts, h: SSHHost, g: SSHHost, base: int, skip: set<string>, renamed: set<string>)
    requires h.id != g.id && HostMapped(acc, h, base, skip, renamed)
    ensures HostMapped(AddHost(acc, g, base, skip, renamed), h, base, skip, renamed)
  {
    hide Key;
    hide HostImage;
    assert acc.added <= AddHost(acc, g, base, skip, renamed).added;
  }

  /** Every host that is not skipped is mapped to its image, and no other one is mapped. */
  lemma {:induction false} HostsMapped(hs: seq<SSHHost>, base: int, skip: set<string>, renamed: set<string>)
    requires Distinct(HostIds(hs))
    ensures var acc := FoldHosts(hs, base, skip, renamed);
      && (forall id :: id in acc.ids ==> HostExists(hs, id))
      && forall h :: h in hs ==> HostMapped(acc, h, base, skip, renamed)
  {
    hide Key;
    hide HostImage;
    if hs == [] {
    } else {
      var n := |hs| - 1;
      var acc := FoldHosts(hs[..n], base, skip, renamed);
      HostPrefixDistinct(hs, n);
      HostsMapped(hs[..n], base, skip, renamed);
      assert hs == hs[..n] + [hs[n]];
      assert hs[n] in hs && forall id :: HostExists(hs[..n], id) ==> HostExists(hs, id);
      assert hs[n].id !in acc.ids;
      assert HostMapped(AddHost(acc, hs[n], base, skip, renamed), hs[n], base, skip, renamed);
      forall h | h in hs[..n] ensures HostMapped(AddHost(acc, hs[n], base, skip, renamed), h, base, skip, renamed) {
        HostStaysMapped(acc, h, hs[n], base, skip, renamed);
      }
    }
  }

  // ---------- Chains ----------

  predicate IsKept(hosts: seq<SSHHost>, id: int, skip: set<string>) {
    exists h :: h in hosts && h.id == id && Key(h) !in skip
  }

  /** The hops of a chain that are not skipped, in order. */
  function Surviving(chain: seq<int>, hosts: seq<SSHHost>, skip: set<string>): seq<int> {
    if chain == [] then []
    else
      var id := chain[|chain| - 1];
      Surviving(chain[..|chain| - 1], hosts, skip) + (if IsKept(hosts, id, skip) then [id] else [])
  }

  lemma {:induction false} SkippedExactly(hosts: seq<SSHHost>, i: nat, skip: set<string>)
    requires i < |hosts| && Distinct(HostIds(hosts))
    ensures Skipped(hosts, hosts[i].id, skip) <==> Key(hosts[i]) in skip
    ensures IsKept(hosts, hosts[i].id, skip) <==> Key(hosts[i]) !in skip
  {
    hide Key;
    forall k, l | 0 <= k < l < |hosts| ensures hosts[k].id != hosts[l].id {
      assert HostIds(hosts)[k] != HostIds(hosts)[l];
    }
    if i > 0 {
      assert hosts[0].id != hosts[i].id;
      assert forall k :: 0 <= k < |hosts| - 1 ==> HostIds(hosts[1..])[k] == hosts[k + 1].id;
      SkippedExactly(hosts[1..], i - 1, skip);
    }
  }

  /** A chain over known hosts maps hop by hop to its surviving part. */
  lemma {:induction false} ChainImage(chain: seq<int>, hosts: seq<SSHHost>, base: int, skip: set<string>, renamed: set<string>)
    requires Distinct(HostIds(hosts))
    requires forall id :: id in chain ==> HostExists(hosts, id)
    ensures var ids := FoldHosts(hosts, base, skip, renamed).ids;
      var image := MapChain(chain, ids, hosts, skip);
      && image.Some?
      && |image.value| == |Surviving(chain, hosts, skip)|
      && forall i :: 0 <= i < |image.value| ==>
           Surviving(chain, hosts, skip)[i] in ids && image.value[i] == ids[Surviving(chain, hosts, skip)[i]]
  {
    hide Key;
    if chain == [] {
    } else {
      var n := |chain| - 1;
      assert chain[n] in chain;
      ChainImage(chain[..n], hosts, base, skip, renamed);
      var h :| h in hosts && h.id == chain[n];
      var i :| 0 <= i < |hosts| && hosts[i] == h;
      SkippedExactly(hosts, i, skip);
      HostsMapped(hosts, base, skip, renamed);
    }
  }

  lemma {:induction false} SurvivingEmpty(chain: seq<int>, hosts: seq<SSHHost>, skip: set<string>)
    ensures Surviving(chain, hosts, skip) == [] <==> forall id :: id in chain ==> !IsKept(hosts, id, skip)
  {
    if chain == [] {
    } else {
      SurvivingEmpty(chain[..|chain| - 1], hosts, skip);
      assert chain == chain[..|chain| - 1] + [chain[|chain| - 1]];
    }
  }

  // ---------- Forwards ----------

  lemma ForwardPrefixDistinct(fws: seq<Forward>, n: nat)
    requires n < |fws| && Distinct(ForwardIds(fws))
    ensures Distinct(ForwardIds(fws[..n]))
    ensures forall k :: 0 <= k < n ==> fws[k].id != fws[n].id
  {
    forall i, j | 0 <= i < j <= n ensures fws[i].id != fws[j].id {
      assert ForwardIds(fws)[i] != ForwardIds(fws)[j];
    }
  }

  /** A forward is either mapped to its image under an id that fits its position, or dropped. */
  predicate ForwardMapped(acc: Forwards, fw: Forward, id: int, remap: Remap) {
    var image := MapForward(fw, id, remap);
    if image.None? then fw.id !in acc.ids
    else fw.id in acc.ids && acc.ids[fw.id] == id && image.value in acc.added
  }

  lemma ForwardStaysMapped(acc: Forwards, fw: Forward, id: int, g: Forward, gid: int, remap: Remap)
    requires fw.id != g.id && ForwardMapped(acc, fw, id, remap)
    ensures ForwardMapped(AddForward(acc, g, gid, remap), fw, id, remap)
  {
    hide MapForward;
    assert acc.added <= AddForward(acc, g, gid, remap).added;
  }

  lemma {:induction false} ForwardsMapped(fws: seq<Forward>, base: int, remap: Remap)
    requires Distinct(ForwardIds(fws))
    ensures var acc := FoldForwards(fws, base, remap);
      && (forall id :: id in acc.ids ==> exists k :: 0 <= k < |fws| && fws[k].id == id)
      && forall k :: 0 <= k < |fws| ==> ForwardMapped(acc, fws[k], base + k, remap)
  {
    hide MapForward;
    if fws == [] {
    } else {
      var n := |fws| - 1;
      var acc := FoldForwards(fws[..n], base, remap);
      ForwardPrefixDistinct(fws, n);
      ForwardsMapped(fws[..n], base, remap);
      assert fws[n].id !in acc.ids;
      ForwardArrives(acc, fws[n], base + n, remap);
      forall k | 0 <= k < n ensures ForwardMapped(FoldForwards(fws, base, remap), fws[k], base + k, remap) {
        assert ForwardMapped(acc, fws[..n][k], base + k, remap);
        ForwardStaysMapped(acc, fws[k], base + k, fws[n], base + n, remap);
      }
    }
  }

  lemma ForwardArrives(acc: Forwards, fw: Forward, id: int, remap: Remap)
    requires fw.id !in acc.ids
    ensures ForwardMapped(AddForward(acc, fw, id, remap), fw, id, remap)
  {
    hide MapForward;
    var image := MapForward(fw, id, remap);
    if image.Some? { assert AddForward(acc, fw, id, remap).added[|acc.added|] == image.value; }
  }

  /** What is appended comes from a mapped forward, and in the order of the imported ones. */
  lemma {:induction false} ForwardsInOrder(fws: seq<Forward>, base: int, remap: Remap)
    ensures InOrder(FoldForwards(fws, base, remap).added, fws, base, remap)
  {
    hide MapForward;
    if fws == [] {
    } else {
      var n := |fws| - 1;
      var acc := FoldForwards(fws[..n], base, remap);
      ForwardsInOrder(fws[..n], base, remap);
      forall j | 0 <= j < |acc.added| ensures IsImage(fws, base, remap, acc.added[j]) && acc.added[j].id < base + n {
        assert IsImage(fws[..n], base, remap, acc.added[j]);
      }
    }
  }

  predicate InOrder(added: seq<Forward>, fws: seq<Forward>, base: int, remap: Remap) {
    && (forall j :: 0 <= j < |added| ==> IsImage(fws, base, remap, added[j]))
    && (forall j, k :: 0 <= j < k < |added| ==> added[j].id < added[k].id)
  }

  predicate IsImage(fws: seq<Forward>, base: int, remap: Remap, g: Forward) {
    base <= g.id < base + |fws| && MapForward(fws[g.id - base], g.id, remap) == Some(g)
  }

  // ---------- Routes ----------

  function KeptRoutes(rs: seq<WebRoute>, ids: map<int, int>): seq<WebRoute> {
    if rs == [] then []
    else KeptRoutes(rs[..|rs| - 1], ids) + (if rs[|rs| - 1].forward in ids then [rs[|rs| - 1]] else [])
  }

  /** The routes whose forward came along arrive in order with consecutive ids, disabled. */
  lemma {:induction false} RoutesPlaced(rs: seq<WebRoute>, base: int, ids: map<int, int>)
    ensures var added := FoldRoutes(rs, base, ids);
      var kept := KeptRoutes(rs, ids);
      && |added| == |kept|
      && forall i :: 0 <= i < |kept| ==>
           && kept[i] in rs && kept[i].forward in ids && added[i] == RouteImage(kept[i], base + i, ids[kept[i].forward])
  {
    if rs == [] {
    } else {
      RoutesPlaced(rs[..|rs| - 1], base, ids);
      assert rs == rs[..|rs| - 1] + [rs[|rs| - 1]];
    }
  }

  // ---------- Host keys ----------

  /** Keys are only added for endpoints that had none. */
  lemma {:induction false} KeysStayDistinct(ks: seq<HostKey>, existing: seq<HostKey>, base: int)
    requires KeysDistinct(existing)
    ensures KeysDistinct(existing + FoldKeys(ks, existing, base))
  {
    if ks == [] {
    } else {
      var acc := FoldKeys(ks[..|ks| - 1], existing, base);
      KeysStayDistinct(ks[..|ks| - 1], existing, base);
      var k := ks[|ks| - 1];
      if !HasKey(existing + acc, k.host, k.port) {
        var all := existing + acc;
        assert existing + (acc + [k.(id := base + |acc|)]) == all + [k.(id := base + |acc|)];
        assert forall i :: 0 <= i < |all| ==> all[i] in all;
      }
    }
  }

  /** Every imported endpoint has a key afterwards. */
  lemma {:induction false} KeysCovered(ks: seq<HostKey>, existing: seq<HostKey>, base: int)
    ensures forall k :: k in ks ==> HasKey(existing + FoldKeys(ks, existing, base), k.host, k.port)
  {
    if ks == [] {
    } else {
      var n := |ks| - 1;
      var acc, added := FoldKeys(ks[..n], existing, base), FoldKeys(ks, existing, base);
      KeysCovered(ks[..n], existing, base);
      assert ks == ks[..n] + [ks[n]];
      MoreKeys(existing + acc, existing + added);
      if !HasKey(existing + acc, ks[n].host, ks[n].port) {
        assert added[|acc|] in existing + added;
      }
    }
  }

  lemma MoreKeys(some: seq<HostKey>, more: seq<HostKey>)
    requires some <= more
    ensures forall host, port :: HasKey(some, host, port) ==> HasKey(more, host, port)
  {
    assert forall k :: k in some ==> k in more;
  }

  /** A new key is an imported one for an endpoint that had none: existing trust is never overridden. */
  lemma {:induction false} KeysAreNew(ks: seq<HostKey>, existing: seq<HostKey>, base: int)
    ensures AllNew(ks, existing, FoldKeys(ks, existing, base), base)
  {
    if ks == [] {
    } else {
      var n := |ks| - 1;
      var acc, added := FoldKeys(ks[..n], existing, base), FoldKeys(ks, existing, base);
      KeysAreNew(ks[..n], existing, base);
      assert ks == ks[..n] + [ks[n]];
      forall i | 0 <= i < |acc| ensures NewKey(ks, existing, acc[i], base + i) {
        assert NewKey(ks[..n], existing, acc[i], base + i);
      }
      if |added| > |acc| {
        MoreKeys(existing, existing + acc);
        assert ks[n] in ks && added[|acc|] == ks[n].(id := base + |acc|);
      }
    }
  }

  predicate AllNew(ks: seq<HostKey>, existing: seq<HostKey>, added: seq<HostKey>, base: int) {
    forall i :: 0 <= i < |added| ==> NewKey(ks, existing, added[i], base + i)
  }

  predicate NewKey(ks: seq<HostKey>, existing: seq<HostKey>, added: HostKey, id: int) {
    !HasKey(existing, added.host, added.port) && exists k :: k in ks && added == k.(id := id)
  }

  // ---------- The result is well-formed ----------

  lemma FreshIdsStayDistinct(prior: seq<int>, added: seq<int>)
    requires Distinct(prior)
    requires forall i :: 0 <= i < |added| ==> added[i] >= After(prior)
    requires forall i, j :: 0 <= i < j < |added| ==> added[i] < added[j]
    ensures Distinct(prior + added)
  {
    var all := prior + added;
    forall i, j | 0 <= i < j < |all| ensures all[i] != all[j] {
      if i < |prior| { assert prior[i] in prior; }
    }
  }

  lemma FoldersStayValid(existing: seq<Folder>, fs: seq<Folder>, name: string)
    requires Distinct(FolderIds(existing))
    requires forall f :: f in existing ==> FolderOk(existing, f)
    ensures var all := AllFolders(existing, fs, name);
      Distinct(FolderIds(all)) && forall f :: f in all ==> FolderOk(all, f)
  {
    var w := After(FolderIds(existing));
    var wrapper := Folder(w, name, 0, 0);
    var added := FoldFolders(fs, w).added;
    var all := AllFolders(existing, fs, name);
    FoldersPlaced(fs, w);
    assert forall i :: 0 <= i < |added| ==> added[i].id == w + 1 + i;
    assert FolderIds(all) == FolderIds(existing) + FolderIds([wrapper] + added);
    FreshIdsStayDistinct(FolderIds(existing), FolderIds([wrapper] + added));
    assert all[|existing|] == wrapper;
    forall f | f in all ensures FolderOk(all, f) {
      if f in existing {
        FolderStaysOk(existing, all, f);
      } else if f != wrapper {
        var i :| 0 <= i < |added| && added[i] == f;
      }
    }
  }

  lemma FolderStaysOk(existing: seq<Folder>, all: seq<Folder>, f: Folder)
    requires FolderOk(existing, f) && existing <= all
    ensures FolderOk(all, f)
  {
    if f.parent != 0 {
      var g :| g in existing && g.id == f.parent && g.parent == 0;
      assert g in all;
    }
  }

  lemma HostsStayDistinct(existing: seq<SSHHost>, hs: seq<SSHHost>, skip: set<string>, renamed: set<string>)
    requires Distinct(HostIds(existing))
    ensures Distinct(HostIds(existing + FoldHosts(hs, After(HostIds(existing)), skip, renamed).added))
  {
    hide Key;
    var base := After(HostIds(existing));
    var added := FoldHosts(hs, base, skip, renamed).added;
    HostsPlaced(hs, base, skip, renamed);
    assert forall i :: 0 <= i < |added| ==> added[i].id == base + i;
    assert HostIds(existing + added) == HostIds(existing) + HostIds(added);
    FreshIdsStayDistinct(HostIds(existing), HostIds(added));
  }

  /** The top-level folder a folder stands in: itself or its parent. */
  ghost predicate TopOf(fs: seq<Folder>, f: Folder, top: Folder) {
    top in fs && top.parent == 0 && top.id == (if f.parent == 0 then f.id else f.parent)
  }

  /** A folder's target is the image of the top-level folder it stands in, under the wrapper. */
  lemma FolderMeaning(fs: seq<Folder>, wrapper: int, f: Folder)
    requires Distinct(FolderIds(fs)) && (forall g :: g in fs ==> FolderOk(fs, g)) && f in fs
    ensures var folders := FoldFolders(fs, wrapper);
      var target := FolderTarget(folders, f.id);
      && target.Some?
      && exists top :: TopOf(fs, f, top) && top.(id := target.value, parent := wrapper) in folders.added
  {
    var folders := FoldFolders(fs, wrapper);
    FoldersMapped(fs, wrapper);
    assert FolderMapped(folders, f, wrapper) && FolderOk(fs, f);
    var top :| top in fs && top.parent == 0 && top.id == (if f.parent == 0 then f.id else f.parent);
    assert TopOf(fs, f, top) && FolderMapped(folders, top, wrapper);
    assert folders.added[folders.ids[top.id] - wrapper - 1] in folders.added;
  }

  /** A folder of the imported vault always has a target among the new folders. */
  lemma TargetExists(fs: seq<Folder>, wrapper: int, id: int)
    requires Distinct(FolderIds(fs)) && (forall f :: f in fs ==> FolderOk(fs, f)) && FolderExists(fs, id)
    ensures var folders := FoldFolders(fs, wrapper);
      FolderTarget(folders, id).Some? && FolderExists(folders.added, FolderTarget(folders, id).value)
  {
    var f :| f in fs && f.id == id;
    FolderMeaning(fs, wrapper, f);
  }

  lemma HostIdsExist(hs: seq<SSHHost>, base: int, skip: set<string>, renamed: set<string>, id: int)
    requires Distinct(HostIds(hs)) && id in FoldHosts(hs, base, skip, renamed).ids
    ensures HostExists(FoldHosts(hs, base, skip, renamed).added, FoldHosts(hs, base, skip, renamed).ids[id])
  {
    hide Key;
    var hosts := FoldHosts(hs, base, skip, renamed);
    HostsMapped(hs, base, skip, renamed);
    var h :| h in hs && h.id == id;
    assert HostMapped(hosts, h, base, skip, renamed);
    assert hosts.added[hosts.ids[id] - base] in hosts.added;
  }

  /** What the forward keeps of its chain: the new ids of its surviving hops. */
  function NewChain(fw: Forward, remap: Remap): seq<int>
    requires var hops := Surviving(fw.chain, remap.hosts, remap.skip); forall k :: 0 <= k < |hops| ==> hops[k] in remap.ids
  {
    var hops := Surviving(fw.chain, remap.hosts, remap.skip);
    seq(|hops|, k requires 0 <= k < |hops| => remap.ids[hops[k]])
  }

  /** The maps the import builds for a vault whose hosts and folders are in order. */
  ghost predicate Built(remap: Remap, fs: seq<Folder>) {
    && Distinct(FolderIds(fs)) && (forall f :: f in fs ==> FolderOk(fs, f)) && Distinct(HostIds(remap.hosts))
    && (exists wrapper :: remap.folders == FoldFolders(fs, wrapper))
    && exists base, renamed :: remap.ids == FoldHosts(remap.hosts, base, remap.skip, renamed).ids
  }

  /** A forward survives iff one of its hops does; it then keeps everything but ids, under its folder's target. */
  lemma ForwardImage(fw: Forward, id: int, fs: seq<Folder>, remap: Remap)
    requires Built(remap, fs) && ForwardOk(fs, remap.hosts, fw)
    ensures var hops := Surviving(fw.chain, remap.hosts, remap.skip); forall k :: 0 <= k < |hops| ==> hops[k] in remap.ids
    ensures FolderTarget(remap.folders, fw.folder).Some?
    ensures MapForward(fw, id, remap) ==
            if Surviving(fw.chain, remap.hosts, remap.skip) == [] then None
            else Some(fw.(id := id, folder := FolderTarget(remap.folders, fw.folder).value, chain := NewChain(fw, remap)))
  {
    hide Key;
    hide FolderTarget;
    var wrapper :| remap.folders == FoldFolders(fs, wrapper);
    TargetExists(fs, wrapper, fw.folder);
    var base, renamed :| remap.ids == FoldHosts(remap.hosts, base, remap.skip, renamed).ids;
    ChainImage(fw.chain, remap.hosts, base, remap.skip, renamed);
    assert MapChain(fw.chain, remap.ids, remap.hosts, remap.skip).value == NewChain(fw, remap);
  }

  /** What every appended forward needs to be accepted. */
  lemma AddedForwardOk(fw: Forward, newId: int, fs: seq<Folder>, remap: Remap, hosts: seq<SSHHost>)
    requires Built(remap, fs) && ForwardOk(fs, remap.hosts, fw)
    requires forall hop :: hop in remap.ids ==> HostExists(hosts, remap.ids[hop])
    ensures var image := MapForward(fw, newId, remap); image.Some? ==> ForwardOk(remap.folders.added, hosts, image.value)
  {
    hide Key;
    hide FolderTarget;
    hide MapForward;
    ForwardImage(fw, newId, fs, remap);
    var wrapper :| remap.folders == FoldFolders(fs, wrapper);
    TargetExists(fs, wrapper, fw.folder);
    var hops := Surviving(fw.chain, remap.hosts, remap.skip);
    if hops == [] {
    } else {
      var chain := NewChain(fw, remap);
      assert |chain| == |hops| && forall k :: 0 <= k < |hops| ==> chain[k] == remap.ids[hops[k]];
      var image := MapForward(fw, newId, remap).value;
      assert image.chain == chain;
      forall hop | hop in image.chain ensures HostExists(hosts, hop) {
        var k :| 0 <= k < |chain| && chain[k] == hop;
        var id := hops[k];
        assert id in remap.ids;
        assert HostExists(hosts, remap.ids[id]);
        assert remap.ids[id] == hop;
      }
    }
  }

  /** Nothing that refers to existing entities notices others around them. */
  lemma ForwardStaysOk(folders: seq<Folder>, hosts: seq<SSHHost>, moreFolders: seq<Folder>, moreHosts: seq<SSHHost>, fw: Forward)
    requires ForwardOk(folders, hosts, fw)
    requires forall f :: f in folders ==> f in moreFolders
    requires forall h :: h in hosts ==> h in moreHosts
    ensures ForwardOk(moreFolders, moreHosts, fw)
  {
    var f :| f in folders && f.id == fw.folder;
    assert f in moreFolders;
    forall id | id in fw.chain ensures HostExists(moreHosts, id) {
      var h :| h in hosts && h.id == id;
      assert h in moreHosts;
    }
  }

  lemma ImportBuilds(d: VaultData, imp: VaultData, plan: Plan)
    requires Valid(imp)
    ensures Built(RemapOf(d, imp, plan), imp.folders)
    ensures forall hop :: hop in RemapOf(d, imp, plan).ids ==>
              HostExists(HostsOf(d, imp, plan).added, RemapOf(d, imp, plan).ids[hop])
  {
    hide Key;
    hide ForwardOk;
    hide RouteOk;
    forall hop | hop in RemapOf(d, imp, plan).ids
      ensures HostExists(HostsOf(d, imp, plan).added, RemapOf(d, imp, plan).ids[hop])
    {
      HostIdsExist(imp.hosts, After(HostIds(d.hosts)), Skips(plan), Renames(d, plan), hop);
    }
  }

  lemma ForwardsStayDistinct(existing: seq<Forward>, fws: seq<Forward>, remap: Remap)
    requires Distinct(ForwardIds(existing))
    ensures Distinct(ForwardIds(existing + FoldForwards(fws, After(ForwardIds(existing)), remap).added))
  {
    hide MapForward;
    var added := FoldForwards(fws, After(ForwardIds(existing)), remap).added;
    ForwardsInOrder(fws, After(ForwardIds(existing)), remap);
    assert ForwardIds(existing + added) == ForwardIds(existing) + ForwardIds(added);
    FreshIdsStayDistinct(ForwardIds(existing), ForwardIds(added));
  }

  lemma ForwardsStayOk(d: VaultData, imp: VaultData, plan: Plan)
    requires Valid(d) && Valid(imp)
    ensures var r := Imported(d, imp, plan);
      forall fw :: fw in r.forwards ==> ForwardOk(r.folders, r.hosts, fw)
  {
    hide Key;
    hide ForwardOk;
    hide RouteOk;
    hide MapForward;
    hide FoldFolders;
    hide FoldHosts;
    var r := Imported(d, imp, plan);
    var remap := RemapOf(d, imp, plan);
    var base := After(ForwardIds(d.forwards));
    ImportBuilds(d, imp, plan);
    ForwardsInOrder(imp.forwards, base, remap);
    forall fw | fw in r.forwards ensures ForwardOk(r.folders, r.hosts, fw) {
      if fw in d.forwards {
        ForwardStaysOk(d.folders, d.hosts, r.folders, r.hosts, fw);
      } else {
        assert IsImage(imp.forwards, base, remap, fw);
        AddedForwardOk(imp.forwards[fw.id - base], fw.id, imp.folders, remap, HostsOf(d, imp, plan).added);
        ForwardStaysOk(remap.folders.added, HostsOf(d, imp, plan).added, r.folders, r.hosts, fw);
      }
    }
  }

  lemma AddedRouteOk(r: WebRoute, id: int, fws: seq<Forward>, base: int, remap: Remap)
    requires Distinct(ForwardIds(fws)) && RouteOk(fws, r) && r.forward in FoldForwards(fws, base, remap).ids
    ensures var acc := FoldForwards(fws, base, remap); RouteOk(acc.added, RouteImage(r, id, acc.ids[r.forward]))
  {
    hide FolderTarget;
    hide MapChain;
    var acc := FoldForwards(fws, base, remap);
    ForwardsMapped(fws, base, remap);
    var k :| 0 <= k < |fws| && fws[k].id == r.forward && fws[k].mode == LOCAL;
    assert ForwardMapped(acc, fws[k], base + k, remap);
    assert MapForward(fws[k], base + k, remap).value.mode == LOCAL;
  }

  lemma RoutesStayDistinct(existing: seq<WebRoute>, rs: seq<WebRoute>, ids: map<int, int>)
    requires Distinct(RouteIds(existing))
    ensures Distinct(RouteIds(existing + FoldRoutes(rs, After(RouteIds(existing)), ids)))
  {
    var base := After(RouteIds(existing));
    var added := FoldRoutes(rs, base, ids);
    RoutesPlaced(rs, base, ids);
    assert forall i :: 0 <= i < |added| ==> added[i].id == base + i;
    assert RouteIds(existing + added) == RouteIds(existing) + RouteIds(added);
    FreshIdsStayDistinct(RouteIds(existing), RouteIds(added));
  }

  lemma AddedRoutesOk(rs: seq<WebRoute>, first: int, fws: seq<Forward>, base: int, remap: Remap)
    requires Distinct(ForwardIds(fws)) && forall r :: r in rs ==> RouteOk(fws, r)
    ensures var acc := FoldForwards(fws, base, remap);
      forall r :: r in FoldRoutes(rs, first, acc.ids) ==> RouteOk(acc.added, r)
  {
    hide RouteOk;
    hide FoldForwards;
    var acc := FoldForwards(fws, base, remap);
    var added := FoldRoutes(rs, first, acc.ids);
    var kept := KeptRoutes(rs, acc.ids);
    RoutesPlaced(rs, first, acc.ids);
    forall r | r in added ensures RouteOk(acc.added, r) {
      var i :| 0 <= i < |added| && added[i] == r;
      AddedRouteOk(kept[i], first + i, fws, base, remap);
    }
  }

  lemma RouteStaysOk(forwards: seq<Forward>, more: seq<Forward>, r: WebRoute)
    requires RouteOk(forwards, r)
    requires forall fw :: fw in forwards ==> fw in more
    ensures RouteOk(more, r)
  {
    var fw :| fw in forwards && fw.id == r.forward && fw.mode == LOCAL;
    assert fw in more;
  }

  /** Importing a valid vault into a valid one never fails the final check. */
  lemma ImportStaysValid(d: VaultData, imp: VaultData, plan: Plan)
    requires Valid(d) && Valid(imp)
    ensures Valid(Imported(d, imp, plan))
  {
    hide Key;
    hide ForwardOk;
    hide RouteOk;
    hide FolderOk;
    hide FoldRoutes;
    FoldersStayValid(d.folders, imp.folders, Trim(plan.folderName));
    HostsStayDistinct(d.hosts, imp.hosts, Skips(plan), Renames(d, plan));
    ForwardsStayDistinct(d.forwards, imp.forwards, RemapOf(d, imp, plan));
    ForwardsStayOk(d, imp, plan);
    var forwards := ForwardsOf(d, imp, plan);
    var r := Imported(d, imp, plan);
    RoutesStayDistinct(d.routes, imp.routes, forwards.ids);
    AddedRoutesOk(imp.routes, After(RouteIds(d.routes)), imp.forwards, After(ForwardIds(d.forwards)), RemapOf(d, imp, plan));
    forall x | x in r.routes ensures RouteOk(r.forwards, x) {
      RouteStaysOk(if x in d.routes then d.forwards else forwards.added, r.forwards, x);
    }
    KeysStayDistinct(imp.hostKeys, d.hostKeys, After(KeyIds(d.hostKeys)));
  }

  // ---------- The result means the same ----------

  ghost predicate Injective(m: map<int, int>) { forall a, b :: a in m && b in m && m[a] == m[b] ==> a == b }

  lemma {:induction false} FolderIdsInjective(fs: seq<Folder>, wrapper: int)
    ensures var acc := FoldFolders(fs, wrapper);
      Injective(acc.ids) && forall id :: id in acc.ids ==> acc.ids[id] <= wrapper + |acc.added|
  {
    if fs == [] {
    } else {
      FolderIdsInjective(fs[..|fs| - 1], wrapper);
    }
  }

  lemma {:induction false} HostIdsInjective(hs: seq<SSHHost>, base: int, skip: set<string>, renamed: set<string>)
    ensures var acc := FoldHosts(hs, base, skip, renamed);
      Injective(acc.ids) && forall id :: id in acc.ids ==> acc.ids[id] < base + |acc.added|
  {
    hide Key;
    if hs == [] {
    } else {
      HostIdsInjective(hs[..|hs| - 1], base, skip, renamed);
    }
  }

  /** Folders, hosts and forwards never share a new id. */
  lemma MapsInjective(d: VaultData, imp: VaultData, plan: Plan)
    requires Distinct(ForwardIds(imp.forwards))
    ensures var remap := RemapOf(d, imp, plan);
      Injective(remap.folders.ids) && Injective(remap.ids) && Injective(ForwardsOf(d, imp, plan).ids)
  {
    hide Key;
    hide MapForward;
    FolderIdsInjective(imp.folders, After(FolderIds(d.folders)));
    HostIdsInjective(imp.hosts, After(HostIds(d.hosts)), Skips(plan), Renames(d, plan));
    var acc := ForwardsOf(d, imp, plan);
    var base := After(ForwardIds(d.forwards));
    ForwardsMapped(imp.forwards, base, RemapOf(d, imp, plan));
    forall a, b | a in acc.ids && b in acc.ids && acc.ids[a] == acc.ids[b] ensures a == b {
      var i :| 0 <= i < |imp.forwards| && imp.forwards[i].id == a;
      var j :| 0 <= j < |imp.forwards| && imp.forwards[j].id == b;
      assert ForwardMapped(acc, imp.forwards[i], base + i, RemapOf(d, imp, plan));
      assert ForwardMapped(acc, imp.forwards[j], base + j, RemapOf(d, imp, plan));
    }
  }

  /**
   * A forward is dropped iff every host of its chain is skipped; otherwise it arrives with its own fields,
   * in the image of its folder, its chain being the images of the hops that are left.
   */
  lemma ForwardMeaning(imp: VaultData, k: nat, base: int, remap: Remap)
    requires Valid(imp) && k < |imp.forwards| && Built(remap, imp.folders) && remap.hosts == imp.hosts
    ensures var fw := imp.forwards[k];
      var acc := FoldForwards(imp.forwards, base, remap);
      var hops := Surviving(fw.chain, imp.hosts, remap.skip);
      && (forall i :: 0 <= i < |hops| ==> hops[i] in remap.ids)
      && FolderTarget(remap.folders, fw.folder).Some?
      && (fw.id !in acc.ids <==> forall hop :: hop in fw.chain ==> !IsKept(imp.hosts, hop, remap.skip))
      && (fw.id in acc.ids ==>
            && acc.ids[fw.id] == base + k
            && fw.(id := base + k, folder := FolderTarget(remap.folders, fw.folder).value, chain := NewChain(fw, remap))
               in acc.added)
  {
    hide Key;
    hide RouteOk;
    hide FolderTarget;
    hide MapForward;
    hide NewChain;
    hide IsKept;
    hide FolderOk;
    hide Built;
    var fw := imp.forwards[k];
    assert ForwardOk(imp.folders, imp.hosts, fw);
    SurvivingEmpty(fw.chain, imp.hosts, remap.skip);
    ForwardImage(fw, base + k, imp.folders, remap);
    ForwardsMapped(imp.forwards, base, remap);
    assert ForwardMapped(FoldForwards(imp.forwards, base, remap), imp.forwards[k], base + k, remap);
  }

  lemma {:induction false} KeptExactly(rs: seq<WebRoute>, ids: map<int, int>)
    ensures forall r :: r in KeptRoutes(rs, ids) <==> r in rs && r.forward in ids
  {
    if rs == [] {
    } else {
      KeptExactly(rs[..|rs| - 1], ids);
      assert rs == rs[..|rs| - 1] + [rs[|rs| - 1]];
    }
  }

  /** A route is dropped iff its forward is; the others arrive in order, unchanged but for ids, and disabled. */
  lemma RouteMeaning(d: VaultData, imp: VaultData, plan: Plan)
    ensures var ids := ForwardsOf(d, imp, plan).ids;
      var kept := KeptRoutes(imp.routes, ids);
      var added := Imported(d, imp, plan).routes[|d.routes|..];
      && (forall r :: r in kept <==> r in imp.routes && r.forward in ids)
      && |added| == |kept|
      && forall i :: 0 <= i < |kept| ==>
           && kept[i].forward in ids
           && added[i] == kept[i].(id := added[i].id, forward := ids[kept[i].forward],
                                   hostsEnabled := false, caddyEnabled := false)
  {
    hide MapForward;
    var ids := ForwardsOf(d, imp, plan).ids;
    RoutesPlaced(imp.routes, After(RouteIds(d.routes)), ids);
    KeptExactly(imp.routes, ids);
    var added := FoldRoutes(imp.routes, After(RouteIds(d.routes)), ids);
    assert Imported(d, imp, plan).routes[|d.routes|..] == added;
  }

  // ---------- The loops ----------

  method FolderLoop(existing: seq<Folder>, fs: seq<Folder>, name: string)
    returns (all: seq<Folder>, ids: map<int, int>, dissolved: map<int, int>)
    ensures all == AllFolders(existing, fs, name)
    ensures var maps := FoldFolders(fs, After(FolderIds(existing)));
      && ids == maps.ids
      && dissolved.Keys == maps.flatten.Keys
      && forall id :: id in dissolved ==> dissolved[id] == if maps.flatten[id] in ids then ids[maps.flatten[id]] else 0
  {
    ghost var wrapper := After(FolderIds(existing));
    var next := NextId(FolderIds(existing));
    all := existing + [Folder(next, name, 0, 0)];
    var parent := next;
    next := next + 1;
    var flatten := map[];
    ids := map[];
    ghost var added := [];
    for i := 0 to |fs|
      invariant Folders(added, ids, flatten) == FoldFolders(fs[..i], wrapper)
      invariant all == existing + [Folder(wrapper, name, 0, 0)] + added
      invariant next == wrapper + 1 + |added|
    {
      var f := fs[i];
      assert fs[..i + 1][..i] == fs[..i];
      if f.parent == 0 {
        var image := f.(id := next, parent := parent);
        next := next + 1;
        ids := ids[f.id := image.id];
        all := all + [image];
        added := added + [image];
      } else {
        flatten := flatten[f.id := f.parent];
      }
    }
    assert fs[..|fs|] == fs;
    dissolved := map id | id in flatten :: if flatten[id] in ids then ids[flatten[id]] else 0;
  }

  method HostLoop(existing: seq<SSHHost>, hs: seq<SSHHost>, skip: set<string>, rename: set<string>)
    returns (all: seq<SSHHost>, ids: map<int, int>)
    ensures var hosts := FoldHosts(hs, After(HostIds(existing)), skip, Keys(existing) + rename);
      all == existing + hosts.added && ids == hosts.ids
  {
    hide EndpointKey;
    ghost var base := After(HostIds(existing));
    ghost var renamed := Keys(existing) + rename;
    var next := NextId(HostIds(existing));
    var endpoints := Keys(existing);
    all := existing;
    ids := map[];
    ghost var added := [];
    for i := 0 to |hs|
      invariant Hosts(added, ids) == FoldHosts(hs[..i], base, skip, renamed)
      invariant all == existing + added
      invariant next == base + |added|
    {
      var h := hs[i];
      var key := Key(h);
      assert hs[..i + 1][..i] == hs[..i];
      if key !in skip {
        var image := h.(id := next);
        next := next + 1;
        if key in endpoints || key in rename {
          image := image.(name := h.name + "-imported");
        }
        assert image == HostImage(h, image.id, renamed);
        ids := ids[h.id := image.id];
        all := all + [image];
        added := added + [image];
      }
    }
    assert hs[..|hs|] == hs;
  }

  method IsSkipped(hosts: seq<SSHHost>, id: int, skip: set<string>) returns (skipped: bool)
    ensures skipped == Skipped(hosts, id, skip)
  {
    hide Key;
    for i := 0 to |hosts|
      invariant Skipped(hosts, id, skip) == Skipped(hosts[i..], id, skip)
    {
      assert hosts[i..][1..] == hosts[i + 1..];
      if hosts[i].id == id { return Key(hosts[i]) in skip; }
    }
    skipped := false;
  }

  method ChainLoop(hops: seq<int>, ids: map<int, int>, hosts: seq<SSHHost>, skip: set<string>)
    returns (chain: seq<int>, broken: bool)
    ensures MapChain(hops, ids, hosts, skip) == if broken then None else Some(chain)
  {
    chain, broken := [], false;
    var i := 0;
    while i < |hops| && !broken
      invariant 0 <= i <= |hops|
      invariant MapChain(hops[..i], ids, hosts, skip) == if broken then None else Some(chain)
    {
      assert hops[..i + 1][..i] == hops[..i];
      if hops[i] in ids {
        chain := chain + [ids[hops[i]]];
      } else {
        var skipped := IsSkipped(hosts, hops[i], skip);
        broken := !skipped;
      }
      i := i + 1;
    }
    if broken { BrokenStaysBroken(hops, i, ids, hosts, skip); }
    assert hops[..|hops|] == hops;
  }

  lemma {:induction false} BrokenStaysBroken(hops: seq<int>, i: nat, ids: map<int, int>, hosts: seq<SSHHost>, skip: set<string>)
    requires i <= |hops| && MapChain(hops[..i], ids, hosts, skip).None?
    ensures MapChain(hops, ids, hosts, skip).None?
  {
    if i < |hops| {
      assert hops[..|hops| - 1][..i] == hops[..i];
      BrokenStaysBroken(hops[..|hops| - 1], i, ids, hosts, skip);
    } else {
      assert hops[..i] == hops;
    }
  }

  method ForwardLoop(existing: seq<Forward>, fws: seq<Forward>, folders: map<int, int>, dissolved: map<int, int>,
                     ids: map<int, int>, hosts: seq<SSHHost>, skip: set<string>, ghost remap: Remap)
    returns (all: seq<Forward>, newIds: map<int, int>)
    requires remap.ids == ids && remap.hosts == hosts && remap.skip == skip && remap.folders.ids == folders
    requires dissolved.Keys == remap.folders.flatten.Keys
    requires forall id :: id in dissolved ==>
               dissolved[id] == if remap.folders.flatten[id] in folders then folders[remap.folders.flatten[id]] else 0
    ensures var acc := FoldForwards(fws, After(ForwardIds(existing)), remap);
      all == existing + acc.added && newIds == acc.ids
  {
    ghost var base := After(ForwardIds(existing));
    var next := NextId(ForwardIds(existing));
    all := existing;
    newIds := map[];
    ghost var added := [];
    for i := 0 to |fws|
      invariant Forwards(added, newIds) == FoldForwards(fws[..i], base, remap)
      invariant all == existing + added
      invariant next == base + i
    {
      var fw := fws[i];
      var id := next;
      next := next + 1;
      assert fws[..i + 1][..i] == fws[..i];
      if fw.folder in folders || fw.folder in dissolved {
        var target := if fw.folder in folders then folders[fw.folder] else dissolved[fw.folder];
        assert FolderTarget(remap.folders, fw.folder) == Some(target);
        var chain, broken := ChainLoop(fw.chain, ids, hosts, skip);
        if !broken && chain != [] {
          var image := fw.(id := id, folder := target, chain := chain);
          newIds := newIds[fw.id := id];
          all := all + [image];
          added := added + [image];
        }
      }
    }
    assert fws[..|fws|] == fws;
  }

  method RouteLoop(existing: seq<WebRoute>, rs: seq<WebRoute>, ids: map<int, int>) returns (all: seq<WebRoute>)
    ensures all == existing + FoldRoutes(rs, After(RouteIds(existing)), ids)
  {
    ghost var base := After(RouteIds(existing));
    var next := NextId(RouteIds(existing));
    all := existing;
    ghost var added := [];
    for i := 0 to |rs|
      invariant added == FoldRoutes(rs[..i], base, ids)
      invariant all == existing + added
      invariant next == base + |added|
    {
      var r := rs[i];
      assert rs[..i + 1][..i] == rs[..i];
      if r.forward in ids {
        var image := r.(id := next, forward := ids[r.forward]);
        next := next + 1;
        if image.hostsEnabled || image.caddyEnabled {
          image := image.(hostsEnabled := false, caddyEnabled := false);
        }
        all := all + [image];
        added := added + [image];
      }
    }
    assert rs[..|rs|] == rs;
  }

  method KeyLoop(existing: seq<HostKey>, ks: seq<HostKey>) returns (all: seq<HostKey>)
    ensures all == existing + FoldKeys(ks, existing, After(KeyIds(existing)))
  {
    hide HasKey;
    ghost var base := After(KeyIds(existing));
    var next := NextId(KeyIds(existing));
    all := existing;
    ghost var added := [];
    for i := 0 to |ks|
      invariant added == FoldKeys(ks[..i], existing, base)
      invariant all == existing + added
      invariant next == base + |added|
    {
      var k := ks[i];
      assert ks[..i + 1][..i] == ks[..i];
      if !HasKey(all, k.host, k.port) {
        all := all + [k.(id := next)];
        added := added + [k.(id := next)];
        next := next + 1;
      }
    }
    assert ks[..|ks|] == ks;
  }

  /** All that was there is still there, first and unchanged. */
  predicate Extends(d: VaultData, r: VaultData) {
    && d.folders <= r.folders && d.hosts <= r.hosts && d.forwards <= r.forwards && d.routes <= r.routes
    && d.hostKeys <= r.hostKeys && d.rest == r.rest
  }

  datatype Outcome = Done | FolderNameRequired | Refused | NotSaved

  /**
   * The whole import as one vault update. A valid backup into a valid vault is turned down only for a blank
   * folder name or because the vault cannot be written, and then nothing changes.
   */
  method ApplyStagedImport(store: Store, imp: VaultData, plan: Plan) returns (outcome: Outcome)
    modifies store
    ensures store.data == if outcome.Done? then Imported(old(store.data), imp, plan) else old(store.data)
    ensures outcome.FolderNameRequired? <==> Trim(plan.folderName) == ""
    ensures outcome.Refused? ==> !Valid(old(store.data)) || !Valid(imp)
    ensures outcome.Done? ==> Valid(store.data) && Extends(old(store.data), store.data)
  {
    hide EndpointKey;
    hide Trim;
    var name := Trim(plan.folderName);
    if name == "" { return FolderNameRequired; }
    var skip := Skips(plan);
    var rename := Resolved(plan.resolutions, "rename");
    var d := store.data;
    var folders, folderIds, dissolved := FolderLoop(d.folders, imp.folders, name);
    var hosts, hostIds := HostLoop(d.hosts, imp.hosts, skip, rename);
    var forwards, forwardIds :=
      ForwardLoop(d.forwards, imp.forwards, folderIds, dissolved, hostIds, imp.hosts, skip, RemapOf(d, imp, plan));
    var routes := RouteLoop(d.routes, imp.routes, forwardIds);
    var hostKeys := KeyLoop(d.hostKeys, imp.hostKeys);
    var updated := d.(folders := folders, hosts := hosts, forwards := forwards, routes := routes, hostKeys := hostKeys);
    var ok := Validate(updated);
    if !ok {
      if Valid(d) && Valid(imp) { ImportStaysValid(d, imp, plan); }
      return Refused;
    }
    var saved := store.Save(updated);
    outcome := if saved then Done else NotSaved;
  }
}
