/** The vault's data graph and the well-formedness every write path re-checks before saving. */
module VaultModel {
  import opened Common

  datatype Folder = Folder(id: int, name: string, parent: int, sort: int)

  /** `rest` stands for the fields no operation here looks at. */
  datatype SSHHost = SSHHost(id: int, name: string, host: string, port: int, user: string, rest: nat)

  datatype Forward = Forward(id: int, folder: int, name: string, mode: string, chain: seq<int>, localPort: int, rest: nat)

  datatype WebRoute = WebRoute(
    id: int,
    forward: int,
    domain: string,
    hostsEnabled: bool,
    caddyEnabled: bool,
    scheme: string,
    tlsSni: string,
    hostMode: string,
    upstreamHost: string,
    removeProxyHeaders: bool)

  datatype HostKey = HostKey(id: int, host: string, port: int, rest: nat)

  datatype VaultData = VaultData(
    folders: seq<Folder>,
    hosts: seq<SSHHost>,
    forwards: seq<Forward>,
    routes: seq<WebRoute>,
    hostKeys: seq<HostKey>,
    rest: nat)

  const LOCAL := "local"
  const REMOTE := "remote"
  const DYNAMIC := "dynamic"

  const ORIGINAL := "original"
  const TLS_SNI := "tls_sni"
  const CUSTOM := "custom"

  // ---------- Routes ----------

  function EffectiveMode(r: WebRoute): string {
    if Trim(r.hostMode) != "" then r.hostMode
    else if Trim(r.upstreamHost) != "" then CUSTOM
    else ORIGINAL
  }

  predicate KnownScheme(scheme: string) { scheme == "https" || scheme == "http" || scheme == "" }

  /** The Host selection a route of a known scheme must have. */
  predicate HostSelectionOk(r: WebRoute) {
    var mode := EffectiveMode(r);
    || mode == ORIGINAL
    || (mode == TLS_SNI && r.scheme == "https")
    || (mode == CUSTOM && Trim(r.upstreamHost) != "")
  }

  // ---------- Well-formedness ----------

  ghost predicate Distinct(ids: seq<int>) { forall i, j :: 0 <= i < j < |ids| ==> ids[i] != ids[j] }

  function FolderIds(s: seq<Folder>): (r: seq<int>)
    ensures |r| == |s| && forall i :: 0 <= i < |s| ==> r[i] == s[i].id
  {
    seq(|s|, i requires 0 <= i < |s| => s[i].id)
  }

  function HostIds(s: seq<SSHHost>): (r: seq<int>)
    ensures |r| == |s| && forall i :: 0 <= i < |s| ==> r[i] == s[i].id
  {
    seq(|s|, i requires 0 <= i < |s| => s[i].id)
  }

  function ForwardIds(s: seq<Forward>): (r: seq<int>)
    ensures |r| == |s| && forall i :: 0 <= i < |s| ==> r[i] == s[i].id
  {
    seq(|s|, i requires 0 <= i < |s| => s[i].id)
  }

  function RouteIds(s: seq<WebRoute>): (r: seq<int>)
    ensures |r| == |s| && forall i :: 0 <= i < |s| ==> r[i] == s[i].id
  {
    seq(|s|, i requires 0 <= i < |s| => s[i].id)
  }

  ghost predicate IdsDistinct(d: VaultData) {
    && Distinct(FolderIds(d.folders)) && Distinct(HostIds(d.hosts))
    && Distinct(ForwardIds(d.forwards)) && Distinct(RouteIds(d.routes))
  }

  ghost predicate TopFolder(folders: seq<Folder>, id: int) {
    exists g :: g in folders && g.id == id && g.parent == 0
  }

  /** At most two levels: a folder is top-level or hangs under a top-level one. */
  ghost predicate FolderOk(folders: seq<Folder>, f: Folder) { f.parent == 0 || TopFolder(folders, f.parent) }

  ghost predicate FolderExists(folders: seq<Folder>, id: int) { exists f :: f in folders && f.id == id }

  ghost predicate HostExists(hosts: seq<SSHHost>, id: int) { exists h :: h in hosts && h.id == id }

  ghost predicate ForwardOk(folders: seq<Folder>, hosts: seq<SSHHost>, fw: Forward) {
    && (fw.mode == LOCAL || fw.mode == REMOTE || fw.mode == DYNAMIC)
    && FolderExists(folders, fw.folder)
    && fw.chain != []
    && forall id :: id in fw.chain ==> HostExists(hosts, id)
  }

  ghost predicate LocalForward(forwards: seq<Forward>, id: int) {
    exists fw :: fw in forwards && fw.id == id && fw.mode == LOCAL
  }

  ghost predicate RouteOk(forwards: seq<Forward>, r: WebRoute) {
    && LocalForward(forwards, r.forward)
    && (r.scheme == "https" ==> r.tlsSni != "")
    && (KnownScheme(r.scheme) ==> HostSelectionOk(r))
  }

  ghost predicate KeysDistinct(keys: seq<HostKey>) {
    forall i, j :: 0 <= i < j < |keys| ==> keys[i].host != keys[j].host || keys[i].port != keys[j].port
  }

  /** What VaultData.Validate accepts. */
  ghost predicate Valid(d: VaultData) {
    && IdsDistinct(d)
    && (forall f :: f in d.folders ==> FolderOk(d.folders, f))
    && (forall fw :: fw in d.forwards ==> ForwardOk(d.folders, d.hosts, fw))
    && (forall r :: r in d.routes ==> RouteOk(d.forwards, r))
    && KeysDistinct(d.hostKeys)
  }

  // ---------- The check itself ----------

  method CheckDistinct(ids: seq<int>) returns (ok: bool)
    ensures ok <==> Distinct(ids)
  {
    var seen: set<int> := {};
    for i := 0 to |ids|
      invariant forall id :: id in seen <==> id in ids[..i]
      invariant Distinct(ids[..i])
    {
      if ids[i] in seen {
        assert !Distinct(ids) by {
          var j :| 0 <= j < i && ids[..i][j] == ids[i];
          assert ids[j] == ids[i];
        }
        return false;
      }
      seen := seen + {ids[i]};
      assert ids[..i + 1] == ids[..i] + [ids[i]];
    }
    assert ids[..|ids|] == ids;
    ok := true;
  }

  method CheckFolders(folders: seq<Folder>) returns (ok: bool)
    ensures ok <==> forall f :: f in folders ==> FolderOk(folders, f)
  {
    var top: set<int> := {};
    for i := 0 to |folders|
      invariant forall id :: id in top <==> exists g :: g in folders[..i] && g.id == id && g.parent == 0
    {
      if folders[i].parent == 0 {
        top := top + {folders[i].id};
      }
      assert folders[..i + 1] == folders[..i] + [folders[i]];
    }
    assert folders[..|folders|] == folders;
    assert forall id :: id in top <==> TopFolder(folders, id);
    for i := 0 to |folders|
      invariant forall k :: 0 <= k < i ==> FolderOk(folders, folders[k])
    {
      if folders[i].parent != 0 && folders[i].parent !in top {
        assert !FolderOk(folders, folders[i]);
        return false;
      }
    }
    ok := true;
  }

  method FindFolder(folders: seq<Folder>, id: int) returns (found: bool)
    ensures found <==> FolderExists(folders, id)
  {
    for i := 0 to |folders|
      invariant forall k :: 0 <= k < i ==> folders[k].id != id
    {
      if folders[i].id == id { return true; }
    }
    found := false;
  }

  method CheckForwards(d: VaultData) returns (ok: bool)
    ensures ok <==> forall fw :: fw in d.forwards ==> ForwardOk(d.folders, d.hosts, fw)
  {
    var known: set<int> := set h | h in d.hosts :: h.id;
    for i := 0 to |d.forwards|
      invariant forall k :: 0 <= k < i ==> ForwardOk(d.folders, d.hosts, d.forwards[k])
    {
      var fw := d.forwards[i];
      var placed := FindFolder(d.folders, fw.folder);
      if !(fw.mode == LOCAL || fw.mode == REMOTE || fw.mode == DYNAMIC) || !placed || fw.chain == [] {
        assert !ForwardOk(d.folders, d.hosts, fw);
        return false;
      }
      for j := 0 to |fw.chain|
        invariant forall k :: 0 <= k < j ==> HostExists(d.hosts, fw.chain[k])
      {
        if fw.chain[j] !in known {
          assert !HostExists(d.hosts, fw.chain[j]);
          assert !ForwardOk(d.folders, d.hosts, fw);
          return false;
        }
      }
    }
    ok := true;
  }

  /** The last forward of an id decides its mode, hence the need for distinct ids. */
  method CheckRoutes(forwards: seq<Forward>, routes: seq<WebRoute>) returns (ok: bool)
    requires Distinct(ForwardIds(forwards))
    ensures ok <==> forall r :: r in routes ==> RouteOk(forwards, r)
  {
    var modes: map<int, string> := map[];
    for i := 0 to |forwards|
      invariant forall id :: id in modes ==> exists k :: 0 <= k < i && forwards[k].id == id && forwards[k].mode == modes[id]
      invariant forall k :: 0 <= k < i ==> forwards[k].id in modes && modes[forwards[k].id] == forwards[k].mode
    {
      assert forall k :: 0 <= k < i ==> ForwardIds(forwards)[k] != ForwardIds(forwards)[i];
      modes := modes[forwards[i].id := forwards[i].mode];
    }
    assert forall id :: (id in modes && modes[id] == LOCAL) <==> LocalForward(forwards, id);
    for i := 0 to |routes|
      invariant forall k :: 0 <= k < i ==> RouteOk(forwards, routes[k])
    {
      var r := routes[i];
      if r.forward !in modes || modes[r.forward] != LOCAL {
        assert !RouteOk(forwards, r);
        return false;
      }
      if r.scheme == "https" && r.tlsSni == "" {
        assert !RouteOk(forwards, r);
        return false;
      }
      if r.scheme == "https" || r.scheme == "http" || r.scheme == "" {
        var mode := EffectiveMode(r);
        if mode == ORIGINAL {
        } else if mode == TLS_SNI {
          if r.scheme != "https" {
            assert !RouteOk(forwards, r);
            return false;
          }
        } else if mode == CUSTOM {
          if Trim(r.upstreamHost) == "" {
            assert !RouteOk(forwards, r);
            return false;
          }
        } else {
          assert !RouteOk(forwards, r);
          return false;
        }
      }
    }
    ok := true;
  }

  method CheckKeys(keys: seq<HostKey>) returns (ok: bool)
    ensures ok <==> KeysDistinct(keys)
  {
    var seen: set<(string, int)> := {};
    for i := 0 to |keys|
      invariant forall p :: p in seen <==> exists k :: 0 <= k < i && p == (keys[k].host, keys[k].port)
      invariant KeysDistinct(keys[..i])
    {
      if (keys[i].host, keys[i].port) in seen {
        var k :| 0 <= k < i && (keys[i].host, keys[i].port) == (keys[k].host, keys[k].port);
        assert !KeysDistinct(keys);
        return false;
      }
      seen := seen + {(keys[i].host, keys[i].port)};
    }
    assert keys[..|keys|] == keys;
    ok := true;
  }

  /** Accepts exactly the valid vaults. */
  method Validate(d: VaultData) returns (ok: bool)
    ensures ok <==> Valid(d)
  {
    var a := CheckDistinct(FolderIds(d.folders));
    var b := CheckDistinct(HostIds(d.hosts));
    var c := CheckDistinct(ForwardIds(d.forwards));
    var e := CheckDistinct(RouteIds(d.routes));
    if !a || !b || !c || !e { return false; }
    ok := CheckFolders(d.folders);
    if !ok { return; }
    ok := CheckForwards(d);
    if !ok { return; }
    ok := CheckRoutes(d.forwards, d.routes);
    if !ok { return; }
    ok := CheckKeys(d.hostKeys);
  }

  // ---------- The store ----------

  /** The vault on disk. An update works on a copy and replaces the stored vault only when it is accepted. */
  class Store {
    var data: VaultData

    /** The atomic write, which may fail. */
    method Save(d: VaultData) returns (ok: bool)
      modifies this
      ensures data == if ok then d else old(data)
    {
      ok := *;
      if ok { data := d; }
    }
  }
}
