/**
 * Changing a route in two steps: a preview stages the complete candidate under a one-time token without
 * touching the stored vault, and a commit saves exactly that candidate or nothing.
 */
module RouteChange {
  import opened Common
  import opened VaultModel
  import RoutePlan
  import ImportRemap
  import Catalog

  datatype Flag = HostsEnabled | CaddyEnabled | OtherFlag

  datatype Intent =
    | Upsert(route: Option<WebRoute>)
    | SetFlag(id: int, flag: Flag, enabled: bool)
    | Delete(id: int)
    | OtherAction

  // ---------- What an intent asks for ----------

  /** The first route of that id, or the length. */
  function RouteIndex(routes: seq<WebRoute>, id: int): (i: nat)
    ensures i <= |routes| && (i < |routes| ==> routes[i].id == id)
    ensures forall k :: 0 <= k < i ==> routes[k].id != id
  {
    if routes == [] || routes[0].id == id then 0 else 1 + RouteIndex(routes[1..], id)
  }

  function NormalizeHost(r: WebRoute): WebRoute {
    var trimmed := r.(hostMode := Trim(r.hostMode), upstreamHost := Trim(r.upstreamHost));
    var mode := EffectiveMode(trimmed);
    trimmed.(hostMode := mode, upstreamHost := if mode == CUSTOM then trimmed.upstreamHost else "")
  }

  /** Lower case, trimmed, http by default; Caddy turns the hosts entry on. */
  function Normalize(r: WebRoute): WebRoute {
    var n := NormalizeText(r);
    if n.caddyEnabled then n.(hostsEnabled := true) else n
  }

  function NormalizeText(r: WebRoute): WebRoute {
    NormalizeHost(r.(domain := Trim(Lower(r.domain)), tlsSni := Trim(r.tlsSni),
                     scheme := if r.scheme == "" then "http" else r.scheme))
  }

  /** The direct save goes the other way: without a hosts entry there is no Caddy. */
  function NormalizeForSave(r: WebRoute): WebRoute {
    var n := NormalizeText(r);
    if n.hostsEnabled then n else n.(caddyEnabled := false)
  }

  /** Turning the hosts entry off turns Caddy off, turning Caddy on turns the hosts entry on. */
  function WithFlag(r: WebRoute, flag: Flag, enabled: bool): WebRoute {
    match flag
    case HostsEnabled => r.(hostsEnabled := enabled, caddyEnabled := r.caddyEnabled && enabled)
    case CaddyEnabled => r.(caddyEnabled := enabled, hostsEnabled := r.hostsEnabled || enabled)
    case OtherFlag => r
  }

  /** A route without an id is new and gets the next one; otherwise the id must exist. */
  function Put(routes: seq<WebRoute>, route: WebRoute): Option<seq<WebRoute>> {
    var i := RouteIndex(routes, route.id);
    if route.id == 0 then Some(routes + [route.(id := ImportRemap.After(RouteIds(routes)))])
    else if i == |routes| then None
    else Some(routes[i := route])
  }

  function Edited(routes: seq<WebRoute>, intent: Intent): Option<seq<WebRoute>> {
    match intent
    case Upsert(payload) => if payload.None? then None else Put(routes, Normalize(payload.value))
    case SetFlag(id, flag, enabled) =>
      var i := RouteIndex(routes, id);
      if i == |routes| || flag.OtherFlag? then None else Some(routes[i := WithFlag(routes[i], flag, enabled)])
    case Delete(id) =>
      var i := RouteIndex(routes, id);
      if i == |routes| then None else Some(routes[..i] + routes[i + 1..])
    case OtherAction => None
  }

  /** What saving a payload leaves: its fields trimmed, never Caddy without hosts, and nothing else turned on or off. */
  lemma NormalizedMeaning(r: WebRoute)
    ensures var n := Normalize(r);
      && n.id == r.id && n.forward == r.forward && n.removeProxyHeaders == r.removeProxyHeaders
      && n.domain == Trim(Lower(r.domain)) && n.tlsSni == Trim(r.tlsSni)
      && n.scheme == (if r.scheme == "" then "http" else r.scheme)
      && n.caddyEnabled == r.caddyEnabled && n.hostsEnabled == (r.hostsEnabled || r.caddyEnabled)
    ensures var n := Normalize(r);
      && n.hostMode == (if Trim(r.hostMode) != "" then Trim(r.hostMode)
                        else if Trim(r.upstreamHost) != "" then CUSTOM else ORIGINAL)
      && n.upstreamHost == (if n.hostMode == CUSTOM then Trim(r.upstreamHost) else "")
  {
    TrimTwice(r.hostMode);
    TrimTwice(r.upstreamHost);
  }

  /** The direct save drops Caddy instead of turning hosts on, and agrees in everything else. */
  lemma NormalizedForSaveMeaning(r: WebRoute)
    ensures var n, m := NormalizeForSave(r), Normalize(r);
      && n == m.(hostsEnabled := r.hostsEnabled, caddyEnabled := r.caddyEnabled && r.hostsEnabled)
  {
    hide Trim, Lower;
  }

  lemma IndexMeaning(routes: seq<WebRoute>, id: int)
    ensures RouteIndex(routes, id) == |routes| <==> id !in RouteIds(routes)
  {
    var i := RouteIndex(routes, id);
    if i < |routes| { assert RouteIds(routes)[i] == id; }
  }

  /** The only ways an intent is turned down before the vault is checked. */
  lemma EditRefusedIff(routes: seq<WebRoute>, intent: Intent)
    ensures Edited(routes, intent).None? <==>
      match intent
      case Upsert(payload) => payload.None? || (payload.value.id != 0 && payload.value.id !in RouteIds(routes))
      case SetFlag(id, flag, _) => flag.OtherFlag? || id !in RouteIds(routes)
      case Delete(id) => id !in RouteIds(routes)
      case OtherAction => true
  {
    hide NormalizeText, RouteIndex;
    match intent {
      case Upsert(payload) =>
        if payload.Some? { NormalizeKeepsId(payload.value); IndexMeaning(routes, payload.value.id); }
      case SetFlag(id, _, _) => IndexMeaning(routes, id);
      case Delete(id) => IndexMeaning(routes, id);
      case OtherAction =>
    }
  }

  lemma NormalizeKeepsId(r: WebRoute)
    ensures Normalize(r).id == r.id
  {
  }

  /** All routes but one are the same ones in the same order. */
  predicate OnlyAt(was: seq<WebRoute>, now: seq<WebRoute>, i: nat) {
    i < |was| == |now| && now[..i] == was[..i] && now[i + 1..] == was[i + 1..]
  }

  predicate Added(was: seq<WebRoute>, now: seq<WebRoute>, r: WebRoute) {
    && |now| == |was| + 1 && now[..|was|] == was
    && now[|was|] == r.(id := now[|was|].id) && forall k :: 0 <= k < |was| ==> was[k].id < now[|was|].id
  }

  predicate Removed(was: seq<WebRoute>, now: seq<WebRoute>, id: int, i: nat) {
    && i < |was| == |now| + 1 && was[i].id == id && now[..i] == was[..i] && now[i..] == was[i + 1..]
    && forall k :: 0 <= k < |now| ==> now[k].id != id
  }

  lemma PutMeaning(routes: seq<WebRoute>, r: WebRoute)
    requires Put(routes, r).Some?
    ensures var now := Put(routes, r).value;
      if r.id == 0 then Added(routes, now, r)
      else exists i: nat :: OnlyAt(routes, now, i) && routes[i].id == r.id && now[i] == r
  {
    var now := Put(routes, r).value;
    if r.id == 0 {
      forall k | 0 <= k < |routes| ensures routes[k].id < ImportRemap.After(RouteIds(routes)) {
        assert RouteIds(routes)[k] in RouteIds(routes);
      }
    } else {
      assert OnlyAt(routes, now, RouteIndex(routes, r.id));
    }
  }

  lemma DeleteMeaning(routes: seq<WebRoute>, id: int)
    requires Distinct(RouteIds(routes)) && Edited(routes, Delete(id)).Some?
    ensures exists i: nat :: Removed(routes, Edited(routes, Delete(id)).value, id, i)
  {
    var i := RouteIndex(routes, id);
    var now := Edited(routes, Delete(id)).value;
    forall k | 0 <= k < |now| ensures now[k].id != id {
      var at := if k < i then k else k + 1;
      assert now[k] == routes[at] && RouteIds(routes)[i] == id && RouteIds(routes)[at] == now[k].id;
    }
    assert Removed(routes, now, id, i);
  }

  /** What an intent does: one route added under an id above all others, one changed, or one gone. */
  lemma EditMeaning(routes: seq<WebRoute>, intent: Intent)
    requires Distinct(RouteIds(routes)) && Edited(routes, intent).Some?
    ensures var now := Edited(routes, intent).value;
      match intent
      case Upsert(payload) =>
        && payload.Some?
        && if payload.value.id == 0 then Added(routes, now, Normalize(payload.value))
           else exists i: nat ::
             OnlyAt(routes, now, i) && routes[i].id == payload.value.id && now[i] == Normalize(payload.value)
      case SetFlag(id, flag, on) =>
        exists i: nat :: OnlyAt(routes, now, i) && routes[i].id == id && Flagged(routes[i], flag, on, now[i])
      case Delete(id) => exists i: nat :: Removed(routes, now, id, i)
      case OtherAction => false
  {
    hide NormalizeText, Added, Removed;
    var now := Edited(routes, intent).value;
    match intent {
      case Upsert(payload) =>
        NormalizeKeepsId(payload.value);
        PutMeaning(routes, Normalize(payload.value));
      case SetFlag(id, flag, on) =>
        assert OnlyAt(routes, now, RouteIndex(routes, id));
      case Delete(id) =>
        DeleteMeaning(routes, id);
    }
  }

  /** The flag is as asked, the other one follows only where the rule needs it, and the rest is untouched. */
  predicate Flagged(was: WebRoute, flag: Flag, on: bool, now: WebRoute) {
    && now == was.(hostsEnabled := now.hostsEnabled, caddyEnabled := now.caddyEnabled)
    && match flag
       case HostsEnabled => now.hostsEnabled == on && now.caddyEnabled == (was.caddyEnabled && on)
       case CaddyEnabled => now.caddyEnabled == on && now.hostsEnabled == (was.hostsEnabled || on)
       case OtherFlag => false
  }

  /** The candidate: the edited routes if the vault stays valid with them. */
  ghost function Intended(d: VaultData, intent: Intent): Option<VaultData> {
    var routes := Edited(d.routes, intent);
    if routes.None? || !Valid(d.(routes := routes.value)) then None else Some(d.(routes := routes.value))
  }

  /** The revision is a digest of the vault without its secrets; digests are injective. */
  datatype Revision = Revision(
    folders: seq<Folder>, hosts: seq<SSHHost>, forwards: seq<Forward>, routes: seq<WebRoute>, hostKeys: seq<HostKey>)

  function RevisionOf(d: VaultData): Revision {
    Revision(d.folders, seq(|d.hosts|, i requires 0 <= i < |d.hosts| => d.hosts[i].(rest := 0)),
             d.forwards, d.routes, d.hostKeys)
  }

  /** Secrets do not show in the revision, and everything else it covers does. */
  lemma RevisionMeaning(d: VaultData, e: VaultData)
    ensures RevisionOf(d) == RevisionOf(e) <==>
      && d.folders == e.folders && d.forwards == e.forwards && d.routes == e.routes && d.hostKeys == e.hostKeys
      && |d.hosts| == |e.hosts| && forall i :: 0 <= i < |d.hosts| ==> e.hosts[i] == d.hosts[i].(rest := e.hosts[i].rest)
  {
    if RevisionOf(d) == RevisionOf(e) {
      forall i | 0 <= i < |d.hosts| ensures |e.hosts| == |d.hosts| && e.hosts[i] == d.hosts[i].(rest := e.hosts[i].rest) {
        assert RevisionOf(d).hosts[i] == RevisionOf(e).hosts[i];
      }
      assert |e.hosts| == |RevisionOf(e).hosts|;
    }
  }

  /** Secrets do not matter to well-formedness. */
  lemma ValidByRevision(d: VaultData, e: VaultData)
    requires RevisionOf(d) == RevisionOf(e) && Valid(d)
    ensures Valid(e)
  {
    hide FolderOk;
    hide RouteOk;
    forall i | 0 <= i < |d.hosts| ensures |e.hosts| == |d.hosts| && e.hosts[i].id == d.hosts[i].id {
      assert RevisionOf(d).hosts[i] == RevisionOf(e).hosts[i];
    }
    assert |e.hosts| == |RevisionOf(e).hosts|;
    assert HostIds(d.hosts) == HostIds(e.hosts);
    forall fw | fw in e.forwards ensures ForwardOk(e.folders, e.hosts, fw) {
      assert ForwardOk(d.folders, d.hosts, fw);
      forall id | id in fw.chain ensures HostExists(e.hosts, id) {
        var h :| h in d.hosts && h.id == id;
        var i :| 0 <= i < |d.hosts| && d.hosts[i] == h;
        assert e.hosts[i] in e.hosts;
      }
    }
  }

  /** Under one revision an intent has one outcome: the routes it was previewed with, and all else as it is. */
  lemma SameRevisionSameRoutes(seen: VaultData, now: VaultData, intent: Intent)
    requires RevisionOf(seen) == RevisionOf(now) && Intended(seen, intent).Some?
    ensures Intended(now, intent) == Some(now.(routes := Intended(seen, intent).value.routes))
  {
    hide Valid;
    var routes := Edited(seen.routes, intent).value;
    ValidByRevision(seen.(routes := routes), now.(routes := routes));
  }

  /** No edit leaves a route with Caddy but without its hosts entry. */
  lemma EditKeepsCaddyImpliesHosts(routes: seq<WebRoute>, intent: Intent)
    requires RoutePlan.CaddyImpliesHosts(routes) && Edited(routes, intent).Some?
    ensures RoutePlan.CaddyImpliesHosts(Edited(routes, intent).value)
  {
    hide NormalizeText;
  }

  /** Nor does an import, whose routes are all disabled, or a deletion. */
  lemma OtherWritesKeepCaddyImpliesHosts(d: VaultData, imp: VaultData, plan: ImportRemap.Plan, sel: Catalog.Selection)
    requires RoutePlan.CaddyImpliesHosts(d.routes)
    ensures RoutePlan.CaddyImpliesHosts(ImportRemap.Imported(d, imp, plan).routes)
    ensures RoutePlan.CaddyImpliesHosts(Catalog.Without(d, sel).routes)
  {
    ImportRemap.RoutesPlaced(imp.routes, ImportRemap.After(RouteIds(d.routes)), ImportRemap.ForwardsOf(d, imp, plan).ids);
    Catalog.KeepExactly(d.routes, (r: WebRoute) => r.forward, Catalog.DeletedForwards(d, sel));
  }

  /** The direct save keeps a valid vault valid, or changes nothing, and never breaks that rule either. */
  method SaveWebRoute(store: Store, r: WebRoute) returns (saved: bool)
    modifies store
    ensures !saved ==> store.data == old(store.data)
    ensures saved ==>
              && Valid(store.data)
              && Put(old(store.data).routes, NormalizeForSave(r)) == Some(store.data.routes)
              && store.data == old(store.data).(routes := store.data.routes)
    ensures RoutePlan.CaddyImpliesHosts(old(store.data).routes) ==> RoutePlan.CaddyImpliesHosts(store.data.routes)
  {
    hide Valid;
    hide NormalizeText;
    var d := store.data;
    var route := NormalizeForSave(r);
    var routes := d.routes;
    if route.id == 0 {
      var id := ImportRemap.NextId(RouteIds(routes));
      routes := routes + [route.(id := id)];
    } else {
      var i := RouteIndex(routes, route.id);
      if i == |routes| { return false; }
      routes := routes[i := route];
    }
    var updated := d.(routes := routes);
    saved := Validate(updated);
    if saved { saved := store.Save(updated); }
  }

  // ---------- Editing in place ----------

  method FindRoute(routes: array<WebRoute>, id: int) returns (i: nat)
    ensures i == RouteIndex(routes[..], id)
  {
    i := 0;
    while i < routes.Length && routes[i].id != id
      invariant i <= routes.Length
      invariant RouteIndex(routes[..], id) == i + RouteIndex(routes[i..], id)
    {
      assert routes[i..][1..] == routes[i + 1..];
      i := i + 1;
    }
  }

  method Append(routes: array<WebRoute>, route: WebRoute) returns (after: array<WebRoute>)
    ensures after[..] == routes[..] + [route]
    ensures fresh(after)
  {
    after := new WebRoute[routes.Length + 1](i requires 0 <= i < routes.Length + 1 reads routes =>
      if i < routes.Length then routes[i] else route);
  }

  /** Closes the gap at `at` by moving the later routes one place to the front. */
  method ShiftDown(routes: array<WebRoute>, at: nat)
    requires at < routes.Length
    modifies routes
    ensures routes[..routes.Length - 1] == old(routes[..at]) + old(routes[at + 1..])
  {
    for i := at to routes.Length - 1
      invariant forall k :: 0 <= k < at ==> routes[k] == old(routes[k])
      invariant forall k :: at <= k < i ==> routes[k] == old(routes[k + 1])
      invariant forall k :: i <= k < routes.Length ==> routes[k] == old(routes[k])
    {
      routes[i] := routes[i + 1];
    }
  }

  /** The edit works on the slice it is given: also a refused one may have changed it. */
  method EditInPlace(routes: array<WebRoute>, intent: Intent) returns (after: array<WebRoute>, n: nat, ok: bool)
    modifies routes
    ensures after == routes || fresh(after)
    ensures ok <==> Edited(old(routes[..]), intent).Some?
    ensures ok ==> n <= after.Length && after[..n] == Edited(old(routes[..]), intent).value
  {
    hide Normalize;
    after, n, ok := routes, routes.Length, true;
    match intent
    case Upsert(payload) =>
      if payload.None? { return after, n, false; }
      var route := Normalize(payload.value);
      if route.id == 0 {
        var id := ImportRemap.NextId(RouteIds(routes[..]));
        after := Append(routes, route.(id := id));
        n := after.Length;
      } else {
        var i := FindRoute(routes, route.id);
        if i == routes.Length { return after, n, false; }
        routes[i] := route;
      }
    case SetFlag(id, flag, enabled) =>
      var i := FindRoute(routes, id);
      if i == routes.Length || flag.OtherFlag? { return after, n, false; }
      routes[i] := WithFlag(routes[i], flag, enabled);
    case Delete(id) =>
      var i := FindRoute(routes, id);
      if i == routes.Length { return after, n, false; }
      ShiftDown(routes, i);
      n := n - 1;
    case OtherAction =>
      ok := false;
  }

  // ---------- Preview and commit ----------

  /** What a preview found: the vault it edited is known by its revision only. */
  datatype Stage = Stage(
    expires: int, desired: Revision, applied: nat, intent: Intent, candidate: VaultData,
    required: seq<string>, caTrustNeeded: bool, caFingerprint: Option<nat>)

  /** The route an intent is about; a deletion leaves none, which reads as id zero. */
  function ChangedId(routes: seq<WebRoute>, intent: Intent): int {
    match intent
    case Upsert(payload) =>
      if payload.None? then 0 else if payload.value.id == 0 then ImportRemap.After(RouteIds(routes)) else payload.value.id
    case SetFlag(id, _, _) => id
    case Delete(_) => 0
    case OtherAction => 0
  }

  /** The domain to confirm, if the changed route puts a domain outside the local suffixes into the hosts file. */
  function Required(routes: seq<WebRoute>, id: int): seq<string> {
    if routes == [] then []
    else
      var r := routes[|routes| - 1];
      if r.id == id && r.hostsEnabled && !RoutePlan.IsLocalDomain(r.domain) then [r.domain]
      else Required(routes[..|routes| - 1], id)
  }

  ghost predicate StagedFrom(seen: VaultData, stage: Stage) {
    && RevisionOf(seen) == stage.desired && Intended(seen, stage.intent) == Some(stage.candidate)
    && stage.required == Required(stage.candidate.routes, ChangedId(seen.routes, stage.intent))
  }

  /** The candidate is what the intent makes of some vault of the staged revision. */
  ghost predicate Staged(stage: Stage) { exists seen :: StagedFrom(seen, stage) }

  lemma {:induction false} RequiredIsChanged(routes: seq<WebRoute>, r: WebRoute)
    requires Distinct(RouteIds(routes)) && r in routes && r.hostsEnabled && !RoutePlan.IsLocalDomain(r.domain)
    ensures Required(routes, r.id) == [r.domain]
  {
    hide RoutePlan.IsLocalDomain;
    var n := |routes| - 1;
    assert routes == routes[..n] + [routes[n]];
    forall i, j | 0 <= i < j <= n ensures routes[i].id != routes[j].id {
      assert RouteIds(routes)[i] != RouteIds(routes)[j];
    }
    if routes[n] != r {
      var k :| 0 <= k < n && routes[k] == r;
      RequiredIsChanged(routes[..n], r);
    }
  }

  /** A changed route that overrides a public domain is saved only with that very domain confirmed. */
  lemma OverridesAreConfirmed(seen: VaultData, stage: Stage, confirmed: seq<string>, r: WebRoute)
    requires StagedFrom(seen, stage) && Confirms(confirmed, stage.required)
    requires r in stage.candidate.routes && r.id == ChangedId(seen.routes, stage.intent)
    requires r.hostsEnabled && !RoutePlan.IsLocalDomain(r.domain)
    ensures exists c :: c in confirmed && Lower(Trim(c)) == Lower(r.domain)
  {
    hide RoutePlan.IsLocalDomain;
    hide Edited;
    RequiredIsChanged(stage.candidate.routes, r);
    assert r.domain in stage.required;
  }

  /** Whether the compiled desired state needs the local CA trusted, and which one that is. */
  datatype SystemPreview = SystemPreview(caTrustNeeded: bool, caFingerprint: Option<nat>)

  datatype Outcome = Saved | Rejected | Errored

  const STAGE_TTL := 300

  /** Confirmed domains are compared trimmed and without regard to case. */
  predicate Confirms(confirmed: seq<string>, required: seq<string>) {
    forall r :: r in required ==> exists c :: c in confirmed && Lower(Trim(c)) == Lower(r)
  }

  /** The local CA is as it was previewed, if that mattered. */
  predicate SameCA(stage: Stage, system: Option<SystemPreview>) {
    stage.caFingerprint.Some? ==>
      && system.Some? && system.value.caFingerprint == stage.caFingerprint
      && system.value.caTrustNeeded == stage.caTrustNeeded
  }

  class RouteChanges {
    /** The stored vault; its routes live in the array that readers share. */
    var data: VaultData
    var routes: array<WebRoute>
    var applied: nat
    var stages: map<nat, Stage>
    var nextToken: nat
    /** The tokens that have saved. */
    ghost var used: set<nat>

    ghost function Vault(): VaultData
      reads this, routes
    {
      data.(routes := routes[..])
    }

    ghost predicate Valid()
      reads `stages, `nextToken, `used
    {
      && (forall t :: t in stages ==> t < nextToken && t !in used && Staged(stages[t]))
      && forall t :: t in used ==> t < nextToken
    }

    /** Any other writer of the vault and of the applied route state. */
    method Elsewhere()
      modifies `data, `routes, `applied
      ensures fresh(routes)
    {
      data, applied := *, *;
      var n: nat := *;
      var content: seq<WebRoute> := *;
      routes := new WebRoute[|content|](i requires 0 <= i < |content| => content[i]);
    }

    method CopyRoutes() returns (copy: array<WebRoute>)
      ensures fresh(copy) && copy[..] == routes[..]
    {
      copy := new WebRoute[routes.Length](i requires 0 <= i < routes.Length reads this, routes => routes[i]);
    }

    /**
     * Stages the candidate of the present vault under a fresh token, replacing any older stage. The stored
     * vault is the same afterwards, whatever the edit did to the slice it worked on. `appliedReadable` says
     * whether the applied route state can be read, `system` what compiling and looking at the local CA yields.
     */
    method Preview(intent: Intent, expected: Option<Revision>, now: int, appliedReadable: bool,
                   system: Option<SystemPreview>)
      returns (token: Option<nat>)
      requires Valid()
      modifies `stages, `nextToken
      ensures Valid() && routes[..] == old(routes[..]) && Vault() == old(Vault()) && used == old(used)
      ensures token.Some? <==>
                && (expected.Some? ==> expected.value == RevisionOf(Vault()))
                && appliedReadable && Intended(Vault(), intent).Some? && system.Some?
      ensures token.None? ==> stages == old(stages)
      ensures token.Some? ==>
                && token.value !in old(stages) && stages.Keys == {token.value}
                && var stage := stages[token.value];
                   && stage.desired == RevisionOf(Vault()) && stage.intent == intent && stage.expires == now + STAGE_TTL
                   && StagedFrom(Vault(), stage) && stage.applied == applied
                   && stage.caTrustNeeded == system.value.caTrustNeeded && stage.caFingerprint == system.value.caFingerprint
    {
      hide VaultModel.Valid;
      hide RevisionOf;
      hide Edited;
      hide Required;
      hide ChangedId;
      var seen := data.(routes := routes[..]);
      var desired := RevisionOf(seen);
      if expected.Some? && expected.value != desired { return None; }
      if !appliedReadable { return None; }
      var copy := CopyRoutes();
      var after, n, ok := EditInPlace(copy, intent);
      if !ok { return None; }
      var candidate := data.(routes := after[..n]);
      var valid := Validate(candidate);
      if !valid { return None; }
      if system.None? { return None; }
      var required := Required(candidate.routes, ChangedId(seen.routes, intent));
      var stage := Stage(now + STAGE_TTL, desired, applied, intent, candidate,
                         required, system.value.caTrustNeeded, system.value.caFingerprint);
      assert StagedFrom(seen, stage) && Staged(stage);
      token := Some(nextToken);
      stages := map[nextToken := stage];
      nextToken := nextToken + 1;
    }

    method DropStage(token: nat)
      requires Valid()
      modifies `stages
      ensures Valid() && stages == old(stages) - {token}
    {
      stages := stages - {token};
    }

    /** The stage is there, in time, and all that it asks for is confirmed. */
    predicate Presentable(token: nat, confirmed: seq<string>, confirmCA: bool, now: int)
      reads `stages
    {
      && token in stages && now <= stages[token].expires
      && Confirms(confirmed, stages[token].required) && (stages[token].caTrustNeeded ==> confirmCA)
    }

    /**
     * Whether the user confirmed all that the stage asks for, and the CA is still the one previewed; `system` is
     * what compiling the candidate again yields.
     */
    method CheckStage(token: nat, confirmed: seq<string>, confirmCA: bool, now: int, system: Option<SystemPreview>)
      returns (outcome: Outcome)
      requires Valid()
      modifies `stages
      ensures Valid()
      ensures outcome.Saved? <==> old(Presentable(token, confirmed, confirmCA, now)) && SameCA(old(stages)[token], system)
      ensures outcome.Errored? <==>
                old(Presentable(token, confirmed, confirmCA, now)) && old(stages)[token].caFingerprint.Some? && system.None?
      ensures stages == if outcome.Rejected? && old(Presentable(token, confirmed, confirmCA, now))
                        then old(stages) - {token} else old(stages)
    {
      hide Confirms;
      if token !in stages || now > stages[token].expires { return Rejected; }
      var stage := stages[token];
      if !Confirms(confirmed, stage.required) { return Rejected; }
      if stage.caTrustNeeded && !confirmCA { return Rejected; }
      if stage.caFingerprint.Some? {
        if system.None? { return Errored; }
        if system.value.caFingerprint != stage.caFingerprint || system.value.caTrustNeeded != stage.caTrustNeeded {
          DropStage(token);
          return Rejected;
        }
      }
      outcome := Saved;
    }

    /** The vault update of a commit: a second look at the revision, the edit on a loaded copy, the write. */
    method SaveStaged(stage: Stage, written: bool) returns (saved: bool)
      requires Staged(stage)
      modifies `data, `routes
      ensures saved <==> RevisionOf(old(Vault())) == stage.desired && written
      ensures saved ==> fresh(routes)
      ensures Vault() == if saved then old(Vault()).(routes := stage.candidate.routes) else old(Vault())
    {
      hide VaultModel.Valid;
      hide RevisionOf;
      hide Edited;
      hide Required;
      hide ChangedId;
      var current := data.(routes := routes[..]);
      if RevisionOf(current) != stage.desired { return false; }
      ghost var seen :| StagedFrom(seen, stage);
      SameRevisionSameRoutes(seen, current, stage.intent);
      var loaded := CopyRoutes();
      var after, n, ok := EditInPlace(loaded, stage.intent);
      assert ok && after[..n] == stage.candidate.routes;
      var valid := Validate(data.(routes := after[..n]));
      assert valid;
      saved := written;
      if saved {
        var content := after[..n];
        routes := new WebRoute[n](i requires 0 <= i < n => content[i]);
      }
    }

    /**
     * Either the vault stays as it was or exactly the staged routes are saved, over a vault of the previewed
     * revision, with all that was asked for confirmed; a token saves at most once. `before` is the vault right
     * before the update; `system`, `loaded`, `appliedReadable` and `written` are what the ports answer. Saved and
     * errored are exactly what follows from these, and a stage is kept only for another try.
     */
    method Commit(token: nat, confirmed: seq<string>, confirmCA: bool, now: int, system: Option<SystemPreview>,
                  loaded: bool, appliedReadable: bool, written: bool)
      returns (outcome: Outcome, ghost before: VaultData)
      requires Valid()
      modifies this
      ensures Valid()
      ensures outcome.Saved? <==>
                && old(Presentable(token, confirmed, confirmCA, now)) && SameCA(old(stages)[token], system)
                && loaded && RevisionOf(old(Vault())) == old(stages)[token].desired
                && appliedReadable && old(applied) == old(stages)[token].applied
                && RevisionOf(before) == old(stages)[token].desired && written
      ensures outcome.Errored? <==>
                && old(Presentable(token, confirmed, confirmCA, now))
                && if !SameCA(old(stages)[token], system) then system.None?
                   else !loaded || (RevisionOf(old(Vault())) == old(stages)[token].desired && !appliedReadable)
      ensures stages == if old(Presentable(token, confirmed, confirmCA, now)) && !outcome.Errored?
                        then old(stages) - {token} else old(stages)
      ensures outcome.Saved? ==>
                && token !in old(used) && used == old(used) + {token}
                && Vault() == before.(routes := old(stages)[token].candidate.routes)
      ensures !outcome.Saved? ==> Vault() == before && used == old(used)
    {
      hide RevisionOf;
      hide Staged;
      hide Confirms;
      before := Vault();
      outcome := CheckStage(token, confirmed, confirmCA, now, system);
      if !outcome.Saved? { return; }
      var stage := stages[token];
      if !loaded { return Errored, before; }
      if RevisionOf(data.(routes := routes[..])) != stage.desired {
        DropStage(token);
        return Rejected, before;
      }
      if !appliedReadable { return Errored, before; }
      if applied != stage.applied {
        DropStage(token);
        return Rejected, before;
      }
      Elsewhere();
      before := Vault();
      var saved := SaveStaged(stage, written);
      DropStage(token);
      if !saved { return Rejected, before; }
      used := used + {token};
      outcome := Saved;
    }
  }
}
