/**
 * Compiling the routes of a vault into the managed hosts entries and the Caddy configuration, and what the
 * compiled configuration does with a request.
 */
module RoutePlan {
  import opened Common
  import opened VaultModel

  // ---------- Strings in order ----------

  /** The order of Go strings: UTF-8 bytes compare like code points. */
  predicate Le(a: string, b: string) {
    a == "" || (b != "" && (a[0] < b[0] || (a[0] == b[0] && Le(a[1..], b[1..]))))
  }

  lemma {:induction false} LeTotal(a: string, b: string)
    ensures Le(a, b) || Le(b, a)
    ensures Le(a, b) && Le(b, a) ==> a == b
  {
    if a != "" && b != "" && a[0] == b[0] {
      LeTotal(a[1..], b[1..]);
      assert a == [a[0]] + a[1..] && b == [b[0]] + b[1..];
    }
  }

  lemma {:induction false} LeTransitive(a: string, b: string, c: string)
    requires Le(a, b) && Le(b, c)
    ensures Le(a, c)
  {
    if a != "" && a[0] == b[0] == c[0] { LeTransitive(a[1..], b[1..], c[1..]); }
  }

  predicate Lt(a: string, b: string) { Le(a, b) && a != b }

  ghost predicate Ascending(s: seq<string>) { forall i, j :: 0 <= i < j < |s| ==> Lt(s[i], s[j]) }

  lemma TailElements(s: seq<string>)
    requires Ascending(s) && s != []
    ensures forall x :: x in s[1..] <==> x in s && x != s[0]
  {
    hide Le;
    assert s == [s[0]] + s[1..];
    forall k | 0 <= k < |s| - 1 ensures s[1..][k] != s[0] { assert Lt(s[0], s[k + 1]); }
  }

  lemma SameEmpty(a: seq<string>, b: seq<string>)
    requires forall x :: x in a <==> x in b
    ensures a == [] <==> b == []
  {
    if a == [] {
    } else {
      assert a[0] in a;
    }
    if b == [] {
    } else {
      assert b[0] in b;
    }
  }

  /** A strictly ascending list is determined by its elements. */
  lemma {:induction false} AscendingUnique(a: seq<string>, b: seq<string>)
    requires Ascending(a) && Ascending(b) && forall x :: x in a <==> x in b
    ensures a == b
  {
    hide Le;
    SameEmpty(a, b);
    if a == [] {
    } else {
      assert a[0] in a && a[0] in b;
      var i :| 0 <= i < |b| && b[i] == a[0];
      assert b[0] in b && b[0] in a;
      var j :| 0 <= j < |a| && a[j] == b[0];
      LeTotal(a[0], b[0]);
      assert a[0] == b[0];
      TailElements(a);
      TailElements(b);
      AscendingUnique(a[1..], b[1..]);
      assert a == [a[0]] + a[1..] && b == [b[0]] + b[1..];
    }
  }

  // ---------- Managed hosts ----------

  predicate IsLocalDomain(domain: string) {
    var d := Lower(domain);
    (|d| >= 5 && d[|d| - 5..] == ".test") || (|d| >= 10 && d[|d| - 10..] == ".localhost")
  }

  /** By id; of several forwards with one id the last counts. */
  function ForwardMap(forwards: seq<Forward>): (m: map<int, Forward>)
    ensures forall id :: id in m ==> m[id] in forwards && m[id].id == id
    ensures forall fw :: fw in forwards ==> fw.id in m
  {
    if forwards == [] then map[]
    else
      var fw := forwards[|forwards| - 1];
      assert forwards == forwards[..|forwards| - 1] + [fw];
      ForwardMap(forwards[..|forwards| - 1])[fw.id := fw]
  }

  predicate OverLocalForward(d: VaultData, r: WebRoute) {
    var forwards := ForwardMap(d.forwards);
    r.forward in forwards && forwards[r.forward].mode == LOCAL
  }

  predicate Wanted(d: VaultData, r: WebRoute) { r.hostsEnabled && OverLocalForward(d, r) }

  /** The domains the managed hosts block must name. */
  function HostsDomains(d: VaultData): set<string> { set r | r in d.routes && Wanted(d, r) :: r.domain }

  function Domains(entries: seq<HostEntry>): (r: seq<string>)
    ensures |r| == |entries| && forall i :: 0 <= i < |r| ==> r[i] == entries[i].domain
  {
    seq(|entries|, i requires 0 <= i < |entries| => entries[i].domain)
  }

  /** Inserts a new domain at its place in an ascending list. */
  function Insert(s: seq<string>, x: string): seq<string> {
    if s == [] || Le(x, s[0]) then [x] + s else [s[0]] + Insert(s[1..], x)
  }

  lemma {:induction false} InsertAscends(s: seq<string>, x: string)
    requires Ascending(s) && x !in s
    ensures Ascending(Insert(s, x)) && forall y :: y in Insert(s, x) <==> y in s || y == x
  {
    hide Le;
    if s == [] || Le(x, s[0]) {
      forall k | 0 <= k < |s| ensures Lt(x, s[k]) {
        assert s[k] in s;
        if k > 0 { LeTransitive(x, s[0], s[k]); }
      }
    } else {
      var rest := Insert(s[1..], x);
      assert s == [s[0]] + s[1..];
      InsertAscends(s[1..], x);
      LeTotal(s[0], x);
      assert s[0] in s;
      forall k | 0 <= k < |rest| ensures Lt(s[0], rest[k]) {
        assert rest[k] in rest;
        if rest[k] != x {
          assert rest[k] in s[1..];
          var j :| 0 <= j < |s| - 1 && s[1..][j] == rest[k];
          assert Lt(s[0], s[j + 1]);
        }
      }
    }
  }

  /** Sorting by insertion stands for the library's sort; the inputs have no repeats. */
  method Sort(s: seq<string>) returns (sorted: seq<string>)
    requires forall i, j :: 0 <= i < j < |s| ==> s[i] != s[j]
    ensures Ascending(sorted) && forall x :: x in sorted <==> x in s
  {
    hide Le;
    hide Insert;
    sorted := [];
    for i := 0 to |s|
      invariant Ascending(sorted) && forall x :: x in sorted <==> x in s[..i]
    {
      assert s[..i + 1] == s[..i] + [s[i]];
      InsertAscends(sorted, s[i]);
      sorted := Insert(sorted, s[i]);
    }
    assert s[..|s|] == s;
  }

  /**
   * One loopback entry for every domain of an enabled route over a local forward, in order and without
   * repeats; those outside the local suffixes need confirmation.
   */
  method PlanHosts(d: VaultData) returns (entries: seq<HostEntry>, confirm: seq<string>)
    ensures Ascending(Domains(entries)) && (forall x :: x in Domains(entries) <==> x in HostsDomains(d))
    ensures forall i :: 0 <= i < |entries| ==> entries[i].ip == "127.0.0.1"
    ensures Ascending(confirm) && forall x :: x in confirm <==> x in HostsDomains(d) && !IsLocalDomain(x)
  {
    hide IsLocalDomain;
    hide ForwardMap;
    hide Lt;
    var forwards := ForwardMap(d.forwards);
    var seen: set<string> := {};
    var named, foreign := [], [];
    for i := 0 to |d.routes|
      invariant forall x :: x in seen <==> x in named
      invariant forall x :: x in named <==> exists k :: 0 <= k < i && Wanted(d, d.routes[k]) && d.routes[k].domain == x
      invariant forall x :: x in foreign <==> x in named && !IsLocalDomain(x)
      invariant forall j, k :: 0 <= j < k < |named| ==> named[j] != named[k]
      invariant forall j, k :: 0 <= j < k < |foreign| ==> foreign[j] != foreign[k]
    {
      var r := d.routes[i];
      if r.hostsEnabled && r.forward in forwards && forwards[r.forward].mode == LOCAL && r.domain !in seen {
        seen := seen + {r.domain};
        named := named + [r.domain];
        if !IsLocalDomain(r.domain) { foreign := foreign + [r.domain]; }
      }
    }
    var sorted := Sort(named);
    confirm := Sort(foreign);
    entries := seq(|sorted|, i requires 0 <= i < |sorted| => HostEntry(sorted[i], "127.0.0.1"));
    assert Domains(entries) == sorted;
  }

  // ---------- Caddy ----------

  const PLACEHOLDER := "{http.request.host}"

  /**
   * A reverse proxy: the loopback port it dials, the TLS server name if it speaks TLS, the Host header it
   * sets if any, and whether it removes the forwarding headers.
   */
  datatype Handler = Handler(dial: int, sni: Option<string>, host: Option<string>, removeHeaders: bool)

  datatype Site = Site(domain: string, handler: Handler)

  datatype Config = Config(sites: seq<Site>, subjects: seq<string>)

  /** No configuration when no route uses Caddy. */
  datatype Compiled = Nothing | Compiled(config: Config) | Inconsistent

  /** The handler of a route, or nothing when its Host selection makes no sense. */
  function ProxyHandler(r: WebRoute, fw: Forward): Option<Handler> {
    var mode := EffectiveMode(r);
    var plain := Handler(fw.localPort, None, None, r.removeProxyHeaders);
    if r.scheme != "https" && mode == ORIGINAL then Some(plain)
    else
      var sni := if r.scheme == "https" then Some(r.tlsSni) else None;
      if mode == ORIGINAL then Some(plain.(sni := sni, host := Some(PLACEHOLDER)))
      else if mode == TLS_SNI then
        if r.scheme != "https" then None else Some(plain.(sni := sni, host := Some(r.tlsSni)))
      else if mode == CUSTOM then
        if r.upstreamHost == "" then None else Some(plain.(sni := sni, host := Some(r.upstreamHost)))
      else None
  }

  /** The site of an enabled route, or nothing when its forward or its Host selection is in the way. */
  function SiteOf(forwards: map<int, Forward>, r: WebRoute): Option<Site> {
    if r.forward !in forwards || forwards[r.forward].mode != LOCAL then None
    else
      var handler := ProxyHandler(r, forwards[r.forward]);
      if handler.None? then None else Some(Site(r.domain, handler.value))
  }

  function Enabled(routes: seq<WebRoute>): seq<WebRoute> {
    if routes == [] then []
    else
      Enabled(routes[..|routes| - 1]) + (if routes[|routes| - 1].caddyEnabled then [routes[|routes| - 1]] else [])
  }

  lemma {:induction false} EnabledExactly(routes: seq<WebRoute>)
    ensures forall r :: r in Enabled(routes) <==> r in routes && r.caddyEnabled
  {
    if routes == [] {
    } else {
      EnabledExactly(routes[..|routes| - 1]);
      assert routes == routes[..|routes| - 1] + [routes[|routes| - 1]];
    }
  }

  /** Sorted by domain; routes of one domain may come in any order. */
  ghost predicate ByDomain(routes: seq<WebRoute>) {
    forall i, j :: 0 <= i < j < |routes| ==> Le(routes[i].domain, routes[j].domain)
  }

  function InsertRoute(s: seq<WebRoute>, r: WebRoute): seq<WebRoute> {
    if s == [] || Le(r.domain, s[0].domain) then [r] + s else [s[0]] + InsertRoute(s[1..], r)
  }

  lemma {:induction false} InsertRouteAdds(s: seq<WebRoute>, r: WebRoute)
    ensures multiset(InsertRoute(s, r)) == multiset(s) + multiset{r}
  {
    hide Le;
    if s == [] {
    } else {
      assert s == [s[0]] + s[1..];
      InsertRouteAdds(s[1..], r);
    }
  }

  lemma {:induction false} InsertRouteSorts(s: seq<WebRoute>, r: WebRoute)
    requires ByDomain(s)
    ensures ByDomain(InsertRoute(s, r)) && forall x :: x in InsertRoute(s, r) ==> x in s || x == r
  {
    hide Le;
    if s == [] || Le(r.domain, s[0].domain) {
      forall k | 0 <= k < |s| ensures Le(r.domain, s[k].domain) {
        if k > 0 { LeTransitive(r.domain, s[0].domain, s[k].domain); }
      }
    } else {
      InsertRouteSorts(s[1..], r);
      LeTotal(s[0].domain, r.domain);
      forall x | x in InsertRoute(s[1..], r) ensures Le(s[0].domain, x.domain) {
        if x != r {
          var k :| 0 <= k < |s| - 1 && s[1..][k] == x;
          assert Le(s[0].domain, s[k + 1].domain);
        }
      }
    }
  }

  method SortRoutes(routes: seq<WebRoute>) returns (sorted: seq<WebRoute>)
    ensures ByDomain(sorted) && multiset(sorted) == multiset(routes)
  {
    hide Le;
    hide InsertRoute;
    sorted := [];
    for i := 0 to |routes|
      invariant ByDomain(sorted) && multiset(sorted) == multiset(routes[..i])
    {
      assert routes[..i + 1] == routes[..i] + [routes[i]];
      InsertRouteSorts(sorted, routes[i]);
      InsertRouteAdds(sorted, routes[i]);
      sorted := InsertRoute(sorted, routes[i]);
    }
    assert routes[..|routes|] == routes;
  }

  /** Subjects are the enabled domains, in order and without repeats. */
  ghost predicate SubjectsOf(subjects: seq<string>, enabled: seq<WebRoute>) {
    Ascending(subjects) && forall x :: x in subjects <==> exists r :: r in enabled && r.domain == x
  }

  /** What compiling may produce: the sites of the enabled routes sorted by domain, if each has one. */
  ghost predicate Compiles(d: VaultData, sorted: seq<WebRoute>, result: Compiled) {
    var forwards := ForwardMap(d.forwards);
    && ByDomain(sorted) && multiset(sorted) == multiset(Enabled(d.routes))
    && match result
       case Nothing => sorted == []
       case Inconsistent => exists r :: r in sorted && SiteOf(forwards, r).None?
       case Compiled(config) =>
         && sorted != [] && |config.sites| == |sorted|
         && (forall i :: 0 <= i < |sorted| ==> SiteOf(forwards, sorted[i]) == Some(config.sites[i]))
         && SubjectsOf(config.subjects, sorted)
  }

  method CompileCaddy(d: VaultData) returns (result: Compiled, sorted: seq<WebRoute>)
    ensures Compiles(d, sorted, result)
  {
    hide Le;
    hide SiteOf;
    hide SubjectsOf;
    var forwards := ForwardMap(d.forwards);
    var enabled := Enabled(d.routes);
    if enabled == [] {
      return Nothing, [];
    }
    sorted := SortRoutes(enabled);
    var sites, ok := CompileSites(forwards, sorted);
    if !ok { return Inconsistent, sorted; }
    var subjects := CollectSubjects(sorted);
    SortedNonEmpty(sorted, enabled);
    result := Compiled(Config(sites, subjects));
  }

  lemma SortedNonEmpty(sorted: seq<WebRoute>, enabled: seq<WebRoute>)
    requires multiset(sorted) == multiset(enabled) && enabled != []
    ensures sorted != []
  {
    assert enabled[0] in multiset(sorted);
  }

  method CompileSites(forwards: map<int, Forward>, routes: seq<WebRoute>) returns (sites: seq<Site>, ok: bool)
    ensures ok <==> forall r :: r in routes ==> SiteOf(forwards, r).Some?
    ensures ok ==> |sites| == |routes| && forall k :: 0 <= k < |routes| ==> SiteOf(forwards, routes[k]) == Some(sites[k])
  {
    hide SiteOf;
    sites := [];
    for i := 0 to |routes|
      invariant |sites| == i && forall k :: 0 <= k < i ==> SiteOf(forwards, routes[k]) == Some(sites[k])
    {
      var site := SiteOf(forwards, routes[i]);
      if site.None? { return sites, false; }
      sites := sites + [site.value];
    }
    ok := true;
  }

  method CollectSubjects(routes: seq<WebRoute>) returns (subjects: seq<string>)
    ensures SubjectsOf(subjects, routes)
  {
    hide Le;
    hide Lt;
    var seen: set<string>, named := {}, [];
    for i := 0 to |routes|
      invariant forall x :: x in seen <==> x in named
      invariant forall x :: x in named <==> exists k :: 0 <= k < i && routes[k].domain == x
      invariant forall j, k :: 0 <= j < k < |named| ==> named[j] != named[k]
    {
      if routes[i].domain !in seen {
        seen := seen + {routes[i].domain};
        named := named + [routes[i].domain];
      }
    }
    subjects := Sort(named);
  }

  // ---------- What the configuration does ----------

  /** The first site that matches the requested host. */
  function Serve(sites: seq<Site>, host: string): Option<Handler> {
    if sites == [] then None else if sites[0].domain == host then Some(sites[0].handler) else Serve(sites[1..], host)
  }

  /** The Host header the upstream sees; the placeholder stands for the requested host. */
  function HostSent(h: Handler, host: string): string {
    if h.host.None? || h.host.value == PLACEHOLDER then host else h.host.value
  }

  /** The Host header the mode of a route prescribes. */
  function Prescribed(r: WebRoute, host: string): string {
    var mode := EffectiveMode(r);
    if mode == TLS_SNI then r.tlsSni else if mode == CUSTOM then r.upstreamHost else host
  }

  lemma TrimmedEmpty()
    ensures Trim("") == ""
  {
  }

  /** A Host selection that no handler can be built from. */
  predicate Unworkable(r: WebRoute) {
    var mode := EffectiveMode(r);
    && mode != ORIGINAL
    && !(mode == TLS_SNI && r.scheme == "https")
    && !(mode == CUSTOM && r.upstreamHost != "")
  }

  /** A handler does what the route says; there is one unless the Host selection is unworkable. */
  lemma HandlerMeaning(r: WebRoute, fw: Forward)
    ensures ProxyHandler(r, fw).None? <==> Unworkable(r)
    ensures ProxyHandler(r, fw).Some? ==>
              var h := ProxyHandler(r, fw).value;
              && h.dial == fw.localPort && h.removeHeaders == r.removeProxyHeaders
              && h.sni == (if r.scheme == "https" then Some(r.tlsSni) else None)
              && forall host :: HostSent(h, host) == if Prescribed(r, host) == PLACEHOLDER then host else Prescribed(r, host)
  {
    hide EffectiveMode;
  }

  /** What a vault accepts for the schemes it checks is workable. */
  lemma KnownSchemeWorks(r: WebRoute)
    requires KnownScheme(r.scheme) && HostSelectionOk(r)
    ensures !Unworkable(r)
  {
    hide EffectiveMode;
    hide Trim;
    TrimmedEmpty();
  }

  lemma ForwardIsMapped(forwards: seq<Forward>, fw: Forward)
    requires Distinct(ForwardIds(forwards)) && fw in forwards
    ensures fw.id in ForwardMap(forwards) && ForwardMap(forwards)[fw.id] == fw
  {
    hide ForwardMap;
    var i :| 0 <= i < |forwards| && forwards[i] == fw;
    var other := ForwardMap(forwards)[fw.id];
    var j :| 0 <= j < |forwards| && forwards[j] == other;
    assert ForwardIds(forwards)[i] == ForwardIds(forwards)[j];
  }

  /** On a valid vault a route's site is there unless its Host selection is unworkable. */
  lemma SiteMeaning(d: VaultData, r: WebRoute, fw: Forward)
    requires Distinct(ForwardIds(d.forwards)) && fw in d.forwards && fw.id == r.forward && fw.mode == LOCAL
    ensures SiteOf(ForwardMap(d.forwards), r).None? <==> Unworkable(r)
    ensures !Unworkable(r) ==>
              SiteOf(ForwardMap(d.forwards), r) == Some(Site(r.domain, ProxyHandler(r, fw).value))
  {
    hide ProxyHandler;
    ForwardIsMapped(d.forwards, fw);
    HandlerMeaning(r, fw);
  }

  lemma SortedMembers(d: VaultData, sorted: seq<WebRoute>)
    requires multiset(sorted) == multiset(Enabled(d.routes))
    ensures forall r :: r in sorted <==> r in d.routes && r.caddyEnabled
  {
    EnabledExactly(d.routes);
    assert forall r :: r in sorted <==> r in multiset(sorted);
    assert forall r :: r in Enabled(d.routes) <==> r in multiset(Enabled(d.routes));
  }

  /**
   * Compiling a valid vault fails exactly when an enabled route has an unworkable Host selection, and the
   * route is then of a scheme the vault does not check; there is nothing to compile exactly when no route
   * is enabled.
   */
  lemma FailsIff(d: VaultData, sorted: seq<WebRoute>, result: Compiled)
    requires Valid(d) && Compiles(d, sorted, result)
    ensures result.Inconsistent? <==> exists r :: r in d.routes && r.caddyEnabled && Unworkable(r)
    ensures forall r :: r in d.routes && Unworkable(r) ==> !KnownScheme(r.scheme)
    ensures result.Nothing? <==> forall r :: r in d.routes ==> !r.caddyEnabled
  {
    hide Unworkable;
    hide HostSelectionOk;
    hide SiteOf;
    hide FolderOk;
    hide ForwardOk;
    hide ByDomain;
    hide SubjectsOf;
    SortedMembers(d, sorted);
    forall r | r in d.routes
      ensures SiteOf(ForwardMap(d.forwards), r).None? <==> Unworkable(r)
      ensures KnownScheme(r.scheme) ==> !Unworkable(r)
    {
      assert RouteOk(d.forwards, r);
      var fw :| fw in d.forwards && fw.id == r.forward && fw.mode == LOCAL;
      SiteMeaning(d, r, fw);
      if KnownScheme(r.scheme) { KnownSchemeWorks(r); }
    }
    assert sorted == [] <==> forall r :: r in d.routes ==> !r.caddyEnabled by {
      if sorted != [] { assert sorted[0] in sorted; }
    }
    if result.Compiled? {
      forall i | 0 <= i < |sorted| ensures SiteOf(ForwardMap(d.forwards), sorted[i]).Some? {}
    }
  }

  // ---------- Dispatch ----------

  ghost predicate DomainsDistinct(routes: seq<WebRoute>) {
    forall i, j :: 0 <= i < j < |routes| ==> routes[i].domain != routes[j].domain
  }

  lemma {:induction false} DistinctCounts(s: seq<WebRoute>)
    requires DomainsDistinct(s)
    ensures forall r :: multiset(s)[r] <= 1
  {
    if s == [] {
    } else {
      var n := |s| - 1;
      DistinctCounts(s[..n]);
      assert s == s[..n] + [s[n]];
      assert s[n] !in s[..n];
    }
  }

  lemma CountsDistinct(s: seq<WebRoute>)
    requires forall r :: multiset(s)[r] <= 1
    requires forall r, q :: r in s && q in s && r.domain == q.domain ==> r == q
    ensures DomainsDistinct(s)
  {
    forall i, j | 0 <= i < j < |s| ensures s[i].domain != s[j].domain {
      var front, back := s[..j], s[j..];
      assert s == front + back && front[i] == s[i] && back[0] == s[j];
      assert s[i] in multiset(front) && s[j] in multiset(back);
      assert multiset(s)[s[i]] == multiset(front)[s[i]] + multiset(back)[s[i]];
      assert s[i] != s[j];
    }
  }

  /** Distinct domains stay distinct in any order. */
  lemma PermutedDistinct(a: seq<WebRoute>, b: seq<WebRoute>)
    requires DomainsDistinct(a) && multiset(a) == multiset(b)
    ensures DomainsDistinct(b)
  {
    DistinctCounts(a);
    assert forall r :: r in b <==> r in multiset(b);
    assert forall r :: r in a <==> r in multiset(a);
    CountsDistinct(b);
  }

  lemma {:induction false} ServeAt(sites: seq<Site>, i: nat)
    requires i < |sites| && forall k :: 0 <= k < i ==> sites[k].domain != sites[i].domain
    ensures Serve(sites, sites[i].domain) == Some(sites[i].handler)
  {
    if i == 0 {
    } else {
      assert sites[0].domain != sites[i].domain;
      ServeAt(sites[1..], i - 1);
    }
  }

  lemma {:induction false} ServeNothing(sites: seq<Site>, host: string)
    ensures Serve(sites, host).None? <==> forall i :: 0 <= i < |sites| ==> sites[i].domain != host
  {
    if sites == [] {
    } else {
      ServeNothing(sites[1..], host);
    }
  }

  /**
   * With distinct enabled domains each of them is served by the handler of its own route, dialling the port
   * of that route's forward with the name and the Host header its mode prescribes; no other host is served.
   */
  lemma CompiledMeaning(d: VaultData, sorted: seq<WebRoute>, config: Config, r: WebRoute, fw: Forward, host: string)
    requires Distinct(ForwardIds(d.forwards)) && Compiles(d, sorted, Compiled(config)) && DomainsDistinct(Enabled(d.routes))
    requires r in d.routes && r.caddyEnabled && fw in d.forwards && fw.id == r.forward
    ensures Serve(config.sites, r.domain).Some?
    ensures var h := Serve(config.sites, r.domain).value;
      && h.dial == fw.localPort && h.removeHeaders == r.removeProxyHeaders
      && h.sni == (if r.scheme == "https" then Some(r.tlsSni) else None)
      && (Prescribed(r, r.domain) != PLACEHOLDER ==> HostSent(h, r.domain) == Prescribed(r, r.domain))
    ensures (forall q :: q in d.routes && q.caddyEnabled ==> q.domain != host) ==> Serve(config.sites, host).None?
  {
    hide ProxyHandler;
    hide Le;
    hide Prescribed;
    SortedMembers(d, sorted);
    PermutedDistinct(Enabled(d.routes), sorted);
    ForwardIsMapped(d.forwards, fw);
    var i :| 0 <= i < |sorted| && sorted[i] == r;
    assert SiteOf(ForwardMap(d.forwards), r) == Some(config.sites[i]);
    HandlerMeaning(r, fw);
    forall k | 0 <= k < |sorted| ensures config.sites[k].domain == sorted[k].domain && sorted[k] in sorted {
      assert SiteOf(ForwardMap(d.forwards), sorted[k]) == Some(config.sites[k]);
    }
    ServeAt(config.sites, i);
    ServeNothing(config.sites, host);
  }

  // ---------- Order does not matter ----------

  lemma {:induction false} EnabledCounts(routes: seq<WebRoute>)
    ensures forall r :: multiset(Enabled(routes))[r] == if r.caddyEnabled then multiset(routes)[r] else 0
  {
    if routes == [] {
    } else {
      EnabledCounts(routes[..|routes| - 1]);
      assert routes == routes[..|routes| - 1] + [routes[|routes| - 1]];
    }
  }

  function RouteDomains(routes: seq<WebRoute>): (r: seq<string>)
    ensures |r| == |routes| && forall i :: 0 <= i < |r| ==> r[i] == routes[i].domain
  {
    seq(|routes|, i requires 0 <= i < |routes| => routes[i].domain)
  }

  lemma DomainsIncluded(a: seq<WebRoute>, b: seq<WebRoute>)
    requires multiset(a) == multiset(b)
    ensures forall x :: x in RouteDomains(a) ==> x in RouteDomains(b)
  {
    forall i | 0 <= i < |a| ensures RouteDomains(a)[i] in RouteDomains(b) {
      assert a[i] in multiset(b);
      var j :| 0 <= j < |b| && b[j] == a[i];
      assert RouteDomains(b)[j] == a[i].domain;
    }
  }

  lemma SortedUnique(a: seq<WebRoute>, b: seq<WebRoute>)
    requires ByDomain(a) && ByDomain(b) && multiset(a) == multiset(b) && DomainsDistinct(a)
    ensures a == b
  {
    hide Le;
    PermutedDistinct(a, b);
    DomainsIncluded(a, b);
    DomainsIncluded(b, a);
    var p, q := RouteDomains(a), RouteDomains(b);
    AscendingUnique(p, q);
    forall i | 0 <= i < |a| ensures a[i] == b[i] {
      assert a[i] in multiset(b);
      var j :| 0 <= j < |b| && b[j] == a[i];
      assert p[i] == q[i] && q[j] == q[i];
    }
  }

  lemma ResultUnique(d: VaultData, e: VaultData, sorted: seq<WebRoute>, x: Compiled, y: Compiled)
    requires d.forwards == e.forwards && Compiles(d, sorted, x) && Compiles(e, sorted, y)
    ensures x == y
  {
    hide Le;
    hide Lt;
    hide SiteOf;
    hide ForwardMap;
    if x.Inconsistent? || y.Inconsistent? {
      var r :| r in sorted && SiteOf(ForwardMap(d.forwards), r).None?;
      var i :| 0 <= i < |sorted| && sorted[i] == r;
    } else if x.Compiled? {
      AscendingUnique(x.config.subjects, y.config.subjects);
      assert x.config.sites == y.config.sites;
    }
  }

  /** Permuting the routes of a vault does not change what is compiled from it. */
  lemma OrderDoesNotMatter(d: VaultData, e: VaultData, sortedD: seq<WebRoute>, sortedE: seq<WebRoute>, x: Compiled, y: Compiled)
    requires d.forwards == e.forwards && multiset(d.routes) == multiset(e.routes)
    requires DomainsDistinct(Enabled(d.routes))
    requires Compiles(d, sortedD, x) && Compiles(e, sortedE, y)
    ensures x == y
  {
    hide ByDomain;
    hide SubjectsOf;
    hide SiteOf;
    hide DomainsDistinct;
    EnabledCounts(d.routes);
    EnabledCounts(e.routes);
    assert multiset(Enabled(d.routes)) == multiset(Enabled(e.routes));
    PermutedDistinct(Enabled(d.routes), sortedD);
    SortedUnique(sortedD, sortedE);
    ResultUnique(d, e, sortedD, x, y);
  }

  // ---------- Every served name is in the hosts block ----------

  ghost predicate CaddyImpliesHosts(routes: seq<WebRoute>) { forall r :: r in routes && r.caddyEnabled ==> r.hostsEnabled }

  /** A certificate subject that is not resolved to this machine would leave it; there is none. */
  lemma SubjectsArePlanned(d: VaultData, sorted: seq<WebRoute>, config: Config)
    requires Compiles(d, sorted, Compiled(config)) && CaddyImpliesHosts(d.routes)
    ensures forall x :: x in config.subjects ==> x in HostsDomains(d)
  {
    hide Le;
    hide Lt;
    hide ProxyHandler;
    SortedMembers(d, sorted);
    forall x | x in config.subjects ensures x in HostsDomains(d) {
      var r :| r in sorted && r.domain == x;
      var i :| 0 <= i < |sorted| && sorted[i] == r;
      assert SiteOf(ForwardMap(d.forwards), sorted[i]).Some?;
      assert Wanted(d, r);
    }
  }
}
