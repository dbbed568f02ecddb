/**
 What a composed configuration means (internal/agent/caddy_sites.go:112-246).
 */
module CaddyMeaning {
  import opened Prelude
  import opened CaddyModel
  import opened CaddySites

  // ---------------------------------------------------------------- closed form of the rewrite

  /** Gateway configurations use no website names, and no address is the only one of two servers. */
  ghost predicate GatewayBase(base: Servers) {
    (forall n :: n in base ==> n.Gateway?) && OneListener(base)
  }

  predicate Static(route: Route) {
    |route.handlers| == 1 && !route.handlers[0].Proxy?
  }

  ghost predicate Tidy(edits: seq<Edit>) {
    && (forall i :: 0 <= i < |edits| && edits[i].Join? ==>
          edits[i].name.Website? && forall k :: 0 <= k < |edits[i].routes| ==> Static(edits[i].routes[k]))
    && (forall i, j :: 0 <= i < j < |edits| && edits[i].Join? && edits[j].Join? ==> edits[i].name != edits[j].name)
  }

  /** Routes put in front at one address, latest first. */
  ghost function Added(edits: seq<Edit>, at: Endpoint): seq<Route> {
    if edits == [] then []
    else
      var rest := Added(edits[..|edits| - 1], at);
      var last := edits[|edits| - 1];
      if last.Join? && last.at == at then last.routes + rest else rest
  }

  /** Routes put in front of a server: websites only join servers that have one address. */
  ghost function Joined(edits: seq<Edit>, listen: seq<Endpoint>): seq<Route> {
    if |listen| == 1 then Added(edits, listen[0]) else []
  }

  ghost function Rewritten(edits: seq<Edit>, routes: seq<Route>): seq<Route> {
    if edits == [] then routes
    else
      var rest := Rewritten(edits[..|edits| - 1], routes);
      var last := edits[|edits| - 1];
      if last.Replace? then RewriteRoutes(last.site, rest) else rest
  }

  ghost predicate Offered(edits: seq<Edit>, at: Endpoint, tls: bool) {
    exists i :: 0 <= i < |edits| && edits[i].Join? && edits[i].at == at && edits[i].tls == tls
  }

  ghost predicate Named(edits: seq<Edit>, n: Name) {
    exists i :: 0 <= i < |edits| && edits[i].Join? && edits[i].name == n
  }

  ghost predicate ServerShape(base: Servers, edits: seq<Edit>, n: Name, server: Server) {
    && (n.Gateway? ==>
          && n in base
          && server.listen == base[n].listen
          && server.tls == base[n].tls
          && server.routes == Joined(edits, server.listen) + Rewritten(edits, base[n].routes))
    && (n.Website? ==>
          && |server.listen| == 1
          && Named(edits, n)
          && Offered(edits, server.listen[0], server.tls)
          && server.routes == Added(edits, server.listen[0]) + [NOT_FOUND_ROUTE])
  }

  ghost predicate Shape(base: Servers, edits: seq<Edit>, out: Servers) {
    && base.Keys <= out.Keys
    && OneListener(out)
    && (forall n :: n in out ==> ServerShape(base, edits, n, out[n]))
    && Kept(edits, out)
  }

  /** Every listener that was asked for is there, with its protocol. */
  ghost predicate Kept(edits: seq<Edit>, out: Servers) {
    forall i :: 0 <= i < |edits| && edits[i].Join? ==>
      exists n :: n in out && out[n].listen == [edits[i].at] && out[n].tls == edits[i].tls
  }

  lemma {:induction false} AddedStatic(edits: seq<Edit>, at: Endpoint)
    requires Tidy(edits)
    ensures forall k :: 0 <= k < |Added(edits, at)| ==> Static(Added(edits, at)[k])
  {
    if edits != [] {
      AddedStatic(edits[..|edits| - 1], at);
    }
  }

  lemma RewriteSkipsStatic(s: Site, added: seq<Route>, tail: seq<Route>)
    requires forall k :: 0 <= k < |added| ==> Static(added[k])
    ensures RewriteRoutes(s, added + tail) == added + RewriteRoutes(s, tail)
  {
  }

  lemma AddedNowhere(edits: seq<Edit>, at: Endpoint)
    requires forall i :: 0 <= i < |edits| && edits[i].Join? ==> edits[i].at != at
    ensures Added(edits, at) == []
  {
  }

  /** One server after a website is served directly. */
  lemma ReplacedServer(base: Servers, edits: seq<Edit>, s: Site, n: Name, server: Server)
    requires Tidy(edits) && ServerShape(base, edits, n, server)
    ensures ServerShape(base, edits + [Replace(s)], n, server.(routes := RewriteRoutes(s, server.routes)))
  {
    var next := edits + [Replace(s)];
    assert next[..|edits|] == edits;
    var front := Joined(edits, server.listen);
    if |server.listen| == 1 {
      AddedStatic(edits, server.listen[0]);
      StillNamed(edits, Replace(s), n, server.listen[0], server.tls);
    }
    RewriteSkipsStatic(s, front, if n.Gateway? then Rewritten(edits, base[n].routes) else [NOT_FOUND_ROUTE]);
    assert RewriteRoutes(s, [NOT_FOUND_ROUTE]) == [NOT_FOUND_ROUTE];
  }

  lemma ReplaceKeeps(edits: seq<Edit>, s: Site, servers: Servers, out: Servers)
    requires Kept(edits, servers) && out.Keys == servers.Keys
    requires forall n :: n in out ==> out[n].listen == servers[n].listen && out[n].tls == servers[n].tls
    ensures Kept(edits + [Replace(s)], out)
  {
    var next := edits + [Replace(s)];
    forall i | 0 <= i < |next| && next[i].Join?
      ensures exists n :: n in out && out[n].listen == [next[i].at] && out[n].tls == next[i].tls
    {
      var n :| n in servers && servers[n].listen == [edits[i].at] && servers[n].tls == edits[i].tls;
      assert n in out;
    }
  }

  lemma ShapeReplace(base: Servers, edits: seq<Edit>, s: Site, servers: Servers)
    requires Tidy(edits) && Shape(base, edits, servers)
    ensures Shape(base, edits + [Replace(s)], RewriteServers(s, servers))
  {
    var out := RewriteServers(s, servers);
    hide ServerShape, Kept, OneListener, Tidy, RewriteRoutes;
    forall n | n in out ensures ServerShape(base, edits + [Replace(s)], n, out[n]) {
      ReplacedServer(base, edits, s, n, servers[n]);
    }
    SameListeners(servers, out);
    ReplaceKeeps(edits, s, servers, out);
  }

  lemma StillNamed(edits: seq<Edit>, e: Edit, n: Name, at: Endpoint, tls: bool)
    ensures Named(edits, n) ==> Named(edits + [e], n)
    ensures Offered(edits, at, tls) ==> Offered(edits + [e], at, tls)
  {
    if Named(edits, n) {
      var i :| 0 <= i < |edits| && edits[i].Join? && edits[i].name == n;
      assert (edits + [e])[i] == edits[i];
    }
    if Offered(edits, at, tls) {
      var i :| 0 <= i < |edits| && edits[i].Join? && edits[i].at == at && edits[i].tls == tls;
      assert (edits + [e])[i] == edits[i];
    }
  }

  lemma Untouched(base: Servers, edits: seq<Edit>, j: Edit, n: Name, server: Server)
    requires ServerShape(base, edits, n, server) && j.Join? && server.listen != [j.at]
    ensures ServerShape(base, edits + [j], n, server)
  {
    assert (edits + [j])[..|edits|] == edits;
    if |server.listen| == 1 {
      assert server.listen == [server.listen[0]];
      StillNamed(edits, j, n, server.listen[0], server.tls);
    }
  }

  lemma Merged(base: Servers, edits: seq<Edit>, j: Edit, n: Name, server: Server)
    requires ServerShape(base, edits, n, server) && j.Join? && server.listen == [j.at]
    ensures ServerShape(base, edits + [j], n, server.(routes := j.routes + server.routes))
  {
    assert (edits + [j])[..|edits|] == edits;
    StillNamed(edits, j, n, j.at, server.tls);
    var tail := if n.Gateway? then Rewritten(edits, base[n].routes) else [NOT_FOUND_ROUTE];
    assert j.routes + (Added(edits, j.at) + tail) == (j.routes + Added(edits, j.at)) + tail;
  }

  lemma Created(base: Servers, edits: seq<Edit>, j: Edit)
    requires j.Join? && j.name.Website?
    requires forall i :: 0 <= i < |edits| && edits[i].Join? ==> edits[i].at != j.at
    ensures ServerShape(base, edits + [j], j.name, Server([j.at], j.routes + [NOT_FOUND_ROUTE], j.tls))
  {
    var next := edits + [j];
    assert next[..|edits|] == edits;
    AddedNowhere(edits, j.at);
    assert Added(next, j.at) == j.routes;
    assert next[|edits|] == j;
  }

  lemma SameListeners(servers: Servers, out: Servers)
    requires OneListener(servers) && out.Keys == servers.Keys && forall n :: n in out ==>
               out[n].listen == servers[n].listen
    ensures OneListener(out)
  {
  }

  lemma OthersElsewhere(servers: Servers, owner: Name, at: Endpoint, n: Name)
    requires OneListener(servers) && owner in servers && servers[owner].listen == [at] && n in servers && n != owner
    ensures servers[n].listen != [at]
  {
  }

  /** One server after a merge into `owner`. */
  lemma MergedServer(base: Servers, edits: seq<Edit>, j: Edit, servers: Servers, owner: Name, n: Name)
    requires j.Join? && OneListener(servers) && n in servers && ServerShape(base, edits, n, servers[n])
    requires owner in servers && servers[owner].listen == [j.at]
    ensures ServerShape(base, edits + [j], n, if n == owner then servers[n].(routes := j.routes + servers[n].routes)
              else servers[n])
  {
    hide ServerShape;
    if n == owner {
      Merged(base, edits, j, n, servers[n]);
    } else {
      OthersElsewhere(servers, owner, j.at, n);
      Untouched(base, edits, j, n, servers[n]);
    }
  }

  lemma ShapeMerge(base: Servers, edits: seq<Edit>, j: Edit, servers: Servers, owner: Name)
    requires j.Join? && Shape(base, edits, servers)
    requires owner in servers && servers[owner].listen == [j.at] && servers[owner].tls == j.tls
    ensures Shape(base, edits + [j], MergeInto(servers, owner, j).value)
  {
    var out := servers[owner := servers[owner].(routes := j.routes + servers[owner].routes)];
    assert MergeInto(servers, owner, j) == Some(out);
    hide ServerShape, Kept, OneListener, MergeInto;
    forall n | n in out ensures ServerShape(base, edits + [j], n, out[n]) {
      MergedServer(base, edits, j, servers, owner, n);
    }
    SameListeners(servers, out);
    KeepsOffers(edits, j, servers, out, owner);
  }

  lemma KeepsOffers(edits: seq<Edit>, j: Edit, servers: Servers, out: Servers, owner: Name)
    requires j.Join? && Kept(edits, servers)
    requires owner in out && out[owner].listen == [j.at] && out[owner].tls == j.tls
    requires forall n :: n in servers ==> n in out && out[n].listen == servers[n].listen && out[n].tls == servers[n].tls
    ensures Kept(edits + [j], out)
  {
    var next := edits + [j];
    forall i | 0 <= i < |next| && next[i].Join?
      ensures exists n :: n in out && out[n].listen == [next[i].at] && out[n].tls == next[i].tls
    {
      if i < |edits| {
        var n :| n in servers && servers[n].listen == [edits[i].at] && servers[n].tls == edits[i].tls;
        assert n in out;
      } else {
        assert owner in out;
      }
    }
  }

  /** A listener nobody owns was never asked for. */
  lemma NeverAsked(edits: seq<Edit>, servers: Servers, at: Endpoint)
    requires Kept(edits, servers) && !Owned(servers, at)
    ensures forall i :: 0 <= i < |edits| && edits[i].Join? ==> edits[i].at != at
  {
    forall i | 0 <= i < |edits| && edits[i].Join? ensures edits[i].at != at {
      var m :| m in servers && servers[m].listen == [edits[i].at] && servers[m].tls == edits[i].tls;
    }
  }

  lemma NewListener(servers: Servers, name: Name, server: Server, at: Endpoint)
    requires OneListener(servers) && !Owned(servers, at) && name !in servers && server.listen == [at]
    ensures OneListener(servers[name := server]) && forall n :: n in servers ==> servers[n].listen != [at]
  {
  }

  lemma UnusedName(base: Servers, edits: seq<Edit>, servers: Servers, name: Name)
    requires Shape(base, edits, servers) && name.Website? && !Named(edits, name)
    ensures name !in servers
  {
  }

  lemma ShapeNew(base: Servers, edits: seq<Edit>, j: Edit, servers: Servers)
    requires j.Join? && j.name.Website? && !Named(edits, j.name) && Shape(base, edits, servers)
    requires !Owned(servers, j.at)
    ensures Shape(base, edits + [j], MergeNew(servers, j))
  {
    var created := Server([j.at], j.routes + [NOT_FOUND_ROUTE], j.tls);
    var out := servers[j.name := created];
    assert MergeNew(servers, j) == out;
    UnusedName(base, edits, servers, j.name);
    hide ServerShape, Kept, OneListener, Owned, Named, MergeNew;
    NeverAsked(edits, servers, j.at);
    NewListener(servers, j.name, created, j.at);
    Created(base, edits, j);
    forall n | n in out ensures ServerShape(base, edits + [j], n, out[n]) {
      if n != j.name {
        assert ServerShape(base, edits, n, servers[n]);
        Untouched(base, edits, j, n, servers[n]);
      }
    }
    KeepsOffers(edits, j, servers, out, j.name);
  }

  /** The composed configuration, spelled out address by address. */
  lemma {:induction false} ShapeHolds(base: Servers, edits: seq<Edit>)
    requires GatewayBase(base) && Tidy(edits) && ApplyAll(base, edits).Some?
    ensures Shape(base, edits, ApplyAll(base, edits).value)
  {
    if edits == [] {
    } else {
      var before, last := edits[..|edits| - 1], edits[|edits| - 1];
      assert edits == before + [last];
      ShapeHolds(base, before);
      var servers := ApplyAll(base, before).value;
      if last.Replace? {
        ShapeReplace(base, before, last.site, servers);
      } else if Owned(servers, last.at) {
        ShapeMerge(base, before, last, servers, OwnerOf(servers, last.at));
      } else {
        ShapeNew(base, before, last, servers);
      }
    }
  }

  // ---------------------------------------------------------------- the edits of admitted sites

  ghost predicate IdsFrom(edits: seq<Edit>, sites: seq<Site>) {
    forall i :: 0 <= i < |edits| && edits[i].Join? ==>
      edits[i].name.Website? && exists k :: 0 <= k < |sites| && edits[i].name.id == sites[k].id
  }

  lemma SiteEditsTidy(s: Site, container: bool)
    ensures Tidy(SiteEdits(s, container)) && IdsFrom(SiteEdits(s, container), [s])
  {
    hide HttpEndpoint, TlsEndpoint, PublicEndpoint, CaddySites.Valid;
    assert [s][0].id == s.id;
  }

  lemma TidyAppend(a: seq<Edit>, b: seq<Edit>)
    requires Tidy(a) && Tidy(b)
    requires forall i, j :: 0 <= i < |a| && 0 <= j < |b| && a[i].Join? && b[j].Join? ==> a[i].name != b[j].name
    ensures Tidy(a + b)
  {
  }

  lemma {:induction false} EditsTidy(desired: seq<DesiredRoute>, sites: seq<Site>, container: bool)
    requires AllAdmissible(desired, sites)
    ensures Tidy(Edits(sites, container)) && IdsFrom(Edits(sites, container), sites)
  {
    if sites != [] {
      var init, s := sites[..|sites| - 1], sites[|sites| - 1];
      EditsTidy(desired, init, container);
      SiteEditsTidy(s, container);
      var a, b := Edits(init, container), SiteEdits(s, container);
      assert Admissible(desired, init, s);
      assert forall k :: 0 <= k < |init| ==> init[k].id != s.id;
      TidyAppend(a, b);
      forall i | 0 <= i < |a + b| && (a + b)[i].Join?
        ensures (a + b)[i].name.Website? && exists k :: 0 <= k < |sites| && (a + b)[i].name.id == sites[k].id
      {
        if i < |a| {
          var k :| 0 <= k < |init| && a[i].name.id == init[k].id;
          assert sites[k] == init[k];
        } else {
          assert b[i - |a|].name.id == s.id;
          assert sites[|sites| - 1] == s;
        }
      }
    }
  }

  lemma {:induction false} AddedAppend(a: seq<Edit>, b: seq<Edit>, at: Endpoint)
    ensures Added(a + b, at) == Added(b, at) + Added(a, at)
  {
    if b == [] {
      assert a + b == a;
    } else {
      AddedAppend(a, b[..|b| - 1], at);
      assert (a + b)[..|a + b| - 1] == a + b[..|b| - 1];
    }
  }

  lemma {:induction false} RewrittenAppend(a: seq<Edit>, b: seq<Edit>, routes: seq<Route>)
    ensures Rewritten(a + b, routes) == Rewritten(b, Rewritten(a, routes))
  {
    if b == [] {
      assert a + b == a;
    } else {
      RewrittenAppend(a, b[..|b| - 1], routes);
      assert (a + b)[..|a + b| - 1] == a + b[..|b| - 1];
    }
  }

  lemma OneEdit(e: Edit, at: Endpoint, routes: seq<Route>)
    ensures Added([e], at) == (if e.Join? && e.at == at then e.routes else [])
    ensures Rewritten([e], routes) == (if e.Replace? then RewriteRoutes(e.site, routes) else routes)
  {
  }

  lemma FormAppend(a: seq<Edit>, e: Edit, at: Endpoint, routes: seq<Route>)
    ensures Added(a + [e], at) == (if e.Join? && e.at == at then e.routes else []) + Added(a, at)
    ensures e.Join? ==> Rewritten(a + [e], routes) == Rewritten(a, routes)
  {
  }

  ghost function HttpAdded(s: Site, container: bool, at: Endpoint): seq<Route> {
    if HttpEndpoint(s, container) == at then SiteRoutes(s, true) else []
  }

  ghost function TlsAdded(s: Site, container: bool, at: Endpoint): seq<Route> {
    if s.tlsPort != 0 && TlsEndpoint(s, container) == at then SiteRoutes(s, false) else []
  }

  ghost function PublicAdded(s: Site, container: bool, at: Endpoint): seq<Route> {
    if s.tlsPort != 0 && s.publicListen.Some?
        && PublicEndpoint(s.publicListen.value, container) == at then SiteRoutes(s, false) else []
  }

  lemma PlainForm(s: Site, container: bool, at: Endpoint, routes: seq<Route>)
    ensures Rewritten([Replace(s)] + [HttpJoin(s, container)], routes) == RewriteRoutes(s, routes)
    ensures Added([Replace(s)] + [HttpJoin(s, container)], at) == HttpAdded(s, container, at)
  {
    OneEdit(Replace(s), at, routes);
    FormAppend([Replace(s)], HttpJoin(s, container), at, routes);
  }

  lemma SiteEditsForm(s: Site, container: bool, at: Endpoint, routes: seq<Route>)
    ensures Rewritten(SiteEdits(s, container), routes) == RewriteRoutes(s, routes)
    ensures Added(SiteEdits(s, container), at) ==
            PublicAdded(s, container, at) + (TlsAdded(s, container, at) + HttpAdded(s, container, at))
  {
    var plain := [Replace(s)] + [HttpJoin(s, container)];
    PlainForm(s, container, at, routes);
    assert [] + HttpAdded(s, container, at) == HttpAdded(s, container, at);
    if s.tlsPort != 0 {
      FormAppend(plain, TlsJoin(s, container), at, routes);
      var secured := TlsAdded(s, container, at) + HttpAdded(s, container, at);
      assert Added(plain + [TlsJoin(s, container)], at) == secured;
      assert [] + secured == secured;
      if s.publicListen.Some? {
        FormAppend(plain + [TlsJoin(s, container)], PublicJoin(s, container), at, routes);
      }
    }
  }

  // ---------------------------------------------------------------- what must be answered

  function Endpoints(s: Site, container: bool): set<Endpoint> {
    {HttpEndpoint(s, container)}
    + (if s.tlsPort == 0 then {} else
         {TlsEndpoint(s, container)}
         + (if s.publicListen.None? then {} else {PublicEndpoint(s.publicListen.value, container)}))
  }

  predicate Asks(c: Caddy, s: Site, r: Request) {
    c.host(s.hostname, r.host)
  }

  predicate AtRoot(c: Caddy, r: Request) {
    c.path("/", r.path) && r.verb in READ_VERBS
  }

  predicate AtHealth(c: Caddy, r: Request) {
    c.path("/healthz", r.path) && r.verb in READ_VERBS
  }

  /** Different hostnames and the two literal paths are told apart, and no matcher module means no constraint. */
  ghost predicate Literal(c: Caddy, sites: seq<Site>, r: Request) {
    && (forall s, t :: s in sites && t in sites && Asks(c, s, r) && Asks(c, t, r) ==> s.hostname == t.hostname)
    && !(c.path("/", r.path) && c.path("/healthz", r.path))
    && c.other(None, "", r)
  }

  ghost predicate Shows(c: Caddy, sites: seq<Site>, container: bool, at: Endpoint, r: Request, s: Site) {
    s in sites && Asks(c, s, r) && AtRoot(c, r) && at in Endpoints(s, container)
  }

  ghost predicate Probed(c: Caddy, sites: seq<Site>, container: bool, at: Endpoint, r: Request) {
    AtHealth(c, r) && exists s :: s in sites && HttpEndpoint(s, container) == at
  }

  /** The websites' own answers in front of `rest`. */
  ghost function Front(c: Caddy, sites: seq<Site>, container: bool, at: Endpoint, r: Request,
      rest: seq<Handler>): seq<Handler> {
    if exists s :: Shows(c, sites, container, at, r, s) then
      var s :| Shows(c, sites, container, at, r, s); [Document(s.html)]
    else if Probed(c, sites, container, at, r) then [Status(204)]
    else rest
  }

  /** A gateway's routes, with the addressed website's own proxy routes served directly. */
  ghost function Direct(c: Caddy, sites: seq<Site>, routes: seq<Route>, r: Request): seq<Route> {
    if exists s :: s in sites && Asks(c, s, r) then
      var s :| s in sites && Asks(c, s, r); RewriteRoutes(s, routes)
    else routes
  }

  ghost function Expected(c: Caddy, base: Servers, sites: seq<Site>, container: bool, at: Endpoint,
      r: Request): seq<Handler> {
    Front(c, sites, container, at, r,
      if Owned(base, at) then Serve(c, Direct(c, sites, base[OwnerOf(base, at)].routes, r), r) else [Status(404)])
  }

  // ---------------------------------------------------------------- the websites' routes

  ghost predicate Distinct(sites: seq<Site>) {
    forall i, j :: 0 <= i < j < |sites| ==> sites[i].hostname != sites[j].hostname
  }

  lemma DistinctPrefix(sites: seq<Site>)
    requires Distinct(sites) && sites != []
    ensures Distinct(sites[..|sites| - 1])
  {
  }

  /** Nobody else is asked when the last site is. */
  lemma LastAlone(c: Caddy, sites: seq<Site>, r: Request)
    requires sites != [] && Distinct(sites) && Literal(c, sites, r) && Asks(c, sites[|sites| - 1], r)
    ensures forall t :: t in sites[..|sites| - 1] ==> !Asks(c, t, r)
  {
  }

  lemma ServeOne(c: Caddy, route: Route, rest: seq<Route>, r: Request, answer: seq<Handler>)
    requires route.terminal
    ensures ServeOver(c, [route] + rest, r, answer) ==
            if RouteAccepts(c, route, r) then route.handlers else ServeOver(c, rest, r, answer)
  {
  }

  lemma SiteRouteAccepts(c: Caddy, s: Site, r: Request)
    requires c.other(None, "", r)
    ensures RouteAccepts(c, DocumentRoute(s), r) <==> Asks(c, s, r) && AtRoot(c, r)
    ensures RouteAccepts(c, HEALTH_ROUTE, r) <==> AtHealth(c, r)
  {
    var m := DocumentRoute(s).matches[0];
    assert m.hosts == [s.hostname] && m.paths == ["/"];
    assert s.hostname in m.hosts && "/" in m.paths;
    var h := HEALTH_ROUTE.matches[0];
    assert h.paths == ["/healthz"] && "/healthz" in h.paths;
    assert RouteAccepts(c, DocumentRoute(s), r) <==> MatcherAccepts(c, m, r);
    assert RouteAccepts(c, HEALTH_ROUTE, r) <==> MatcherAccepts(c, h, r);
  }

  lemma SiteRoutesServe(c: Caddy, s: Site, health: bool, r: Request, rest: seq<Handler>)
    requires c.other(None, "", r) && !(c.path("/", r.path) && c.path("/healthz", r.path))
    ensures ServeOver(c, SiteRoutes(s, health), r, rest) ==
            if Asks(c, s, r) && AtRoot(c, r) then [Document(s.html)]
            else if health && AtHealth(c, r) then [Status(204)]
            else rest
  {
    SiteRouteAccepts(c, s, r);
    ServeOne(c, DocumentRoute(s), [], r, rest);
    assert [DocumentRoute(s)] + [] == [DocumentRoute(s)];
    if health {
      ServeOne(c, HEALTH_ROUTE, [DocumentRoute(s)], r, rest);
      assert [HEALTH_ROUTE] + [DocumentRoute(s)] == SiteRoutes(s, true);
    }
  }

  lemma PartServes(c: Caddy, s: Site, part: seq<Route>, health: bool, r: Request, rest: seq<Handler>)
    requires c.other(None, "", r) && !(c.path("/", r.path) && c.path("/healthz", r.path))
    requires part == [] || part == SiteRoutes(s, health)
    ensures ServeOver(c, part, r, rest) ==
            if part != [] && Asks(c, s, r) && AtRoot(c, r) then [Document(s.html)]
            else if part != [] && health && AtHealth(c, r) then [Status(204)]
            else rest
  {
    SiteRoutesServe(c, s, health, r, rest);
  }

  lemma SiteAddedServes(c: Caddy, s: Site, container: bool, at: Endpoint, r: Request, rest: seq<Handler>)
    requires c.other(None, "", r) && !(c.path("/", r.path) && c.path("/healthz", r.path))
    ensures ServeOver(c, Added(SiteEdits(s, container), at), r, rest) ==
            if Asks(c, s, r) && AtRoot(c, r) && at in Endpoints(s, container) then [Document(s.html)]
            else if AtHealth(c, r) && HttpEndpoint(s, container) == at then [Status(204)]
            else rest
  {
    SiteEditsForm(s, container, at, []);
    var public, tls, http := PublicAdded(s, container, at), TlsAdded(s, container, at), HttpAdded(s, container, at);
    assert at in Endpoints(s, container) <==> public != [] || tls != [] || http != [];
    ServePrefix(c, public, tls + http, r, rest);
    ServePrefix(c, tls, http, r, rest);
    ThreeParts(c, s, public, tls, http, r, rest);
  }

  lemma ThreeParts(c: Caddy, s: Site, public: seq<Route>, tls: seq<Route>, http: seq<Route>, r: Request,
      rest: seq<Handler>)
    requires c.other(None, "", r) && !(c.path("/", r.path) && c.path("/healthz", r.path))
    requires public == [] || public == SiteRoutes(s, false)
    requires tls == [] || tls == SiteRoutes(s, false)
    requires http == [] || http == SiteRoutes(s, true)
    ensures ServeOver(c, public, r, ServeOver(c, tls, r, ServeOver(c, http, r, rest))) ==
            if Asks(c, s, r) && AtRoot(c, r) && (public != [] || tls != [] || http != []) then [Document(s.html)]
            else if AtHealth(c, r) && http != [] then [Status(204)]
            else rest
  {
    var plain := ServeOver(c, http, r, rest);
    PartServes(c, s, http, true, r, rest);
    PartServes(c, s, tls, false, r, plain);
    PartServes(c, s, public, false, r, ServeOver(c, tls, r, plain));
  }

  lemma {:induction false} FrontServes(c: Caddy, sites: seq<Site>, container: bool, at: Endpoint, r: Request,
      rest: seq<Handler>)
    requires Distinct(sites) && Literal(c, sites, r)
    ensures ServeOver(c, Added(Edits(sites, container), at), r, rest) == Front(c, sites, container, at, r, rest)
  {
    if sites != [] {
      var init, s := sites[..|sites| - 1], sites[|sites| - 1];
      DistinctPrefix(sites);
      FrontServes(c, init, container, at, r, rest);
      AddedAppend(Edits(init, container), SiteEdits(s, container), at);
      ServePrefix(c, Added(SiteEdits(s, container), at), Added(Edits(init, container), at), r, rest);
      SiteAddedServes(c, s, container, at, r, Front(c, init, container, at, r, rest));
      FrontStep(c, sites, container, at, r, rest);
    }
  }

  lemma OneShown(c: Caddy, sites: seq<Site>, init: seq<Site>, container: bool, at: Endpoint, r: Request)
    requires Distinct(sites) && init <= sites && Literal(c, sites, r)
    ensures forall t, u :: Shows(c, init, container, at, r, t) && Shows(c, init, container, at, r, u) ==> t == u
  {
  }

  lemma FrontStep(c: Caddy, sites: seq<Site>, container: bool, at: Endpoint, r: Request, rest: seq<Handler>)
    requires sites != [] && Distinct(sites) && Literal(c, sites, r)
    ensures var init, s := sites[..|sites| - 1], sites[|sites| - 1];
            Front(c, sites, container, at, r, rest) ==
            if Asks(c, s, r) && AtRoot(c, r) && at in Endpoints(s, container) then [Document(s.html)]
            else if AtHealth(c, r) && HttpEndpoint(s, container) == at then [Status(204)]
            else Front(c, init, container, at, r, rest)
  {
    var init, s := sites[..|sites| - 1], sites[|sites| - 1];
    assert sites == init + [s];
    assert forall t :: t in sites <==> t in init || t == s;
    if Asks(c, s, r) {
      LastAlone(c, sites, r);
    }
    assert s in sites;
    if Shows(c, sites, container, at, r, s) {
      assert forall t :: Shows(c, sites, container, at, r, t) ==> t == s;
    } else {
      forall t ensures Shows(c, sites, container, at, r, t) <==> Shows(c, init, container, at, r, t) {
      }
      OneShown(c, sites, init, container, at, r);
    }
  }
}
