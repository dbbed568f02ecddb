/**
 Main results about website composition (internal/agent/caddy_sites.go:112-246):
 the composed configuration answers every request to every listener as `Expected`
 says, and what that implies for gateway traffic, websites and listeners.
 */
module CaddyTheorems {
  import opened Prelude
  import opened CaddyModel
  import opened CaddySites
  import opened CaddyMeaning

  // ---------------------------------------------------------------- serving a site directly

  ghost predicate Agree(c: Caddy, a: seq<Route>, b: seq<Route>, r: Request) {
    && |a| == |b|
    && (forall i :: 0 <= i < |a| ==> RouteAccepts(c, a[i], r) == RouteAccepts(c, b[i], r))
    && (forall i :: 0 <= i < |a| && RouteAccepts(c, a[i], r) ==>
        a[i].handlers == b[i].handlers && a[i].terminal == b[i].terminal)
  }

  /** The route is bound to one hostname and that hostname is not the request's. */
  ghost predicate Elsewhere(c: Caddy, route: Route, hostname: string, r: Request) {
    |route.matches| == 1 && route.matches[0].hosts == [hostname] && !c.host(hostname, r.host)
  }

  lemma ElsewhereRefuses(c: Caddy, route: Route, hostname: string, r: Request)
    requires Elsewhere(c, route, hostname, r)
    ensures !RouteAccepts(c, route, r)
  {
  }

  lemma RewriteIrrelevant(c: Caddy, s: Site, routes: seq<Route>, r: Request)
    requires !Asks(c, s, r)
    ensures Agree(c, RewriteRoutes(s, routes), routes, r)
  {
    var out := RewriteRoutes(s, routes);
    forall i | 0 <= i < |routes|
      ensures out[i] == routes[i] || (!RouteAccepts(c, out[i], r) && !RouteAccepts(c, routes[i], r))
    {
      if OwnProxy(s, routes[i]) {
        ElsewhereRefuses(c, routes[i], s.hostname, r);
        ElsewhereRefuses(c, out[i], s.hostname, r);
      }
    }
  }

  /** Sites that the request does not ask for leave a route alone or keep it out of the request's way. */
  lemma {:induction false} RewrittenElsewhere(c: Caddy, sites: seq<Site>, container: bool, routes: seq<Route>,
      r: Request)
    requires forall t :: t in sites ==> !Asks(c, t, r)
    ensures |Rewritten(Edits(sites, container), routes)| == |routes|
    ensures forall i :: 0 <= i < |routes| ==>
              || Rewritten(Edits(sites, container), routes)[i] == routes[i]
              || exists t :: t in sites && Elsewhere(c, routes[i], t.hostname, r)
                             && Elsewhere(c, Rewritten(Edits(sites, container), routes)[i], t.hostname, r)
  {
    if sites != [] {
      var init, s := sites[..|sites| - 1], sites[|sites| - 1];
      RewrittenElsewhere(c, init, container, routes, r);
      var before, out := Rewritten(Edits(init, container), routes), Rewritten(Edits(sites, container), routes);
      RewrittenAppend(Edits(init, container), SiteEdits(s, container), routes);
      SiteEditsForm(s, container, Endpoint("", 0), before);
      assert out == RewriteRoutes(s, before);
      forall i | 0 <= i < |routes|
        ensures || out[i] == routes[i]
                || exists t :: (&& t in sites && Elsewhere(c, routes[i], t.hostname, r)
                                && Elsewhere(c, out[i], t.hostname, r))
      {
        if before[i] == routes[i] {
          if OwnProxy(s, before[i]) {
            assert s in sites && Elsewhere(c, routes[i], s.hostname, r) && Elsewhere(c, out[i], s.hostname, r);
          }
        } else {
          var t :| t in init && Elsewhere(c, routes[i], t.hostname, r) && Elsewhere(c, before[i], t.hostname, r);
          assert t in sites;
          assert Elsewhere(c, out[i], t.hostname, r);
        }
      }
    }
  }

  lemma RewriteAfterOthers(c: Caddy, s: Site, before: seq<Route>, routes: seq<Route>, others: seq<Site>, r: Request)
    requires |before| == |routes| && Asks(c, s, r)
    requires forall i :: 0 <= i < |routes| ==>
               || before[i] == routes[i]
               || exists t :: t in others && Elsewhere(c, routes[i], t.hostname, r)
                              && Elsewhere(c, before[i], t.hostname, r)
    ensures Agree(c, RewriteRoutes(s, before), RewriteRoutes(s, routes), r)
  {
    var a, b := RewriteRoutes(s, before), RewriteRoutes(s, routes);
    forall i | 0 <= i < |routes| && before[i] != routes[i]
      ensures a[i] == before[i] && b[i] == routes[i] && !RouteAccepts(c, a[i], r) && !RouteAccepts(c, b[i], r)
    {
      var t :| t in others && Elsewhere(c, routes[i], t.hostname, r) && Elsewhere(c, before[i], t.hostname, r);
      assert [s.hostname][0] == s.hostname && [t.hostname][0] == t.hostname;
      ElsewhereRefuses(c, routes[i], t.hostname, r);
      ElsewhereRefuses(c, before[i], t.hostname, r);
    }
  }

  lemma AgreeTransitive(c: Caddy, x: seq<Route>, y: seq<Route>, z: seq<Route>, r: Request)
    requires Agree(c, x, y, r) && Agree(c, y, z, r)
    ensures Agree(c, x, z, r)
  {
  }

  lemma {:induction false} RewrittenAgrees(c: Caddy, sites: seq<Site>, container: bool, routes: seq<Route>, r: Request)
    requires Distinct(sites) && Literal(c, sites, r)
    ensures Agree(c, Rewritten(Edits(sites, container), routes), Direct(c, sites, routes, r), r)
  {
    if sites != [] {
      var init, s := sites[..|sites| - 1], sites[|sites| - 1];
      var before := Rewritten(Edits(init, container), routes);
      RewrittenAppend(Edits(init, container), SiteEdits(s, container), routes);
      SiteEditsForm(s, container, Endpoint("", 0), before);
      assert forall t :: t in sites <==> t in init || t == s;
      if Asks(c, s, r) {
        LastAlone(c, sites, r);
        assert s in sites;
        assert Direct(c, sites, routes, r) == RewriteRoutes(s, routes);
        RewrittenElsewhere(c, init, container, routes, r);
        RewriteAfterOthers(c, s, before, routes, init, r);
      } else {
        DistinctPrefix(sites);
        RewrittenAgrees(c, init, container, routes, r);
        DirectSame(c, sites, routes, r);
        RewriteIrrelevant(c, s, before, r);
        AgreeTransitive(c, RewriteRoutes(s, before), before, Direct(c, init, routes, r), r);
      }
    }
  }

  lemma DirectSame(c: Caddy, sites: seq<Site>, routes: seq<Route>, r: Request)
    requires sites != [] && Distinct(sites) && Literal(c, sites, r) && !Asks(c, sites[|sites| - 1], r)
    ensures Direct(c, sites, routes, r) == Direct(c, sites[..|sites| - 1], routes, r)
  {
  }

  // ---------------------------------------------------------------- the main theorem

  lemma AdmittedDistinct(desired: seq<DesiredRoute>, sites: seq<Site>)
    requires AllAdmissible(desired, sites)
    ensures Distinct(sites)
  {
  }

  ghost predicate Listed(edits: seq<Edit>, at: Endpoint) {
    exists i :: 0 <= i < |edits| && edits[i].Join? && edits[i].at == at
  }

  lemma {:induction false} ListedByEdits(sites: seq<Site>, container: bool, at: Endpoint)
    ensures Listed(Edits(sites, container), at) <==> exists s :: s in sites && at in Endpoints(s, container)
  {
    if sites != [] {
      var init, s := sites[..|sites| - 1], sites[|sites| - 1];
      ListedByEdits(init, container, at);
      assert forall t :: t in sites <==> t in init || t == s;
      ListedAppend(Edits(init, container), SiteEdits(s, container), at);
      ListedBySite(s, container, at);
    }
  }

  lemma ListedAppend(a: seq<Edit>, b: seq<Edit>, at: Endpoint)
    ensures Listed(a + b, at) <==> Listed(a, at) || Listed(b, at)
  {
    if Listed(a, at) {
      var i :| 0 <= i < |a| && a[i].Join? && a[i].at == at;
      assert (a + b)[i] == a[i];
    }
    if Listed(b, at) {
      var i :| 0 <= i < |b| && b[i].Join? && b[i].at == at;
      assert (a + b)[|a| + i] == b[i];
    }
  }

  lemma ListedBySite(s: Site, container: bool, at: Endpoint)
    ensures Listed(SiteEdits(s, container), at) <==> at in Endpoints(s, container)
  {
    var b := SiteEdits(s, container);
    assert b[1] == HttpJoin(s, container);
    if s.tlsPort != 0 {
      assert b[2] == TlsJoin(s, container);
      if s.publicListen.Some? {
        assert b[3] == PublicJoin(s, container);
      }
    }
  }

  lemma ListenersAre(base: Servers, edits: seq<Edit>, out: Servers, at: Endpoint)
    requires GatewayBase(base) && Shape(base, edits, out)
    ensures Owned(out, at) <==> Owned(base, at) || Listed(edits, at)
  {
  }

  lemma TailIs(base: Servers, edits: seq<Edit>, out: Servers, at: Endpoint)
    requires GatewayBase(base) && Shape(base, edits, out) && Owned(out, at)
    ensures out[OwnerOf(out, at)].routes ==
            Added(edits, at) + (if Owned(base, at) then Rewritten(edits, base[OwnerOf(base, at)].routes)
                else [NOT_FOUND_ROUTE])
  {
  }

  /** Every request to every listener gets exactly the expected handlers. */
  lemma CompositionMeaning(c: Caddy, base: Servers, desired: seq<DesiredRoute>, sites: seq<Site>, container: bool,
                           at: Endpoint, r: Request)
    requires GatewayBase(base) && Literal(c, sites, r)
    requires Composition(base, desired, sites, container).Some?
    ensures var out := Composition(base, desired, sites, container).value;
            && OneListener(out)
            && (Owned(out, at) <==> Owned(base, at) || exists s :: s in sites && at in Endpoints(s, container))
            && (Owned(out, at) ==>
                Serve(c, out[OwnerOf(out, at)].routes, r) == Expected(c, base, sites, container, at, r))
  {
    var edits := Edits(sites, container);
    var out := Composition(base, desired, sites, container).value;
    EditsTidy(desired, sites, container);
    ShapeHolds(base, edits);
    AdmittedDistinct(desired, sites);
    ListedByEdits(sites, container, at);
    ListenersAre(base, edits, out, at);
    if Owned(out, at) {
      TailIs(base, edits, out, at);
      var tail := if Owned(base, at) then Rewritten(edits, base[OwnerOf(base, at)].routes) else [NOT_FOUND_ROUTE];
      ServePrefix(c, Added(edits, at), tail, r, []);
      FrontServes(c, sites, container, at, r, ServeOver(c, tail, r, []));
      if Owned(base, at) {
        var routes := base[OwnerOf(base, at)].routes;
        RewrittenAgrees(c, sites, container, routes, r);
        ServeCongruence(c, tail, Direct(c, sites, routes, r), r, []);
      } else {
        ServeOne(c, NOT_FOUND_ROUTE, [], r, []);
        assert [NOT_FOUND_ROUTE] + [] == [NOT_FOUND_ROUTE];
      }
    }
  }

  // ---------------------------------------------------------------- consequences

  /**
   Where the gateway proxied a website's own host to its own upstream, it now serves the document, to reads of the
   root only.
   */
  lemma OwnProxyServesDocument(c: Caddy, s: Site, m: Matcher, terminal: bool, r: Request)
    requires m.hosts == [s.hostname] && m.header.None? && (m.paths == [] || m.paths == ["/"])
    ensures var now := RewriteRoute(s, Route([m], [Proxy([Endpoint(s.address, s.httpPort)])], terminal));
            && now.handlers == [Document(s.html)] && now.terminal == terminal
            && (RouteAccepts(c, now, r) <==> Asks(c, s, r) && AtRoot(c, r) && c.other(None, m.other, r))
  {
    var now := RewriteRoute(s, Route([m], [Proxy([Endpoint(s.address, s.httpPort)])], terminal));
    var n := now.matches[0];
    assert n.hosts == [s.hostname] && n.paths == ["/"];
    assert RouteAccepts(c, now, r) <==> MatcherAccepts(c, n, r);
    if Asks(c, s, r) && AtRoot(c, r) {
      assert n.hosts[0] in n.hosts && n.paths[0] in n.paths;
    }
  }

  /** Every other route stays: other hosts, other or several paths, header conditions, other upstreams. */
  lemma OtherRoutesStay(s: Site, route: Route)
    requires || |route.matches| != 1 || route.handlers != [Proxy([Endpoint(s.address, s.httpPort)])]
             || route.matches[0].hosts != [s.hostname] || route.matches[0].header.Some?
             || (route.matches[0].paths != [] && route.matches[0].paths != ["/"])
    ensures RewriteRoute(s, route) == route
  {
  }

  /** The route sends the website's own host, at the root or at every path, to the website's own upstream. */
  predicate Publishes(s: Site, route: Route) {
    && |route.matches| == 1 && route.handlers == [Proxy([Endpoint(s.address, s.httpPort)])]
    && route.matches[0].hosts == [s.hostname] && route.matches[0].header.None?
    && (route.matches[0].paths == [] || route.matches[0].paths == ["/"])
  }

  /** How the gateway answers when the website's document takes the place of the proxy to it. */
  function Published(c: Caddy, s: Site, routes: seq<Route>, r: Request): seq<Handler> {
    if routes == [] then []
    else
      var route, rest := routes[0], Published(c, s, routes[1..], r);
      if Publishes(s, route) then
        if !Asks(c, s, r) || !AtRoot(c, r) || !c.other(None, route.matches[0].other, r) then rest
        else if route.terminal then [Document(s.html)]
        else [Document(s.html)] + rest
      else if !RouteAccepts(c, route, r) then rest
      else if route.terminal then route.handlers
      else route.handlers + rest
  }

  /** Serving a website directly changes exactly the answers of the routes that published it. */
  lemma {:induction false} ServesDirectly(c: Caddy, s: Site, routes: seq<Route>, r: Request)
    ensures Serve(c, RewriteRoutes(s, routes), r) == Published(c, s, routes, r)
  {
    if routes != [] {
      ServesDirectly(c, s, routes[1..], r);
      var now := RewriteRoutes(s, routes);
      assert now[0] == RewriteRoute(s, routes[0]) && now[1..] == RewriteRoutes(s, routes[1..]);
      hide RewriteRoute, RouteAccepts;
      if Publishes(s, routes[0]) {
        var m := routes[0].matches[0];
        assert routes[0].matches == [m];
        OwnProxyServesDocument(c, s, m, routes[0].terminal, r);
      } else {
        OtherRoutesStay(s, routes[0]);
      }
    }
  }

  /** The handlers that answer `r` at an address of a configuration. */
  ghost function Answer(c: Caddy, servers: Servers, at: Endpoint, r: Request): seq<Handler>
    requires Owned(servers, at)
  {
    Serve(c, servers[OwnerOf(servers, at)].routes, r)
  }

  /** Gateway traffic for other hosts is answered as before; only health probes of a shared plain listener are not. */
  lemma GatewayUndisturbed(c: Caddy, base: Servers, desired: seq<DesiredRoute>, sites: seq<Site>, container: bool,
                           at: Endpoint, r: Request)
    requires GatewayBase(base) && Literal(c, sites, r) && Owned(base, at)
    requires Composition(base, desired, sites, container).Some?
    requires forall s :: s in sites ==> !Asks(c, s, r)
    ensures var out := Composition(base, desired, sites, container).value;
            && Owned(out, at)
            && out[OwnerOf(out, at)].tls == base[OwnerOf(base, at)].tls
            && Answer(c, out, at, r) ==
                (if Probed(c, sites, container, at, r) then [Status(204)] else Answer(c, base, at, r))
    ensures base[OwnerOf(base, at)].tls ==> !Probed(c, sites, container, at, r)
  {
    CompositionMeaning(c, base, desired, sites, container, at, r);
    var edits := Edits(sites, container);
    var out := Composition(base, desired, sites, container).value;
    EditsTidy(desired, sites, container);
    ShapeHolds(base, edits);
    var n := OwnerOf(base, at);
    assert ServerShape(base, edits, n, out[n]);
    assert OwnerOf(out, at) == n;
    if s :| s in sites && HttpEndpoint(s, container) == at {
      SiteListeners(base, desired, sites, container, s);
    }
  }

  /** A server with no address or with several is joined by no website: only its proxies to websites change. */
  lemma WideServersOnlyRewritten(c: Caddy, base: Servers, desired: seq<DesiredRoute>, sites: seq<Site>, container: bool,
                                 n: Name, r: Request)
    requires GatewayBase(base) && Literal(c, sites, r) && n in base && |base[n].listen| != 1
    requires Composition(base, desired, sites, container).Some?
    ensures var out := Composition(base, desired, sites, container).value;
            && n in out && out[n].listen == base[n].listen && out[n].tls == base[n].tls
            && Serve(c, out[n].routes, r) == Serve(c, Direct(c, sites, base[n].routes, r), r)
  {
    var edits := Edits(sites, container);
    EditsTidy(desired, sites, container);
    ShapeHolds(base, edits);
    AdmittedDistinct(desired, sites);
    var out := Composition(base, desired, sites, container).value;
    assert ServerShape(base, edits, n, out[n]);
    assert out[n].routes == Rewritten(edits, base[n].routes);
    RewrittenAgrees(c, sites, container, base[n].routes, r);
    ServeCongruence(c, Rewritten(edits, base[n].routes), Direct(c, sites, base[n].routes, r), r, []);
  }

  /** Hosts of system routes cannot belong to a website, so the gateway keeps answering for them. */
  lemma SystemHostsUndisturbed(c: Caddy, base: Servers, desired: seq<DesiredRoute>, sites: seq<Site>, container: bool,
                               at: Endpoint, r: Request, system: DesiredRoute)
    requires GatewayBase(base) && Literal(c, sites, r) && Owned(base, at)
    requires Composition(base, desired, sites, container).Some?
    requires system in desired && system.system
    requires forall s :: s in sites && Asks(c, s, r) ==> s.hostname == system.hostname
    requires !AtHealth(c, r)
    ensures var out := Composition(base, desired, sites, container).value;
            Owned(out, at) && Answer(c, out, at, r) == Answer(c, base, at, r)
  {
    forall s | s in sites ensures !Asks(c, s, r) {
      var k :| 0 <= k < |sites| && sites[k] == s;
      AdmittedEach(desired, sites, k);
    }
    GatewayUndisturbed(c, base, desired, sites, container, at, r);
  }

  /** A website's document is served on each of its listeners, however many websites share them. */
  lemma EverySiteServed(c: Caddy, base: Servers, desired: seq<DesiredRoute>, sites: seq<Site>, container: bool,
                        s: Site, at: Endpoint, r: Request)
    requires GatewayBase(base) && Literal(c, sites, r)
    requires Composition(base, desired, sites, container).Some?
    requires s in sites && at in Endpoints(s, container) && Asks(c, s, r) && AtRoot(c, r)
    ensures var out := Composition(base, desired, sites, container).value;
            Owned(out, at) && Answer(c, out, at, r) == [Document(s.html)]
  {
    CompositionMeaning(c, base, desired, sites, container, at, r);
    AdmittedDistinct(desired, sites);
    assert Shows(c, sites, container, at, r, s);
    forall t | Shows(c, sites, container, at, r, t) ensures t == s {
      var i :| 0 <= i < |sites| && sites[i] == s;
      var j :| 0 <= j < |sites| && sites[j] == t;
    }
  }

  /** On a listener that only websites use, everything but their documents and probes is not found. */
  lemma WebsiteListenersEndInNotFound(c: Caddy, base: Servers, desired: seq<DesiredRoute>, sites: seq<Site>,
      container: bool,
                                      at: Endpoint, r: Request)
    requires GatewayBase(base) && Literal(c, sites, r) && !Owned(base, at)
    requires Composition(base, desired, sites, container).Some?
    requires Owned(Composition(base, desired, sites, container).value, at)
    ensures var out := Composition(base, desired, sites, container).value;
            && (forall s :: !Shows(c, sites, container, at, r, s)) && !Probed(c, sites, container, at, r)
               ==> Answer(c, out, at, r) == [Status(404)]
    ensures var routes :=
              Composition(base, desired, sites,
              container).value[OwnerOf(Composition(base, desired, sites, container).value, at)].routes;
            routes != [] && routes[|routes| - 1] == NOT_FOUND_ROUTE
  {
    CompositionMeaning(c, base, desired, sites, container, at, r);
    EditsTidy(desired, sites, container);
    ShapeHolds(base, Edits(sites, container));
    TailIs(base, Edits(sites, container), Composition(base, desired, sites, container).value, at);
  }

  // ---------------------------------------------------------------- plain and TLS listeners

  lemma {:induction false} SiteEditIn(sites: seq<Site>, container: bool, s: Site, k: nat) returns (i: nat)
    requires s in sites && k < |SiteEdits(s, container)|
    ensures i < |Edits(sites, container)| && Edits(sites, container)[i] == SiteEdits(s, container)[k]
  {
    var init, last := sites[..|sites| - 1], sites[|sites| - 1];
    if s == last {
      i := |Edits(init, container)| + k;
    } else {
      assert s in init;
      i := SiteEditIn(init, container, s, k);
    }
  }

  /** No listener mixes plain and TLS: a website's listeners have the protocol the website gave them. */
  lemma SiteListeners(base: Servers, desired: seq<DesiredRoute>, sites: seq<Site>, container: bool, s: Site)
    requires GatewayBase(base) && s in sites
    requires Composition(base, desired, sites, container).Some?
    ensures var out := Composition(base, desired, sites, container).value;
            && Owned(out, HttpEndpoint(s, container)) && !out[OwnerOf(out, HttpEndpoint(s, container))].tls
            && forall at :: at in Endpoints(s, container) && at != HttpEndpoint(s, container) ==>
                Owned(out, at) && out[OwnerOf(out, at)].tls
  {
    SiteListener(base, desired, sites, container, s, 1, HttpJoin(s, container));
    if s.tlsPort != 0 {
      SiteListener(base, desired, sites, container, s, 2, TlsJoin(s, container));
      if s.publicListen.Some? {
        SiteListener(base, desired, sites, container, s, 3, PublicJoin(s, container));
      }
    }
  }

  lemma SiteListener(base: Servers, desired: seq<DesiredRoute>, sites: seq<Site>, container: bool, s: Site, k: nat,
      e: Edit)
    requires GatewayBase(base) && s in sites && k < |SiteEdits(s, container)| && SiteEdits(s, container)[k] == e
               && e.Join?
    requires Composition(base, desired, sites, container).Some?
    ensures var out := Composition(base, desired, sites, container).value;
            Owned(out, e.at) && out[OwnerOf(out, e.at)].tls == e.tls
  {
    var edits := Edits(sites, container);
    var i := SiteEditIn(sites, container, s, k);
    assert edits[i] == e;
    EditsTidy(desired, sites, container);
    ShapeHolds(base, edits);
    JoinedListener(base, edits, ApplyAll(base, edits).value, i);
  }

  lemma JoinedListener(base: Servers, edits: seq<Edit>, out: Servers, i: nat)
    requires Shape(base, edits, out) && i < |edits| && edits[i].Join?
    ensures Owned(out, edits[i].at) && out[OwnerOf(out, edits[i].at)].tls == edits[i].tls
  {
  }

  /** One protocol per address, over the gateway and all websites. */
  ghost predicate OneProtocol(base: Servers, edits: seq<Edit>) {
    && (forall i, j :: 0 <= i < j < |edits| && edits[i].Join? && edits[j].Join? && edits[i].at == edits[j].at ==>
        edits[i].tls == edits[j].tls)
    && (forall i :: 0 <= i < |edits| && edits[i].Join? && Owned(base, edits[i].at) ==>
        base[OwnerOf(base, edits[i].at)].tls == edits[i].tls)
  }

  /** Whoever owns an address runs the protocol everybody asked for there. */
  lemma OwnerProtocol(base: Servers, edits: seq<Edit>, servers: Servers, at: Endpoint)
    requires GatewayBase(base) && Shape(base, edits, servers) && Owned(servers, at)
    ensures var tls := servers[OwnerOf(servers, at)].tls;
            && (forall i :: 0 <= i < |edits| && edits[i].Join? && edits[i].at == at ==> edits[i].tls == tls)
            && (Owned(base, at) ==> base[OwnerOf(base, at)].tls == tls)
            && (Owned(base, at) || Offered(edits, at, tls))
  {
  }

  lemma ProtocolAppend(base: Servers, edits: seq<Edit>, j: Edit)
    requires OneProtocol(base, edits)
    ensures OneProtocol(base, edits + [j]) <==>
            (j.Join? ==>
              && (forall i :: 0 <= i < |edits| && edits[i].Join? && edits[i].at == j.at ==> edits[i].tls == j.tls)
              && (Owned(base, j.at) ==> base[OwnerOf(base, j.at)].tls == j.tls))
  {
    var next := edits + [j];
    assert next[|edits|] == j;
    assert forall i :: 0 <= i < |edits| ==> next[i] == edits[i];
  }

  lemma ProtocolStep(base: Servers, edits: seq<Edit>, j: Edit, servers: Servers)
    requires GatewayBase(base) && OneProtocol(base, edits) && Shape(base, edits, servers)
    ensures OneProtocol(base, edits + [j]) <==> Apply(servers, j).Some?
  {
    ProtocolAppend(base, edits, j);
    if j.Join? {
      ListenersAre(base, edits, servers, j.at);
      if Owned(servers, j.at) {
        OwnerProtocol(base, edits, servers, j.at);
      }
    }
  }

  lemma {:induction false} AppliesExactlyWhen(base: Servers, edits: seq<Edit>)
    requires GatewayBase(base) && Tidy(edits)
    ensures ApplyAll(base, edits).Some? <==> OneProtocol(base, edits)
  {
    if edits != [] {
      var before, last := edits[..|edits| - 1], edits[|edits| - 1];
      assert edits == before + [last];
      AppliesExactlyWhen(base, before);
      if ApplyAll(base, before).Some? {
        ShapeHolds(base, before);
        ProtocolStep(base, before, last, ApplyAll(base, before).value);
      } else {
        assert !OneProtocol(base, before);
        assert forall i :: 0 <= i < |before| ==> before[i] == edits[i];
      }
    }
  }

  /** A website whose fields are in their ranges. */
  ghost predicate Fits(s: Site) {
    && s.sealed && s.id != "" && |s.id| < 257 && s.html != "" && |s.html| <= 512 * 1024
    && 1024 <= s.httpPort < 65536
    && (s.tlsPort != 0 ==> 1024 <= s.tlsPort < 65536 && s.tlsPort != s.httpPort)
    && (s.publicListen.None? || s.publicListen.value.port == 443)
  }

  /** Websites that fit, with identities and hostnames of their own, away from the system routes. */
  ghost predicate Fitting(desired: seq<DesiredRoute>, sites: seq<Site>) {
    && (forall i :: 0 <= i < |sites| ==> Fits(sites[i]))
    && (forall i, j :: 0 <= i < j < |sites| ==> sites[i].id != sites[j].id && sites[i].hostname != sites[j].hostname)
    && (forall i, k :: 0 <= i < |sites| && 0 <= k < |desired| && desired[k].system ==>
          desired[k].hostname != sites[i].hostname)
  }

  lemma {:induction false} AdmissibleExactly(desired: seq<DesiredRoute>, sites: seq<Site>)
    ensures AllAdmissible(desired, sites) <==> Fitting(desired, sites)
  {
    if sites != [] {
      var earlier, last := sites[..|sites| - 1], sites[|sites| - 1];
      AdmissibleExactly(desired, earlier);
      assert Valid(last) <==> Fits(last);
      hide Valid, Fits;
      assert forall t :: t in earlier <==> exists i :: 0 <= i < |sites| - 1 && sites[i] == t;
    }
  }

  /** Composition is refused for inadmissible sites and protocol clashes, and for nothing else. */
  lemma ComposesExactlyWhen(base: Servers, desired: seq<DesiredRoute>, sites: seq<Site>, container: bool)
    requires GatewayBase(base)
    ensures Composition(base, desired, sites, container).Some? <==>
            Fitting(desired, sites) && OneProtocol(base, Edits(sites, container))
  {
    AdmissibleExactly(desired, sites);
    hide Fitting;
    if AllAdmissible(desired, sites) {
      EditsTidy(desired, sites, container);
      AppliesExactlyWhen(base, Edits(sites, container));
    }
  }

  // ---------------------------------------------------------------- by the fields of a website

  /** A listener of the given protocol that answers the request with the page. */
  ghost predicate Serves(c: Caddy, out: Servers, at: Endpoint, tls: bool, r: Request, html: string) {
    Owned(out, at) && out[OwnerOf(out, at)].tls == tls && Answer(c, out, at, r) == [Document(html)]
  }

  lemma ServedAt(c: Caddy, base: Servers, desired: seq<DesiredRoute>, sites: seq<Site>, container: bool, s: Site,
                 r: Request)
    requires GatewayBase(base) && Literal(c, sites, r) && s in sites && Asks(c, s, r) && AtRoot(c, r)
    requires Composition(base, desired, sites, container).Some?
    ensures var out := Composition(base, desired, sites, container).value;
            && Serves(c, out, HttpEndpoint(s, container), false, r, s.html)
            && (s.tlsPort != 0 ==> Serves(c, out, TlsEndpoint(s, container), true, r, s.html))
            && (s.tlsPort != 0 && s.publicListen.Some? ==>
                  Serves(c, out, PublicEndpoint(s.publicListen.value, container), true, r, s.html))
  {
    SiteListener(base, desired, sites, container, s, 1, HttpJoin(s, container));
    EverySiteServed(c, base, desired, sites, container, s, HttpEndpoint(s, container), r);
    if s.tlsPort != 0 {
      SiteListener(base, desired, sites, container, s, 2, TlsJoin(s, container));
      EverySiteServed(c, base, desired, sites, container, s, TlsEndpoint(s, container), r);
      if s.publicListen.Some? {
        SiteListener(base, desired, sites, container, s, 3, PublicJoin(s, container));
        EverySiteServed(c, base, desired, sites, container, s, PublicEndpoint(s.publicListen.value, container), r);
      }
    }
  }

  /**
   On a host every accepted website answers reads of its root with its page: plain on its own address and port,
   over TLS on the loopback address and on its public address.
   */
  lemma ServedOnHost(c: Caddy, base: Servers, desired: seq<DesiredRoute>, sites: seq<Site>, s: Site, r: Request)
    requires GatewayBase(base) && Literal(c, sites, r) && s in sites && Composition(base, desired, sites, false).Some?
    requires c.host(s.hostname, r.host) && c.path("/", r.path) && (r.verb == "GET" || r.verb == "HEAD")
    ensures var out := Composition(base, desired, sites, false).value;
            && Serves(c, out, Endpoint(s.address, s.httpPort), false, r, s.html)
            && (s.tlsPort != 0 ==> Serves(c, out, Endpoint("127.0.0.1", s.tlsPort), true, r, s.html))
            && (s.tlsPort != 0 && s.publicListen.Some? ==> Serves(c, out, s.publicListen.value, true, r, s.html))
  {
    ServedAt(c, base, desired, sites, false, s, r);
    hide Serves, Composition;
  }

  /** In a container the same holds on every address of the container, with the public port 443. */
  lemma ServedInContainer(c: Caddy, base: Servers, desired: seq<DesiredRoute>, sites: seq<Site>, s: Site, r: Request)
    requires GatewayBase(base) && Literal(c, sites, r) && s in sites && Composition(base, desired, sites, true).Some?
    requires c.host(s.hostname, r.host) && c.path("/", r.path) && (r.verb == "GET" || r.verb == "HEAD")
    ensures var out := Composition(base, desired, sites, true).value;
            && Serves(c, out, Endpoint("0.0.0.0", s.httpPort), false, r, s.html)
            && (s.tlsPort != 0 ==> Serves(c, out, Endpoint("0.0.0.0", s.tlsPort), true, r, s.html))
            && (s.tlsPort != 0 && s.publicListen.Some? ==> Serves(c, out, Endpoint("0.0.0.0", 443), true, r, s.html))
  {
    ServedAt(c, base, desired, sites, true, s, r);
    hide Serves, Composition;
  }

  /** The listeners a website may add, by its own fields. */
  ghost predicate AskedFor(s: Site, container: bool, at: Endpoint, tls: bool) {
    || (!tls && at == Endpoint(if container then "0.0.0.0" else s.address, s.httpPort) && 1024 <= at.port <= 65535)
    || (tls && at == Endpoint(if container then "0.0.0.0" else "127.0.0.1", s.tlsPort) && 1024 <= at.port <= 65535)
    || (tls && s.publicListen.Some? && at.port == 443
        && at.host == (if container then "0.0.0.0" else s.publicListen.value.host))
  }

  /** Nothing else is listened on: every server is the gateway's with its addresses, or has one address of a website. */
  lemma ListensOnlyAt(base: Servers, desired: seq<DesiredRoute>, sites: seq<Site>, container: bool, n: Name)
    requires GatewayBase(base) && Composition(base, desired, sites, container).Some?
    requires n in Composition(base, desired, sites, container).value
    ensures var server := Composition(base, desired, sites, container).value[n];
            || (n in base && server.listen == base[n].listen && server.tls == base[n].tls)
            || (|server.listen| == 1 && exists s :: s in sites && AskedFor(s, container, server.listen[0], server.tls))
  {
    var edits := Edits(sites, container);
    var out := Composition(base, desired, sites, container).value;
    EditsTidy(desired, sites, container);
    ShapeHolds(base, edits);
    assert ServerShape(base, edits, n, out[n]);
    if n.Website? {
      var at, tls := out[n].listen[0], out[n].tls;
      var i :| 0 <= i < |edits| && edits[i].Join? && edits[i].at == at && edits[i].tls == tls;
      var s := EditOfSite(desired, sites, container, i);
      assert s in sites && AskedFor(s, container, at, tls);
    }
  }

  lemma SiteAsksFor(s: Site, container: bool, k: int)
    requires Valid(s) && 0 <= k < |SiteEdits(s, container)| && SiteEdits(s, container)[k].Join?
    ensures AskedFor(s, container, SiteEdits(s, container)[k].at, SiteEdits(s, container)[k].tls)
  {
    hide SiteRoutes;
  }

  /** Every listener that is asked for is one of an accepted website. */
  lemma {:induction false} EditOfSite(desired: seq<DesiredRoute>, sites: seq<Site>, container: bool, i: int)
      returns (s: Site)
    requires AllAdmissible(desired, sites) && 0 <= i < |Edits(sites, container)| && Edits(sites, container)[i].Join?
    ensures s in sites && AskedFor(s, container, Edits(sites, container)[i].at, Edits(sites, container)[i].tls)
  {
    hide SiteEdits, Valid, AskedFor;
    var init, last := sites[..|sites| - 1], sites[|sites| - 1];
    if i < |Edits(init, container)| {
      s := EditOfSite(desired, init, container, i);
    } else {
      s := last;
      SiteAsksFor(s, container, i - |Edits(init, container)|);
    }
  }

  /** A listener that only websites use answers nothing but reads of a root or of the health path. */
  lemma NothingElseServed(c: Caddy, base: Servers, desired: seq<DesiredRoute>, sites: seq<Site>, container: bool,
                          at: Endpoint, r: Request)
    requires GatewayBase(base) && Literal(c, sites, r) && !Owned(base, at)
    requires Composition(base, desired, sites, container).Some?
    requires Owned(Composition(base, desired, sites, container).value, at)
    requires (r.verb != "GET" && r.verb != "HEAD") || (!c.path("/", r.path) && !c.path("/healthz", r.path))
    ensures Answer(c, Composition(base, desired, sites, container).value, at, r) == [Status(404)]
  {
    WebsiteListenersEndInNotFound(c, base, desired, sites, container, at, r);
  }

  /** Reads of the health path on a website's plain listener are answered 204. */
  lemma ProbesAnswered(c: Caddy, base: Servers, desired: seq<DesiredRoute>, sites: seq<Site>, container: bool, s: Site,
                       r: Request)
    requires GatewayBase(base) && Literal(c, sites, r) && s in sites
    requires Composition(base, desired, sites, container).Some?
    requires c.path("/healthz", r.path) && (r.verb == "GET" || r.verb == "HEAD")
    ensures var out := Composition(base, desired, sites, container).value;
            var at := Endpoint(if container then "0.0.0.0" else s.address, s.httpPort);
            Owned(out, at) && Answer(c, out, at, r) == [Status(204)]
  {
    var at := HttpEndpoint(s, container);
    SiteListener(base, desired, sites, container, s, 1, HttpJoin(s, container));
    CompositionMeaning(c, base, desired, sites, container, at, r);
  }
}
