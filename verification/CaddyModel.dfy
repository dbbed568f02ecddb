/**
 The part of a Caddy HTTP configuration that website composition reads or writes,
 and what a configuration means: the chain of handlers a request runs through.
 */
module CaddyModel {
  import opened Prelude

  datatype Endpoint = Endpoint(host: string, port: int)

  datatype Request = Request(host: string, path: string, verb: string, rest: string)

  /** One matcher set: an empty list leaves that dimension unconstrained. */
  datatype Matcher = Matcher(hosts: seq<string>, paths: seq<string>, verbs: seq<string>,
                             header: Option<string>, other: string)

  datatype Handler =
    | Document(html: string)
    | Status(code: nat)
    | Proxy(upstreams: seq<Endpoint>)
    | OtherHandler(module_: string)

  datatype Route = Route(matches: seq<Matcher>, handlers: seq<Handler>, terminal: bool)

  datatype Server = Server(listen: seq<Endpoint>, routes: seq<Route>, tls: bool)

  /** Gateway servers and website servers are named apart (the latter by application and role). */
  datatype Role = Http | Tls | Public
  datatype Name = Gateway(name: string) | Website(id: string, role: Role)

  type Servers = map<Name, Server>

  /** How Caddy compares patterns with requests; the theorems hold for every choice. */
  datatype Caddy = Caddy(host: (string, string) -> bool,
                         path: (string, string) -> bool,
                         other: (Option<string>, string, Request) -> bool)

  predicate MatcherAccepts(c: Caddy, m: Matcher, r: Request) {
    && (m.hosts == [] || exists h :: h in m.hosts && c.host(h, r.host))
    && (m.paths == [] || exists p :: p in m.paths && c.path(p, r.path))
    && (m.verbs == [] || r.verb in m.verbs)
    && c.other(m.header, m.other, r)
  }

  predicate RouteAccepts(c: Caddy, route: Route, r: Request) {
    route.matches == [] || exists i :: 0 <= i < |route.matches| && MatcherAccepts(c, route.matches[i], r)
  }

  /** `routes` in front of something that answers `rest`. */
  function ServeOver(c: Caddy, routes: seq<Route>, r: Request, rest: seq<Handler>): seq<Handler> {
    if routes == [] then rest
    else if !RouteAccepts(c, routes[0], r) then ServeOver(c, routes[1..], r, rest)
    else if routes[0].terminal then routes[0].handlers
    else routes[0].handlers + ServeOver(c, routes[1..], r, rest)
  }

  /** The handlers a request runs through: every accepting route in order, up to a terminal one. */
  function Serve(c: Caddy, routes: seq<Route>, r: Request): seq<Handler> {
    ServeOver(c, routes, r, [])
  }

  lemma {:induction false} ServePrefix(c: Caddy, a: seq<Route>, b: seq<Route>, r: Request, rest: seq<Handler>)
    ensures ServeOver(c, a + b, r, rest) == ServeOver(c, a, r, ServeOver(c, b, r, rest))
  {
    if a == [] {
      assert a + b == b;
    } else {
      assert (a + b)[0] == a[0] && (a + b)[1..] == a[1..] + b;
      ServePrefix(c, a[1..], b, r, rest);
    }
  }

  /** Routes that pairwise agree on a request serve it alike. */
  lemma {:induction false} ServeCongruence(c: Caddy, a: seq<Route>, b: seq<Route>, r: Request, rest: seq<Handler>)
    requires |a| == |b|
    requires forall i :: 0 <= i < |a| ==> RouteAccepts(c, a[i], r) == RouteAccepts(c, b[i], r)
    requires forall i :: 0 <= i < |a| && RouteAccepts(c, a[i], r) ==>
               a[i].handlers == b[i].handlers && a[i].terminal == b[i].terminal
    ensures ServeOver(c, a, r, rest) == ServeOver(c, b, r, rest)
  {
    if a != [] {
      ServeCongruence(c, a[1..], b[1..], r, rest);
    }
  }
}
