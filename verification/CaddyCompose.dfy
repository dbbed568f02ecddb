/**
 The loops of composeCaddySites and mergeSiteServer
 (internal/agent/caddy_sites.go:114-246). Go ranges over a map in an unspecified
 order; the loops below pick an arbitrary remaining name each time, so the results
 do not depend on that order.
 */
module CaddyCompose {
  import opened Prelude
  import opened CaddyModel
  import opened CaddySites
  import opened CaddyMeaning

  // ---------------------------------------------------------------- sort by application

  predicate Before(a: string, b: string) {
    if a == [] || b == [] then a == [] && b != []
    else a[0] < b[0] || (a[0] == b[0] && Before(a[1..], b[1..]))
  }

  lemma {:induction false} BeforeTotal(a: string, b: string)
    ensures a == b || Before(a, b) || Before(b, a)
    ensures !(Before(a, b) && Before(b, a)) && !Before(a, a)
  {
    if a != [] && b != [] {
      BeforeTotal(a[1..], b[1..]);
      assert a[0] == b[0] && a[1..] == b[1..] ==> a == b by {
        assert a == [a[0]] + a[1..] && b == [b[0]] + b[1..];
      }
    }
    if a != [] {
      BeforeTotal(a[1..], a[1..]);
    }
  }

  lemma {:induction false} BeforeTransitive(a: string, b: string, c: string)
    requires Before(a, b) && Before(b, c)
    ensures Before(a, c)
  {
    if a != [] && a[0] == b[0] == c[0] {
      BeforeTransitive(a[1..], b[1..], c[1..]);
    }
  }

  ghost predicate Ordered(sites: seq<Site>) {
    forall i, j :: 0 <= i < j < |sites| ==> !Before(sites[j].id, sites[i].id)
  }

  function Insert(s: Site, sites: seq<Site>): (r: seq<Site>)
    ensures multiset(r) == multiset(sites) + multiset{s}
  {
    if sites == [] then [s]
    else if Before(sites[0].id, s.id) then
      assert sites == [sites[0]] + sites[1..];
      [sites[0]] + Insert(s, sites[1..])
    else [s] + sites
  }

  lemma {:induction false} InsertOrdered(s: Site, sites: seq<Site>)
    requires Ordered(sites)
    ensures Ordered(Insert(s, sites))
  {
    if sites != [] {
      if Before(sites[0].id, s.id) {
        InsertOrdered(s, sites[1..]);
        var rest := Insert(s, sites[1..]);
        forall j | 0 <= j < |rest| ensures !Before(rest[j].id, sites[0].id) {
          assert rest[j] in multiset(rest);
          BeforeTotal(sites[0].id, s.id);
        }
      } else {
        forall j | 0 <= j < |sites| ensures !Before(sites[j].id, s.id) {
          if j > 0 && Before(sites[j].id, s.id) {
            BeforeTotal(sites[0].id, s.id);
            if sites[0].id != s.id {
              BeforeTransitive(sites[j].id, s.id, sites[0].id);
            }
          }
        }
      }
    }
  }

  /** sort.Slice by application ID. */
  function SortById(sites: seq<Site>): (r: seq<Site>)
    ensures multiset(r) == multiset(sites)
  {
    if sites == [] then []
    else
      assert sites == [sites[0]] + sites[1..];
      Insert(sites[0], SortById(sites[1..]))
  }

  lemma {:induction false} SortByIdOrders(sites: seq<Site>)
    ensures Ordered(SortById(sites))
  {
    if sites != [] {
      SortByIdOrders(sites[1..]);
      InsertOrdered(sites[0], SortById(sites[1..]));
    }
  }

  ghost predicate DistinctIds(sites: seq<Site>) {
    forall i, j :: 0 <= i < j < |sites| ==> sites[i].id != sites[j].id
  }

  lemma {:induction false} OrderedUnique(a: seq<Site>, b: seq<Site>)
    requires Ordered(a) && Ordered(b) && DistinctIds(a) && multiset(a) == multiset(b)
    ensures a == b
  {
    assert |a| == |multiset(a)| == |multiset(b)| == |b|;
    if a != [] {
      SameFirst(a, b);
      assert a == [a[0]] + a[1..] && b == [b[0]] + b[1..];
      assert multiset(a[1..]) == multiset(a) - multiset{a[0]} == multiset(b[1..]);
      OrderedUnique(a[1..], b[1..]);
    }
  }

  lemma SameFirst(a: seq<Site>, b: seq<Site>)
    requires a != [] && b != [] && Ordered(a) && Ordered(b) && DistinctIds(a) && multiset(a) == multiset(b)
    ensures a[0] == b[0]
  {
    assert a[0] in multiset(b) && b[0] in multiset(a);
    var i :| 0 <= i < |b| && b[i] == a[0];
    var j :| 0 <= j < |a| && a[j] == b[0];
    BeforeTotal(a[0].id, b[0].id);
  }

  /** The order in which the sites are read back does not matter. */
  lemma InputOrderIrrelevant(base: Servers, desired: seq<DesiredRoute>, sites: seq<Site>, shuffled: seq<Site>,
      container: bool)
    requires multiset(sites) == multiset(shuffled)
    ensures Composition(base, desired, SortById(sites), container) ==
              Composition(base, desired, SortById(shuffled), container)
  {
    var a, b := SortById(sites), SortById(shuffled);
    SortByIdOrders(sites);
    SortByIdOrders(shuffled);
    if DistinctIds(a) {
      OrderedUnique(a, b);
    } else {
      if DistinctIds(b) {
        DistinctPermuted(b, a);
        assert false;
      }
      RepeatedIsRefused(desired, a);
      RepeatedIsRefused(desired, b);
    }
  }

  lemma RepeatedIsRefused(desired: seq<DesiredRoute>, sites: seq<Site>)
    requires !DistinctIds(sites)
    ensures !AllAdmissible(desired, sites)
  {
  }

  lemma DistinctPermuted(sites: seq<Site>, r: seq<Site>)
    requires DistinctIds(sites) && multiset(r) == multiset(sites)
    ensures DistinctIds(r)
  {
    forall i, j | 0 <= i < j < |r| ensures r[i].id != r[j].id {
      if r[i].id == r[j].id {
        assert r[i] in multiset(sites) && r[j] in multiset(sites);
        var p :| 0 <= p < |sites| && sites[p] == r[i];
        var q :| 0 <= q < |sites| && sites[q] == r[j];
        assert p == q && r[i] == r[j];
        TwiceInSeq(r, i, j);
        OnceInSeq(sites, p);
        assert false;
      }
    }
  }

  lemma TwiceInSeq(r: seq<Site>, i: nat, j: nat)
    requires i < j < |r| && r[i] == r[j]
    ensures multiset(r)[r[i]] >= 2
  {
    assert r == r[..i] + [r[i]] + r[i + 1..j] + [r[j]] + r[j + 1..];
  }

  lemma OnceInSeq(sites: seq<Site>, p: nat)
    requires p < |sites| && DistinctIds(sites)
    ensures multiset(sites)[sites[p]] == 1
  {
    assert sites == sites[..p] + [sites[p]] + sites[p + 1..];
    assert sites[p] !in sites[..p] && sites[p] !in sites[p + 1..];
  }

  // ---------------------------------------------------------------- the loops

  /** Rewrite, in every server, the routes that proxy to the website's own upstream. */
  method ServeDirectly(servers: Servers, s: Site) returns (out: Servers)
    ensures out == RewriteServers(s, servers)
  {
    out := servers;
    var remaining := servers.Keys;
    while remaining != {}
      invariant remaining <= servers.Keys == out.Keys
      invariant forall n :: n in remaining ==> out[n] == servers[n]
      invariant forall n :: n in servers && n !in remaining ==>
                  out[n] == servers[n].(routes := RewriteRoutes(s, servers[n].routes))
    {
      var n :| n in remaining;
      var routes := servers[n].routes;
      for i := 0 to |routes|
        invariant |routes| == |servers[n].routes|
        invariant forall k :: 0 <= k < |routes| ==>
                    routes[k] == if k < i then RewriteRoute(s, servers[n].routes[k]) else servers[n].routes[k]
      {
        if OwnProxy(s, routes[i]) {
          routes := routes[i := routes[i].(matches := [routes[i].matches[0].(paths := ["/"], verbs := READ_VERBS)],
                                           handlers := [Document(s.html)])];
        }
      }
      assert routes == RewriteRoutes(s, servers[n].routes);
      out := out[n := out[n].(routes := routes)];
      remaining := remaining - {n};
    }
  }

  method MergeSiteServer(servers: Servers, name: Name, at: Endpoint, routes: seq<Route>, tls: bool)
      returns (r: Option<Servers>)
    requires OneListener(servers)
    ensures r == Apply(servers, Join(name, at, routes, tls))
  {
    var join := Join(name, at, routes, tls);
    var remaining := servers.Keys;
    while remaining != {}
      invariant remaining <= servers.Keys
      invariant forall n :: n in servers && n !in remaining ==> servers[n].listen != [at]
    {
      var n :| n in remaining;
      if servers[n].listen == [at] {
        assert OwnerOf(servers, at) == n;
        if servers[n].tls != tls {
          return None;
        }
        return Some(servers[n := servers[n].(routes := routes + servers[n].routes)]);
      }
      remaining := remaining - {n};
    }
    return Some(servers[name := Server([at], routes + [NOT_FOUND_ROUTE], tls)]);
  }

  /** The routes and listeners of one admitted website. */
  method AddSite(servers: Servers, s: Site, container: bool, ghost base: Servers, ghost edits: seq<Edit>)
      returns (r: Option<Servers>)
    requires GatewayBase(base) && ApplyAll(base, edits) == Some(servers) && Tidy(edits + SiteEdits(s, container))
    ensures r == ApplyAll(base, edits + SiteEdits(s, container))
  {
    ghost var all := edits + SiteEdits(s, container);
    ghost var e1 := edits + [Replace(s)];
    ghost var e2 := e1 + [HttpJoin(s, container)];
    ghost var e3 := e2 + [TlsJoin(s, container)];
    StepsOf(s, container, edits);
    hide SiteRoutes, HttpEndpoint, TlsEndpoint, PublicEndpoint, GatewayBase, Tidy;
    Prefix(base, edits, all);
    var current := ServeDirectly(servers, s);
    Prefix(base, e1, all);
    r := MergeSiteServer(current, Website(s.id, Http), HttpEndpoint(s, container), SiteRoutes(s, true), false);
    if r.None? || s.tlsPort == 0 {
      Refusal(base, e2, all);
      return;
    }
    Prefix(base, e2, all);
    r := MergeSiteServer(r.value, Website(s.id, Tls), TlsEndpoint(s, container), SiteRoutes(s, false), true);
    if r.None? || s.publicListen.None? {
      Refusal(base, e3, all);
      return;
    }
    Prefix(base, e3, all);
    r := MergeSiteServer(r.value, Website(s.id, Public), PublicEndpoint(s.publicListen.value, container),
        SiteRoutes(s, false), true);
  }

  lemma StepsOf(s: Site, container: bool, edits: seq<Edit>)
    ensures var e2 := edits + [Replace(s)] + [HttpJoin(s, container)];
            && edits + SiteEdits(s, container) ==
               (if s.tlsPort == 0 then e2
                else if s.publicListen.None? then e2 + [TlsJoin(s, container)]
                else e2 + [TlsJoin(s, container)] + [PublicJoin(s, container)])
  {
  }

  /** A partial composition still has one listener per address; one more edit is one more step. */
  lemma Prefix(base: Servers, edits: seq<Edit>, all: seq<Edit>)
    requires GatewayBase(base) && Tidy(all) && edits <= all && ApplyAll(base, edits).Some?
    ensures OneListener(ApplyAll(base, edits).value)
    ensures forall e :: ApplyAll(base, edits + [e]) == Apply(ApplyAll(base, edits).value, e)
  {
    assert forall i :: 0 <= i < |edits| ==> edits[i] == all[i];
    ShapeHolds(base, edits);
    forall e ensures ApplyAll(base, edits + [e]) == Apply(ApplyAll(base, edits).value, e) {
      assert (edits + [e])[..|edits|] == edits;
    }
  }

  lemma {:induction false} Refusal(base: Servers, edits: seq<Edit>, all: seq<Edit>)
    requires edits <= all
    ensures ApplyAll(base, edits).None? ==> ApplyAll(base, all).None?
  {
    assert all == edits + all[|edits|..];
    ApplyAllAppend(base, edits, all[|edits|..]);
  }

  function Ids(sites: seq<Site>): set<string> {
    set k | 0 <= k < |sites| :: sites[k].id
  }

  function Hostnames(sites: seq<Site>): set<string> {
    set k | 0 <= k < |sites| :: sites[k].hostname
  }

  lemma TakeNext(sites: seq<Site>, i: nat)
    requires i < |sites|
    ensures sites[..i + 1] == sites[..i] + [sites[i]] && sites[..i + 1][..i] == sites[..i]
  {
  }

  lemma SeenNext(sites: seq<Site>, s: Site)
    ensures Ids(sites + [s]) == Ids(sites) + {s.id}
    ensures Hostnames(sites + [s]) == Hostnames(sites) + {s.hostname}
  {
    var longer := sites + [s];
    assert forall k :: 0 <= k < |sites| ==> longer[k] == sites[k];
    assert longer[|sites|] == s;
  }

  /** Admission of the next website, given the identities seen so far. */
  method Admit(desired: seq<DesiredRoute>, ghost earlier: seq<Site>, s: Site, seenIds: set<string>,
      seenHosts: set<string>) returns (ok: bool)
    requires seenIds == Ids(earlier) && seenHosts == Hostnames(earlier)
    ensures ok <==> Admissible(desired, earlier, s)
  {
    assert s.id in seenIds <==> exists t :: t in earlier && t.id == s.id;
    assert s.hostname in seenHosts <==> exists t :: t in earlier && t.hostname == s.hostname;
    if !Valid(s) || s.id in seenIds || s.hostname in seenHosts {
      return false;
    }
    for j := 0 to |desired|
      invariant forall k :: 0 <= k < j && desired[k].hostname == s.hostname ==> !desired[k].system
    {
      if desired[j].hostname == s.hostname && desired[j].system {
        return false;
      }
    }
    return true;
  }

  method Compose(base: Servers, desired: seq<DesiredRoute>, input: seq<Site>, container: bool)
      returns (r: Option<Servers>)
    requires GatewayBase(base)
    ensures r == Composition(base, desired, SortById(input), container)
  {
    hide Admissible, SiteEdits, Tidy, GatewayBase, SortById, Apply;
    var sites := SortById(input);
    var servers := base;
    var seenIds: set<string>, seenHosts: set<string> := {}, {};
    for i := 0 to |sites|
      invariant seenIds == Ids(sites[..i]) && seenHosts == Hostnames(sites[..i])
      invariant AllAdmissible(desired, sites[..i])
      invariant ApplyAll(base, Edits(sites[..i], container)) == Some(servers)
    {
      var s := sites[i];
      var ok := Admit(desired, sites[..i], s, seenIds, seenHosts);
      if !ok {
        Inadmissible(desired, sites, i);
        return None;
      }
      seenIds, seenHosts := seenIds + {s.id}, seenHosts + {s.hostname};
      TakeNext(sites, i);
      SeenNext(sites[..i], s);
      EditsTidy(desired, sites[..i + 1], container);
      var added := AddSite(servers, s, container, base, Edits(sites[..i], container));
      if added.None? {
        EditsPrefix(sites, i + 1, container);
        Refusal(base, Edits(sites[..i + 1], container), Edits(sites, container));
        return None;
      }
      servers := added.value;
    }
    assert sites[..|sites|] == sites;
    return Some(servers);
  }

  lemma Inadmissible(desired: seq<DesiredRoute>, sites: seq<Site>, i: nat)
    requires i < |sites| && !Admissible(desired, sites[..i], sites[i])
    ensures !AllAdmissible(desired, sites)
  {
  }

  lemma {:induction false} EditsPrefix(sites: seq<Site>, i: nat, container: bool)
    requires i <= |sites|
    ensures Edits(sites[..i], container) <= Edits(sites, container)
  {
    if i == |sites| {
      assert sites[..i] == sites;
    } else {
      assert sites[..|sites| - 1][..i] == sites[..i];
      EditsPrefix(sites[..|sites| - 1], i, container);
    }
  }
}
