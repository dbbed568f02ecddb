/**
 Authoritative subscriptions over a native client list
 (internal/agent/landing_client_lifecycle.go:161-358 and 470-490,
 internal/agent/landing_controller_state.go:114-123).

 After the first import the journal owns identities and tokens. A projection compares
 the listing with it; only a command may change a plan, and only the one it addresses.
 */
module SubscriptionAuthority {
  import opened Prelude

  // ---------------------------------------------------------------- data

  /** A share link: where it leads and what it carries. */
  datatype Link = Link(route: string, credential: string) | Broken

  datatype Subscription = Subscription(id: string, email: string, token: string, enabled: bool, total: int, used: int,
                                       expiry: int, resetDays: int, links: seq<Link>)

  type Subscriptions = map<string, Subscription>

  /** A listed client together with its detail; `observed` is empty when the detail could not be read. */
  datatype Client = Client(id: string, observed: string, email: string, hasSubscription: bool, token: string,
      enabled: bool,
                           total: int, used: int, expiry: int, resetDays: int, links: Option<seq<Link>>, child: bool)

  datatype Action = Create | Update | SetEnabled | ResetTraffic | Delete

  datatype Mutation = Mutation(action: Action, email: string, newEmail: string)

  // ---------------------------------------------------------------- decisions

  predicate Accepts(m: Option<Mutation>, email: string, prior: Option<Subscription>) {
    m.Some? &&
    match m.value.action
    case Create => email == m.value.newEmail && (prior.None? || prior.value.email == m.value.newEmail)
    case Update => prior.Some? && email == m.value.newEmail && prior.value.email == m.value.email
    case SetEnabled => prior.Some? && prior.value.email == m.value.email && email == m.value.email
    case ResetTraffic => prior.Some? && prior.value.email == m.value.email && email == m.value.email
    case Delete => false
  }

  predicate Deletes(m: Option<Mutation>, s: Subscription) {
    m.Some? && m.value.action.Delete? && s.email == m.value.email
  }

  /** The subscription a command is about. */
  predicate Addresses(m: Option<Mutation>, s: Subscription) {
    m.Some? && s.email == if m.value.action.Create? then m.value.newEmail else m.value.email
  }

  predicate Usable(links: seq<Link>) {
    forall i :: 0 <= i < |links| ==> links[i].Link?
  }

  predicate DistinctRoutes(links: seq<Link>)
    requires Usable(links)
  {
    forall i, j :: 0 <= i < j < |links| ==> links[i].route != links[j].route
  }

  /** sameNativeSubscriptionCredentials */
  predicate SameCredentials(previous: seq<Link>, observed: seq<Link>, allowRouteChange: bool) {
    && Usable(observed) && DistinctRoutes(observed) && Usable(previous)
    && (allowRouteChange || |previous| == |observed|)
    && (forall i :: 0 <= i < |previous| ==> LinkKept(previous[i], observed, allowRouteChange))
  }

  /**
   A link that was handed out still leads to the same place with the same credential, or its route is gone by leave.
   */
  predicate LinkKept(link: Link, observed: seq<Link>, allowRouteChange: bool)
    requires link.Link? && Usable(observed)
  {
    && (forall j :: 0 <= j < |observed| && observed[j].route == link.route ==> observed[j] == link)
    && (allowRouteChange || exists j :: 0 <= j < |observed| && observed[j].route == link.route)
  }

  ghost predicate Routes(byRoute: map<string, string>, links: seq<Link>) {
    && Usable(links)
    && (forall k :: 0 <= k < |links| ==> links[k].route in byRoute && byRoute[links[k].route] == links[k].credential)
    && (forall route :: route in byRoute ==> exists k :: 0 <= k < |links| && links[k].route == route)
  }

  lemma RoutesExtend(found: map<string, string>, links: seq<Link>, link: Link)
    requires Routes(found, links) && DistinctRoutes(links) && link.Link?
    ensures var all := links + [link];
            && Usable(all) && (DistinctRoutes(all) <==> link.route !in found)
            && (link.route !in found ==> Routes(found[link.route := link.credential], all))
  {
    var all := links + [link];
    if link.route in found {
      var k :| 0 <= k < |links| && links[k].route == link.route;
      assert all[k].route == all[|links|].route;
    } else {
      var next := found[link.route := link.credential];
      forall route | route in next ensures exists k :: 0 <= k < |all| && all[k].route == route {
        if route == link.route {
          assert all[|links|].route == route;
        } else {
          var k :| 0 <= k < |links| && links[k].route == route;
          assert all[k].route == route;
        }
      }
    }
  }

  lemma RepeatedRoute(links: seq<Link>, i: int)
    requires 0 <= i < |links| && Usable(links[..i + 1]) && !DistinctRoutes(links[..i + 1])
    ensures !(Usable(links) && DistinctRoutes(links))
  {
  }

  method IndexRoutes(links: seq<Link>) returns (byRoute: Option<map<string, string>>)
    ensures byRoute.Some? <==> Usable(links) && DistinctRoutes(links)
    ensures byRoute.Some? ==> Routes(byRoute.value, links)
  {
    var found: map<string, string> := map[];
    for i := 0 to |links|
      invariant Usable(links[..i]) && DistinctRoutes(links[..i]) && Routes(found, links[..i])
    {
      if links[i].Broken? {
        return None;
      }
      assert links[..i + 1] == links[..i] + [links[i]];
      RoutesExtend(found, links[..i], links[i]);
      if links[i].route in found {
        RepeatedRoute(links, i);
        return None;
      }
      found := found[links[i].route := links[i].credential];
    }
    assert links[..|links|] == links;
    return Some(found);
  }

  lemma RouteDecides(byRoute: map<string, string>, observed: seq<Link>, link: Link, allowRouteChange: bool)
    requires Routes(byRoute, observed) && link.Link?
    ensures LinkKept(link, observed, allowRouteChange) <==>
            if link.route in byRoute then byRoute[link.route] == link.credential else allowRouteChange
  {
  }

  method CompareCredentials(previous: seq<Link>, observed: seq<Link>, allowRouteChange: bool) returns (same: bool)
    ensures same <==> SameCredentials(previous, observed, allowRouteChange)
  {
    var byRoute := IndexRoutes(observed);
    if byRoute.None? {
      return false;
    }
    if !allowRouteChange && |previous| != |observed| {
      return false;
    }
    hide LinkKept, Routes, DistinctRoutes;
    for i := 0 to |previous|
      invariant Usable(previous[..i]) && forall k :: 0 <= k < i ==> LinkKept(previous[k], observed, allowRouteChange)
    {
      if previous[i].Broken? {
        return false;
      }
      RouteDecides(byRoute.value, observed, previous[i], allowRouteChange);
      var route := previous[i].route;
      if (route in byRoute.value && byRoute.value[route] != previous[i].credential)
          || (!allowRouteChange && route !in byRoute.value) {
        return false;
      }
    }
    return true;
  }

  /** Without leave to change routes, links without repeated routes stay the same set. */
  lemma CredentialsKept(previous: seq<Link>, observed: seq<Link>)
    requires SameCredentials(previous, observed, false)
    ensures forall link :: link in previous ==> link in observed
  {
  }

  // ---------------------------------------------------------------- the journal

  predicate UniqueEmails(journal: Subscriptions) {
    forall a, b :: a in journal && b in journal && journal[a].email == journal[b].email ==> a == b
  }

  predicate UniqueTokens(journal: Subscriptions) {
    forall a, b :: a in journal && b in journal && journal[a].token == journal[b].token ==> a == b
  }

  predicate WellFormed(journal: Subscriptions) {
    "" !in journal && forall id :: id in journal ==> journal[id].id == id
  }

  predicate UniqueListing(clients: seq<Client>) {
    forall i, j :: 0 <= i < j < |clients| && !clients[i].child && !clients[j].child ==>
        clients[i].email != clients[j].email
  }

  /** A command addresses at most one subscription. */
  lemma AddressesOne(journal: Subscriptions, m: Option<Mutation>, a: string, b: string)
    requires UniqueEmails(journal) && a in journal && b in journal && Addresses(m, journal[a])
               && Addresses(m, journal[b])
    ensures a == b
  {
  }

  /** What may have happened to one subscription. */
  predicate Followed(before: Subscription, after: Subscription, m: Option<Mutation>) {
    && after.token == before.token && after.id == before.id
    && (Addresses(m, before) || after == before.(used := after.used))
    && (after.email == before.email
        || (m.Some? && m.value.action.Update? && before.email == m.value.email && after.email == m.value.newEmail))
  }

  /** The command is about this listed client, whose subscription is `before` if it has one. */
  predicate Commands(m: Option<Mutation>, c: Client, before: Option<Subscription>) {
    m.Some? &&
    (|| (m.value.action.Create? && c.email == m.value.newEmail && (before.Some? ==> before.value.email == c.email))
     || (m.value.action.Update? && c.email == m.value.newEmail && before.Some? && before.value.email == m.value.email)
     || ((m.value.action.SetEnabled? || m.value.action.ResetTraffic?) && c.email == m.value.email && before.Some?
         && before.value.email == m.value.email))
  }

  /**
   When a listed client is accepted: it has one identity and one token, no other subscription has its address, it is
   known or added by the command, and what is known of it still holds.
   */
  ghost predicate Acceptable(journal: Subscriptions, c: Client, m: Option<Mutation>, importing: bool) {
    var before := if c.observed in journal then Some(journal[c.observed]) else None;
    && c.observed != "" && (c.id == "" || c.id == c.observed)
    && (forall id :: id in journal && journal[id].email == c.email ==> id == c.observed)
    && c.hasSubscription && c.token != "" && c.links.Some?
    && (before.None? ==> importing || Commands(m, c, before))
    && (before.Some? ==>
          && before.value.token == c.token
          && (before.value.email == c.email || importing || Commands(m, c, before))
          && SameCredentials(before.value.links, c.links.value,
               importing || (Commands(m, c, before) && (m.value.action.Create? || m.value.action.Update?))))
  }

  /** The whole frame of a projection. */
  predicate Frame(before: Subscriptions, after: Subscriptions, m: Option<Mutation>) {
    && (forall id :: id in before && id in after ==> Followed(before[id], after[id], m))
    && (forall id :: id in before && id !in after ==> Deletes(m, before[id]))
    && (forall id :: id in after && id !in before ==>
        m.Some? && m.value.action.Create? && after[id].email == m.value.newEmail)
  }

  predicate Changed(before: Subscriptions, after: Subscriptions, id: string) {
    id in before && (id !in after || after[id] != before[id].(used := after[id].used))
  }

  /** At most one subscription differs beyond its use, and at most one is new. */
  ghost predicate OneChanged(before: Subscriptions, after: Subscriptions) {
    && (forall a, b :: Changed(before, after, a) && Changed(before, after, b) ==> a == b)
    && (forall a, b :: a in after && a !in before && b in after && b !in before ==> a == b)
  }

  /** One command changes at most one subscription. */
  lemma OneChanges(before: Subscriptions, after: Subscriptions, m: Option<Mutation>)
    requires UniqueEmails(before) && UniqueEmails(after) && Frame(before, after, m)
    ensures OneChanged(before, after)
  {
    forall a, b | Changed(before, after, a) && Changed(before, after, b) ensures a == b {
      assert Addresses(m, before[a]) && Addresses(m, before[b]);
      AddressesOne(before, m, a, b);
    }
  }

  /** Without a command: the same subscriptions, and nothing but their use may differ. */
  lemma BackgroundFrame(before: Subscriptions, after: Subscriptions)
    requires Frame(before, after, None)
    ensures after.Keys == before.Keys && forall id :: id in after ==> after[id] == before[id].(used := after[id].used)
  {
  }

  // ---------------------------------------------------------------- one client

  datatype Step = Rejected | Skipped | Kept(id: string, subscription: Subscription)

  function PriorOf(journal: Subscriptions, id: string): Option<Subscription> {
    if id in journal then Some(journal[id]) else None
  }

  function Entry(c: Client, id: string): Subscription
    requires c.links.Some?
  {
    Subscription(id, c.email, c.token, c.enabled, c.total, c.used, c.expiry, c.resetDays, c.links.value)
  }

  /** The body of the loop: what a listed client does to the journal. */
  function Examine(journal: Subscriptions, identities: map<string, string>, c: Client, m: Option<Mutation>,
      importing: bool): Step {
    if c.child then Skipped
    else
      var id := if c.id == "" then c.observed else c.id;
      if c.observed == "" || c.observed != id then Rejected
      else if c.email in identities && identities[c.email] != id then Rejected
      else if c.hasSubscription != (c.token != "") || c.token == "" then Rejected
      else
        var prior := PriorOf(journal, id);
        var plan := importing || Accepts(m, c.email, prior);
        var credentials := importing || (plan && m.Some? && (m.value.action.Create? || m.value.action.Update?));
        if prior.None? && !plan then Rejected
        else if prior.Some? && !plan && prior.value.email != c.email then Rejected
        else if prior.Some? && c.token != prior.value.token then Rejected
        else if c.links.None? then Rejected
        else if prior.Some? && !SameCredentials(prior.value.links, c.links.value, credentials) then Rejected
        else if prior.Some? && !plan then Kept(id, prior.value.(used := c.used))
        else if prior.Some? && m.Some?
            && m.value.action.SetEnabled? then Kept(id, prior.value.(enabled := c.enabled, used := c.used))
        else if prior.Some? && m.Some? && m.value.action.ResetTraffic? then Kept(id, prior.value.(used := c.used))
        else Kept(id, Entry(c, id))
  }

  /**
   What a listed client leaves in the journal. A command takes from the listing what it is about: the plan,
   the switch, or only the use. Without leave to change credentials every link that was handed out stays.
   */
  predicate Shown(before: Option<Subscription>, m: Option<Mutation>, c: Client, after: Subscription) {
    && after.used == c.used && after.token == c.token && c.links.Some?
    && (Accepts(m, c.email, before) && (m.value.action.Create? || m.value.action.Update?) ==>
        after == Entry(c, after.id))
    && (Accepts(m, c.email, before) && m.value.action.SetEnabled? ==>
        after == before.value.(enabled := c.enabled, used := c.used))
    && (Accepts(m, c.email, before) && m.value.action.ResetTraffic? ==> after == before.value.(used := c.used))
    && (!Accepts(m, c.email, before) ==> before.Some? && after == before.value.(used := c.used))
    && (before.Some? && !(Accepts(m, c.email, before) && (m.value.action.Create? || m.value.action.Update?)) ==>
          forall link :: link in before.value.links ==> link in c.links.value)
  }

  lemma CommandTakesPlan(journal: Subscriptions, identities: map<string, string>, c: Client, m: Option<Mutation>)
    requires Examine(journal, identities, c, m, false).Kept?
    ensures Shown(PriorOf(journal, c.observed), m, c, Examine(journal, identities, c, m, false).subscription)
  {
    hide SameCredentials;
    var prior := PriorOf(journal, c.observed);
    if prior.Some? && !(Accepts(m, c.email, prior) && (m.value.action.Create? || m.value.action.Update?)) {
      CredentialsKept(prior.value.links, c.links.value);
    }
  }

  /** The body of the loop refuses exactly the clients that are not acceptable. */
  lemma ExamineExactly(journal: Subscriptions, now: Subscriptions, identities: map<string, string>, c: Client,
                       m: Option<Mutation>, importing: bool)
    requires Indexes(identities, journal) && UniqueEmails(journal)
    requires PriorOf(now, c.observed) == PriorOf(journal, c.observed)
    ensures Examine(now, identities, c, m, importing).Rejected? <==> !c.child && !Acceptable(journal, c, m, importing)
  {
    hide SameCredentials;
    var before := PriorOf(journal, c.observed);
    assert Accepts(m, c.email, before) <==> Commands(m, c, before);
    assert (c.email in identities && identities[c.email] != c.observed) <==>
           (exists id :: id in journal && journal[id].email == c.email && id != c.observed);
  }

  // ---------------------------------------------------------------- the loop over the listing

  /** Identities by address, as they were before the projection. */
  predicate Indexes(identities: map<string, string>, journal: Subscriptions) {
    && (forall id :: id in journal ==> journal[id].email in identities && identities[journal[id].email] == id)
    && (forall email :: email in identities ==>
        identities[email] in journal && journal[identities[email]].email == email)
  }

  /** What the part of the loop that has run may have done. */
  ghost predicate SoFar(before: Subscriptions, now: Subscriptions, clients: seq<Client>, n: int, m: Option<Mutation>,
      importing: bool)
    requires 0 <= n <= |clients|
  {
    WellFormed(now) && UniqueEmails(now) && Grown(before, now, m, importing) && Sourced(before, now, clients, n)
  }

  /** An import may rewrite a plan, but neither identity nor token. */
  predicate Succeeds(before: Subscription, after: Subscription, m: Option<Mutation>, importing: bool) {
    after.token == before.token && after.id == before.id && (importing || Followed(before, after, m))
  }

  /** Nothing is gone yet; what is new was created by the command. */
  predicate Grown(before: Subscriptions, now: Subscriptions, m: Option<Mutation>, importing: bool) {
    && (forall id :: id in before ==> id in now && Succeeds(before[id], now[id], m, importing))
    && (forall id :: id in now && id !in before && !importing ==>
        m.Some? && m.value.action.Create? && now[id].email == m.value.newEmail)
  }

  /** Every new address was listed. */
  ghost predicate Sourced(before: Subscriptions, now: Subscriptions, clients: seq<Client>, n: int)
    requires 0 <= n <= |clients|
  {
    forall id :: id in now && (id !in before || now[id].email != before[id].email) ==> Listed(clients, n, now[id].email)
  }

  ghost predicate Listed(clients: seq<Client>, n: int, email: string)
    requires n <= |clients|
  {
    exists k :: 0 <= k < n && !clients[k].child && clients[k].email == email
  }

  /** What one accepted client becomes, measured against the journal before the projection. */
  lemma ExamineFollows(before: Subscriptions, now: Subscriptions, identities: map<string, string>,
      clients: seq<Client>, n: int, m: Option<Mutation>, importing: bool)
    requires 0 <= n < |clients| && SoFar(before, now, clients, n, m, importing) && WellFormed(before)
    requires Examine(now, identities, clients[n], m, importing).Kept?
    ensures var step := Examine(now, identities, clients[n], m, importing);
            && step.id != "" && step.subscription.id == step.id && !clients[n].child
            && (step.id in before ==> Succeeds(before[step.id], step.subscription, m, importing))
            && (step.id !in before && !importing ==>
                m.Some? && m.value.action.Create? && step.subscription.email == m.value.newEmail)
            && (step.subscription.email == clients[n].email
                || (step.id in now && step.subscription.email == now[step.id].email))
            && (clients[n].email in identities ==> identities[clients[n].email] == step.id)
  {
    hide SameCredentials, UniqueEmails, Listed;
  }

  /** The address of an accepted client is nobody else's. */
  lemma FreshAddress(before: Subscriptions, now: Subscriptions, identities: map<string, string>, clients: seq<Client>,
      n: int, m: Option<Mutation>, importing: bool, id: string, other: string)
    requires 0 <= n < |clients| && SoFar(before, now, clients, n, m, importing) && Indexes(identities, before)
               && UniqueListing(clients)
    requires !clients[n].child && (clients[n].email in identities ==> identities[clients[n].email] == id)
    requires other in now && other != id
    ensures now[other].email != clients[n].email
  {
  }

  lemma AddressFree(before: Subscriptions, now: Subscriptions, identities: map<string, string>, clients: seq<Client>,
      n: int,
                    m: Option<Mutation>, importing: bool, id: string, email: string)
    requires 0 <= n < |clients| && SoFar(before, now, clients, n, m, importing) && Indexes(identities, before)
               && UniqueListing(clients)
    requires !clients[n].child && (clients[n].email in identities ==> identities[clients[n].email] == id)
    requires email == clients[n].email || (id in now && email == now[id].email)
    ensures forall other :: other in now && other != id ==> now[other].email != email
  {
    forall other | other in now && other != id ensures now[other].email != email {
      FreshAddress(before, now, identities, clients, n, m, importing, id, other);
    }
  }

  lemma AddUnique(now: Subscriptions, id: string, subscription: Subscription)
    requires UniqueEmails(now) && forall other :: other in now && other != id ==> now[other].email != subscription.email
    ensures UniqueEmails(now[id := subscription])
  {
  }

  lemma AddListed(before: Subscriptions, now: Subscriptions, clients: seq<Client>, n: int, id: string,
      subscription: Subscription)
    requires 0 <= n < |clients| && !clients[n].child
    requires subscription.email == clients[n].email || (id in now && subscription.email == now[id].email)
    requires Sourced(before, now, clients, n)
    ensures Sourced(before, now[id := subscription], clients, n + 1)
  {
  }

  lemma AddGrown(before: Subscriptions, now: Subscriptions, m: Option<Mutation>, importing: bool, id: string,
      subscription: Subscription)
    requires Grown(before, now, m, importing)
    requires id in before ==> Succeeds(before[id], subscription, m, importing)
    requires id !in before && !importing ==> m.Some? && m.value.action.Create? && subscription.email == m.value.newEmail
    ensures Grown(before, now[id := subscription], m, importing)
  {
  }

  lemma StepTaken(before: Subscriptions, now: Subscriptions, identities: map<string, string>, clients: seq<Client>,
      n: int,
                  m: Option<Mutation>, importing: bool, id: string, subscription: Subscription)
    requires 0 <= n < |clients| && SoFar(before, now, clients, n, m, importing) && Indexes(identities, before)
               && UniqueListing(clients)
    requires id != "" && subscription.id == id && !clients[n].child
    requires id in before ==> Succeeds(before[id], subscription, m, importing)
    requires id !in before && !importing ==> m.Some? && m.value.action.Create? && subscription.email == m.value.newEmail
    requires subscription.email == clients[n].email || (id in now && subscription.email == now[id].email)
    requires clients[n].email in identities ==> identities[clients[n].email] == id
    ensures SoFar(before, now[id := subscription], clients, n + 1, m, importing)
  {
    AddressFree(before, now, identities, clients, n, m, importing, id, subscription.email);
    hide Succeeds, Indexes, UniqueListing, Grown, Sourced, UniqueEmails;
    AddUnique(now, id, subscription);
    AddListed(before, now, clients, n, id, subscription);
    AddGrown(before, now, m, importing, id, subscription);
  }

  lemma StepKeeps(before: Subscriptions, now: Subscriptions, identities: map<string, string>, clients: seq<Client>,
      n: int, m: Option<Mutation>, importing: bool)
    requires 0 <= n < |clients| && SoFar(before, now, clients, n, m, importing) && WellFormed(before)
    requires Indexes(identities, before) && UniqueListing(clients)
    requires Examine(now, identities, clients[n], m, importing).Kept?
    ensures var step := Examine(now, identities, clients[n], m, importing);
            SoFar(before, now[step.id := step.subscription], clients, n + 1, m, importing)
  {
    hide Examine, SoFar, WellFormed, Indexes, UniqueListing, Succeeds;
    ExamineFollows(before, now, identities, clients, n, m, importing);
    var step := Examine(now, identities, clients[n], m, importing);
    StepTaken(before, now, identities, clients, n, m, importing, step.id, step.subscription);
  }

  lemma SkipKeeps(before: Subscriptions, now: Subscriptions, clients: seq<Client>, n: int, m: Option<Mutation>,
      importing: bool)
    requires 0 <= n < |clients| && SoFar(before, now, clients, n, m, importing)
    ensures SoFar(before, now, clients, n + 1, m, importing)
  {
  }

  /** Deleting addressed subscriptions at the end completes the frame. */
  lemma DeletionFrame(before: Subscriptions, now: Subscriptions, after: Subscriptions, clients: seq<Client>,
      m: Option<Mutation>, importing: bool)
    requires SoFar(before, now, clients, |clients|, m, importing)
    requires forall id :: id in after ==> id in now && after[id] == now[id]
    requires forall id :: id in now && id !in after ==> Deletes(m, now[id])
    ensures UniqueEmails(after) && WellFormed(after) && (!importing ==> Frame(before, after, m))
    ensures SameTokens(before, after)
  {
  }

  // ---------------------------------------------------------------- tokens

  predicate SameTokens(before: Subscriptions, after: Subscriptions) {
    forall id :: id in before && id in after ==> after[id].token == before[id].token
  }

  /** No client that is new to the journal carries a token that is taken. */
  predicate FreshTokens(journal: Subscriptions, clients: seq<Client>) {
    forall k, id :: 0 <= k < |clients| && !clients[k].child && clients[k].observed !in journal && id in journal ==>
      clients[k].token != journal[id].token
  }

  /** Tokens stay unique exactly when the listing brings no taken token for a client that is new to the journal. */
  lemma TokensStayUnique(before: Subscriptions, after: Subscriptions, clients: seq<Client>, m: Option<Mutation>)
    requires Frame(before, after, m) && UniqueTokens(before) && UniqueEmails(before) && UniqueEmails(after)
    requires AllTaken(clients, |clients|, after, after.Keys) && NewListed(before, after, clients)
    ensures UniqueTokens(after) <==> FreshTokens(before, clients)
  {
    OneChanges(before, after, m);
    if FreshTokens(before, clients) {
      forall a, b | a in after && b in after && after[a].token == after[b].token ensures a == b {
        if a !in before && b in before {
          TakenToken(before, after, clients, a, b);
        } else if b !in before && a in before {
          TakenToken(before, after, clients, b, a);
        }
      }
    } else {
      var k, id :| 0 <= k < |clients| && !clients[k].child && clients[k].observed !in before && id in before
          && clients[k].token == before[id].token;
      assert id in after && after[id].token == after[clients[k].observed].token;
    }
  }

  /** A new subscription has the token it was listed with. */
  lemma TakenToken(before: Subscriptions, after: Subscriptions, clients: seq<Client>, added: string, other: string)
    requires AllTaken(clients, |clients|, after, after.Keys) && NewListed(before, after, clients)
               && FreshTokens(before, clients)
    requires added in after && added !in before && other in before && other in after
               && after[other].token == before[other].token
    ensures after[added].token != after[other].token
  {
    assert Observed(clients, |clients|, added);
    var k :| 0 <= k < |clients| && !clients[k].child && clients[k].observed == added;
    assert after[clients[k].observed].token == clients[k].token;
  }

  /** A created client may bring a token that is already taken; the journal is then ambiguous when it is read next. */
  lemma CreationMayCollide(taken: Subscription)
    requires taken.id != "" && taken.token != "" && taken.email != "" && taken.id != "new"
    ensures var journal: Subscriptions := map[taken.id := taken];
            var c := Client("new", "new", taken.email + "2", true, taken.token, true, 0, 0, 0, 0, Some([]), false);
            var step := Examine(journal, map[taken.email := taken.id], c, Some(Mutation(Create, "", c.email)), false);
            step.Kept? && step.subscription.token == taken.token && !UniqueTokens(journal[step.id := step.subscription])
  {
    var journal: Subscriptions := map[taken.id := taken];
    var c := Client("new", "new", taken.email + "2", true, taken.token, true, 0, 0, 0, 0, Some([]), false);
    assert |c.email| != |taken.email|;
    var step := Examine(journal, map[taken.email := taken.id], c, Some(Mutation(Create, "", c.email)), false);
    var next := journal[step.id := step.subscription];
    assert taken.id in next && "new" in next && next[taken.id].token == next["new"].token;
  }

  // ---------------------------------------------------------------- the controller

  class Controller {
    var journal: Subscriptions
    var initialized: bool

    ghost predicate Valid()
      reads this
    {
      WellFormed(journal) && UniqueEmails(journal)
    }

    constructor ()
      ensures Valid() && journal == map[] && !initialized
    {
      journal, initialized := map[], false;
    }

    method Index() returns (identities: map<string, string>)
      requires Valid()
      ensures Indexes(identities, journal)
    {
      identities := map[];
      var todo := journal.Keys;
      while todo != {}
        invariant todo <= journal.Keys
        invariant forall id :: id in journal && id !in todo ==>
                    journal[id].email in identities && identities[journal[id].email] == id
        invariant forall email :: email in identities ==>
                    identities[email] in journal && identities[email] !in todo
                    && journal[identities[email]].email == email
      {
        var id :| id in todo;
        identities := identities[journal[id].email := id];
        todo := todo - {id};
      }
    }

    /** One projection; the first one that is allowed to imports the listing, later ones only follow it. */
    method Project(clients: seq<Client>, m: Option<Mutation>, allowInitialImport: bool, saved: Outcome)
        returns (v: Verdict)
      requires Valid() && UniqueListing(clients)
      modifies this
      ensures Valid() && (old(initialized) || v.Succeeded? ==> initialized)
      ensures old(initialized) || !allowInitialImport ==> Frame(old(journal), journal, m)
      ensures SameTokens(old(journal), journal)
      ensures v.Refused? ==> journal == old(journal) && initialized == old(initialized)
      ensures DistinctIdentities(clients) ==>
                (v.Refused? <==>
                   !AllAcceptable(old(journal), clients, |clients|, m, !old(initialized) && allowInitialImport))
      ensures saved.Done? && !v.Refused? ==> v.Succeeded?
      ensures v.Succeeded? || journal != old(journal) ==>
                Projected(old(journal), journal, clients, m, !old(initialized) && allowInitialImport)
      ensures (old(initialized) || !allowInitialImport) && v.Succeeded? && UniqueTokens(old(journal)) ==>
                (UniqueTokens(journal) <==> FreshTokens(old(journal), clients))
      ensures old(initialized) || !allowInitialImport ==>
                OneChanged(old(journal), journal)
    {
      hide Frame, UniqueEmails, WellFormed, UniqueListing, Scanned, Deletes, Projected, OneChanged, UniqueTokens,
          FreshTokens, SameTokens, Indexes;
      Unmoved(journal, m);
      var identities := Index();
      var now, seen;
      var importing := !initialized && allowInitialImport;
      v, now, seen := Scan(clients, m, identities, importing);
      if v.Refused? {
        return;
      }
      var after := Prune(now, seen, m);
      ProjectionDone(journal, now, after, clients, seen, m, importing);
      if initialized && after == journal {
        return Succeeded;
      }
      if Took(saved) {
        journal, initialized := after, true;
      }
      return Ending(saved);
    }

    /** Deletes what the command addresses and the listing no longer shows. */
    method Prune(now: Subscriptions, seen: set<string>, m: Option<Mutation>) returns (after: Subscriptions)
      ensures forall id :: id in after ==> id in now && after[id] == now[id]
      ensures forall id :: id in now ==> (id !in after <==> id !in seen && Deletes(m, now[id]))
    {
      after := now;
      var todo := now.Keys;
      while todo != {}
        invariant todo <= now.Keys
        invariant forall id :: id in after ==> id in now && after[id] == now[id]
        invariant forall id :: id in now ==> (id !in after <==> id !in todo && id !in seen && Deletes(m, now[id]))
      {
        var id :| id in todo;
        if id !in seen && Deletes(m, now[id]) {
          after := after - {id};
        }
        todo := todo - {id};
      }
    }

    /** The loop over the listing; it works on a copy of the journal. */
    method Scan(clients: seq<Client>, m: Option<Mutation>, identities: map<string, string>, importing: bool)
        returns (v: Verdict, now: Subscriptions, seen: set<string>)
      requires Valid() && UniqueListing(clients) && Indexes(identities, journal)
      ensures v.Refused? || v.Succeeded?
      ensures v.Succeeded? ==> Scanned(journal, now, clients, |clients|, m, importing, seen)
      ensures DistinctIdentities(clients) ==>
                (v.Refused? <==> !AllAcceptable(journal, clients, |clients|, m, importing))
    {
      hide Scanned, Examine, UniqueEmails, WellFormed, Indexes, UniqueListing, AllAcceptable, DistinctIdentities;
      NoneYet(journal, clients, m, importing);
      now, seen := journal, {};
      ScanBegins(journal, clients, m, importing);
      for i := 0 to |clients|
        invariant Scanned(journal, now, clients, i, m, importing, seen)
        invariant DistinctIdentities(clients) ==> AllAcceptable(journal, clients, i, m, importing)
      {
        if DistinctIdentities(clients) {
          ScanDecides(journal, now, identities, clients, i, m, importing, seen);
        }
        var step := Examine(now, identities, clients[i], m, importing);
        if step.Rejected? {
          return Refused, now, seen;
        }
        if step.Skipped? {
          ScanSkips(journal, now, identities, clients, i, m, importing, seen);
        } else {
          ScanTakes(journal, now, identities, clients, i, m, importing, seen);
          now, seen := now[step.id := step.subscription], seen + {step.id};
        }
      }
      return Succeeded, now, seen;
    }

    /** refreshNativeSubscriptions: never crosses the import boundary, never adds or deletes. */
    method Refresh(clients: seq<Client>, saved: Outcome) returns (v: Verdict)
      requires Valid() && UniqueListing(clients)
      modifies this
      ensures Valid() && initialized == old(initialized)
      ensures journal.Keys == old(journal).Keys
      ensures forall id :: id in journal ==> journal[id] == old(journal)[id].(used := journal[id].used)
      ensures !initialized ==> v.Succeeded? && journal == old(journal)
    {
      if !initialized {
        return Succeeded;
      }
      v := Project(clients, None, false, saved);
      BackgroundFrame(old(journal), journal);
    }
  }

  /** Every listed client is in the journal, under its identity and with its token. */
  predicate AllTaken(clients: seq<Client>, n: int, now: Subscriptions, seen: set<string>)
    requires 0 <= n <= |clients|
  {
    forall k :: 0 <= k < n && !clients[k].child ==>
      clients[k].observed in seen && clients[k].observed in now && now[clients[k].observed].token == clients[k].token
  }

  lemma TakenMore(clients: seq<Client>, n: int, now: Subscriptions, seen: set<string>, after: Subscriptions,
      more: set<string>)
    requires 0 <= n < |clients| && AllTaken(clients, n, now, seen) && seen <= more
    requires forall id :: id in now ==> id in after && after[id].token == now[id].token
    requires !clients[n].child ==>
               clients[n].observed in more && clients[n].observed in after
               && after[clients[n].observed].token == clients[n].token
    ensures AllTaken(clients, n + 1, after, more)
  {
  }

  /** The listing shows this identity. */
  ghost predicate Observed(clients: seq<Client>, n: int, id: string)
    requires n <= |clients|
  {
    exists k :: 0 <= k < n && !clients[k].child && clients[k].observed == id
  }

  ghost predicate AllObserved(clients: seq<Client>, n: int, seen: set<string>)
    requires n <= |clients|
  {
    forall id :: id in seen ==> Observed(clients, n, id)
  }

  lemma ObservedMore(clients: seq<Client>, n: int, seen: set<string>, more: set<string>)
    requires 0 <= n < |clients| && AllObserved(clients, n, seen)
    requires more == seen || (!clients[n].child && more == seen + {clients[n].observed})
    ensures AllObserved(clients, n + 1, more)
  {
  }

  /** The loop's invariant: frame so far, and the listed clients that were taken. */
  ghost predicate Scanned(before: Subscriptions, now: Subscriptions, clients: seq<Client>, n: int, m: Option<Mutation>,
      importing: bool, seen: set<string>)
    requires 0 <= n <= |clients|
  {
    && SoFar(before, now, clients, n, m, importing) && seen <= now.Keys && AllTaken(clients, n, now, seen)
    && AllObserved(clients, n, seen)
    && Untouched(before, now, seen)
    && (!importing && DistinctIdentities(clients) ==> AllShown(before, clients, n, m, now))
  }

  lemma NoneYet(journal: Subscriptions, clients: seq<Client>, m: Option<Mutation>, importing: bool)
    ensures AllAcceptable(journal, clients, 0, m, importing)
  {
  }

  lemma ScanBegins(journal: Subscriptions, clients: seq<Client>, m: Option<Mutation>, importing: bool)
    requires WellFormed(journal) && UniqueEmails(journal)
    ensures Scanned(journal, journal, clients, 0, m, importing, {})
  {
  }

  ghost predicate AllAcceptable(
    journal: Subscriptions, clients: seq<Client>, n: int, m: Option<Mutation>, importing: bool)
    requires 0 <= n <= |clients|
  {
    forall k :: 0 <= k < n && !clients[k].child ==> Acceptable(journal, clients[k], m, importing)
  }

  /** With distinct identities the next client is decided by the journal as it was. */
  lemma ScanDecides(before: Subscriptions, now: Subscriptions, identities: map<string, string>, clients: seq<Client>,
                    n: int, m: Option<Mutation>, importing: bool, seen: set<string>)
    requires 0 <= n < |clients| && Scanned(before, now, clients, n, m, importing, seen)
    requires Indexes(identities, before) && UniqueEmails(before) && DistinctIdentities(clients)
    requires AllAcceptable(before, clients, n, m, importing)
    ensures Examine(now, identities, clients[n], m, importing).Rejected? <==>
            !AllAcceptable(before, clients, n + 1, m, importing)
    ensures !AllAcceptable(before, clients, n + 1, m, importing) ==>
              !AllAcceptable(before, clients, |clients|, m, importing)
  {
    hide Examine, Acceptable, SoFar, AllTaken, AllShown, Indexes, UniqueEmails;
    if !clients[n].child {
      StillUnseen(before, now, clients, n, seen);
      ExamineExactly(before, now, identities, clients[n], m, importing);
    } else {
      ChildSkipped(now, identities, clients[n], m, importing);
    }
  }

  lemma ChildSkipped(
    now: Subscriptions, identities: map<string, string>, c: Client, m: Option<Mutation>, importing: bool)
    requires c.child
    ensures Examine(now, identities, c, m, importing).Skipped?
  {
  }

  lemma ScanSkips(before: Subscriptions, now: Subscriptions, identities: map<string, string>, clients: seq<Client>,
      n: int,
                  m: Option<Mutation>, importing: bool, seen: set<string>)
    requires 0 <= n < |clients| && Scanned(before, now, clients, n, m, importing, seen)
    requires Examine(now, identities, clients[n], m, importing).Skipped?
    ensures Scanned(before, now, clients, n + 1, m, importing, seen)
  {
    SkippedChild(now, identities, clients[n], m, importing);
    hide Examine, SoFar, AllTaken, AllObserved;
    SkipKeeps(before, now, clients, n, m, importing);
    TakenMore(clients, n, now, seen, now, seen);
    ObservedMore(clients, n, seen, seen);
  }

  lemma ScanTakes(before: Subscriptions, now: Subscriptions, identities: map<string, string>, clients: seq<Client>,
      n: int,
                  m: Option<Mutation>, importing: bool, seen: set<string>)
    requires 0 <= n < |clients| && Scanned(before, now, clients, n, m, importing, seen) && WellFormed(before)
    requires Indexes(identities, before) && UniqueListing(clients)
    requires Examine(now, identities, clients[n], m, importing).Kept?
    ensures var step := Examine(now, identities, clients[n], m, importing);
            Scanned(before, now[step.id := step.subscription], clients, n + 1, m, importing, seen + {step.id})
  {
    hide Examine, SoFar, AllTaken, AllObserved, WellFormed, Indexes, UniqueListing;
    var step := Examine(now, identities, clients[n], m, importing);
    StepKeeps(before, now, identities, clients, n, m, importing);
    KeptToken(now, identities, clients[n], m, importing);
    ObservedMore(clients, n, seen, seen + {step.id});
    TakenMore(clients, n, now, seen, now[step.id := step.subscription], seen + {step.id});
    if !importing && DistinctIdentities(clients) {
      StillUnseen(before, now, clients, n, seen);
      CommandTakesPlan(now, identities, clients[n], m);
      ShownMore(before, clients, n, m, now, step.id, step.subscription);
    }
  }

  /** With distinct identities the next client finds its subscription as it was. */
  lemma StillUnseen(before: Subscriptions, now: Subscriptions, clients: seq<Client>, n: int, seen: set<string>)
    requires 0 <= n < |clients| && AllObserved(clients, n, seen) && Untouched(before, now, seen)
               && DistinctIdentities(clients) && !clients[n].child
    ensures PriorOf(now, clients[n].observed) == PriorOf(before, clients[n].observed)
  {
    assert !Observed(clients, n, clients[n].observed);
  }

  /** Every client of the part of the listing that has been seen left in the journal what it should. */
  predicate AllShown(before: Subscriptions, clients: seq<Client>, n: int, m: Option<Mutation>, now: Subscriptions)
    requires 0 <= n <= |clients|
  {
    forall k :: 0 <= k < n && !clients[k].child ==>
      clients[k].observed in now && Shown(PriorOf(before, clients[k].observed), m, clients[k], now[clients[k].observed])
  }

  predicate DistinctIdentities(clients: seq<Client>) {
    forall i, j :: 0 <= i < j < |clients| && !clients[i].child && !clients[j].child ==>
        clients[i].observed != clients[j].observed
  }

  /** Subscriptions that have not been seen in the listing are as they were. */
  ghost predicate Untouched(before: Subscriptions, now: Subscriptions, seen: set<string>) {
    forall id :: id !in seen ==> PriorOf(now, id) == PriorOf(before, id)
  }

  lemma ShownMore(before: Subscriptions, clients: seq<Client>, n: int, m: Option<Mutation>, now: Subscriptions,
      id: string, subscription: Subscription)
    requires 0 <= n < |clients| && AllShown(before, clients, n, m, now) && DistinctIdentities(clients)
    requires !clients[n].child && id == clients[n].observed && Shown(PriorOf(before, id), m, clients[n], subscription)
    ensures AllShown(before, clients, n + 1, m, now[id := subscription])
  {
    hide Shown;
  }

  ghost predicate NewListed(before: Subscriptions, after: Subscriptions, clients: seq<Client>) {
    forall id :: id in after && id !in before ==> Observed(clients, |clients|, id)
  }

  /**
   What a projection made of the listing: every listed client is there with its identity and token and shows
   what it should; what is new was listed, what is gone was not, and what a deletion addresses stays only while listed.
   */
  ghost predicate Projected(before: Subscriptions, after: Subscriptions, clients: seq<Client>, m: Option<Mutation>,
      importing: bool) {
    && AllTaken(clients, |clients|, after, after.Keys) && NewListed(before, after, clients)
    && (forall id :: id in before && id !in after ==> !Observed(clients, |clients|, id))
    && (forall id :: id in after && Deletes(m, after[id]) ==> Observed(clients, |clients|, id))
    && (!importing && DistinctIdentities(clients) ==> AllShown(before, clients, |clients|, m, after))
  }

  lemma ProjectionHolds(before: Subscriptions, now: Subscriptions, after: Subscriptions, clients: seq<Client>,
      seen: set<string>,
                        m: Option<Mutation>, importing: bool)
    requires Scanned(before, now, clients, |clients|, m, importing, seen)
    requires forall id :: id in after ==> id in now && after[id] == now[id]
    requires forall id :: id in now ==> (id !in after <==> id !in seen && Deletes(m, now[id]))
    ensures Projected(before, after, clients, m, importing)
  {
    hide SoFar, Deletes, Shown;
    forall id | id in after && id !in before ensures Observed(clients, |clients|, id) {
      assert PriorOf(now, id) != PriorOf(before, id);
    }
  }

  lemma Tokens(before: Subscriptions, after: Subscriptions, clients: seq<Client>, m: Option<Mutation>)
    requires Frame(before, after, m) && UniqueEmails(before) && UniqueEmails(after)
               && Projected(before, after, clients, m, false)
    ensures UniqueTokens(before) ==> (UniqueTokens(after) <==> FreshTokens(before, clients))
  {
    hide Frame, UniqueEmails, AllTaken, NewListed, UniqueTokens, FreshTokens;
    if UniqueTokens(before) {
      TokensStayUnique(before, after, clients, m);
    }
  }

  lemma ProjectionDone(before: Subscriptions, now: Subscriptions, after: Subscriptions, clients: seq<Client>,
      seen: set<string>,
                       m: Option<Mutation>, importing: bool)
    requires UniqueEmails(before) && Scanned(before, now, clients, |clients|, m, importing, seen)
    requires forall id :: id in after ==> id in now && after[id] == now[id]
    requires forall id :: id in now ==> (id !in after <==> id !in seen && Deletes(m, now[id]))
    ensures UniqueEmails(after) && WellFormed(after) && SameTokens(before, after)
              && Projected(before, after, clients, m, importing)
    ensures !importing ==> Frame(before, after, m) && OneChanged(before, after)
    ensures !importing && UniqueTokens(before) ==> (UniqueTokens(after) <==> FreshTokens(before, clients))
  {
    hide SoFar, Frame, UniqueEmails, WellFormed, Deletes, AllTaken, AllObserved, Untouched, AllShown, Projected,
        OneChanged, UniqueTokens, FreshTokens, SameTokens;
    DeletionFrame(before, now, after, clients, m, importing);
    ProjectionHolds(before, now, after, clients, seen, m, importing);
    if !importing {
      OneChanges(before, after, m);
      Tokens(before, after, clients, m);
    }
  }

  lemma Unmoved(journal: Subscriptions, m: Option<Mutation>)
    ensures Frame(journal, journal, m) && OneChanged(journal, journal) && SameTokens(journal, journal)
  {
  }

  lemma SkippedChild(now: Subscriptions, identities: map<string, string>, c: Client, m: Option<Mutation>,
      importing: bool)
    requires Examine(now, identities, c, m, importing).Skipped?
    ensures c.child
  {
  }

  lemma KeptToken(now: Subscriptions, identities: map<string, string>, c: Client, m: Option<Mutation>, importing: bool)
    requires Examine(now, identities, c, m, importing).Kept?
    ensures var step := Examine(now, identities, c, m, importing);
            !c.child && step.id == c.observed && step.subscription.token == c.token
            && (c.observed in now ==> now[c.observed].token == c.token)
  {
  }

  // ---------------------------------------------------------------- runs

  datatype Event = Command(clients: seq<Client>, mutation: Option<Mutation>,
      saved: Outcome) | Background(clients: seq<Client>, saved: Outcome)

  /** The subscription's address moves only by the update that addresses it. */
  predicate Renamed(event: Event, from: string, to: string) {
    from == to || (event.Command? && event.mutation.Some? && event.mutation.value == Mutation(Update, from, to))
  }

  /** A deletion of this address, while the listing no longer shows the identity. */
  ghost predicate Removes(event: Event, email: string, id: string) {
    && event.Command? && event.mutation.Some? && event.mutation.value.action.Delete?
    && event.mutation.value.email == email
    && !Observed(event.clients, |event.clients|, id)
  }

  /**
   Over every run of commands and observations a distributed token never changes while its subscription
   exists, and a subscription ends only by a deletion of the address it has at that moment, once the listing no
   longer shows it. `addresses` are the addresses it had before each event.
   */
  method Run(controller: Controller, events: seq<Event>, id: string) returns (kept: bool, addresses: seq<string>)
    requires controller.Valid() && controller.initialized && id in controller.journal
    requires forall k :: 0 <= k < |events| ==> UniqueListing(events[k].clients)
    modifies controller
    ensures controller.Valid() && 0 < |addresses| <= |events| + 1 && addresses[0] == old(controller.journal)[id].email
    ensures forall k :: 0 < k < |addresses| ==> Renamed(events[k - 1], addresses[k - 1], addresses[k])
    ensures kept ==> id in controller.journal && controller.journal[id].token == old(controller.journal)[id].token
    ensures kept ==> |addresses| == |events| + 1 && controller.journal[id].email == addresses[|events|]
    ensures !kept ==> |addresses| <= |events| && Removes(events[|addresses| - 1], addresses[|addresses| - 1], id)
  {
    addresses := [controller.journal[id].email];
    for i := 0 to |events|
      invariant controller.Valid() && controller.initialized
      invariant id in controller.journal && controller.journal[id].token == old(controller.journal)[id].token
      invariant |addresses| == i + 1 && addresses[0] == old(controller.journal)[id].email
                  && controller.journal[id].email == addresses[i]
      invariant forall k :: 0 < k <= i ==> Renamed(events[k - 1], addresses[k - 1], addresses[k])
    {
      Turn(controller, events[i], id);
      if id !in controller.journal {
        return false, addresses;
      }
      addresses := addresses + [controller.journal[id].email];
    }
    return true, addresses;
  }

  method Turn(controller: Controller, event: Event, id: string)
    requires controller.Valid() && controller.initialized && id in controller.journal && UniqueListing(event.clients)
    modifies controller
    ensures controller.Valid() && controller.initialized
    ensures id in controller.journal ==>
              && controller.journal[id].token == old(controller.journal)[id].token
              && Renamed(event, old(controller.journal)[id].email, controller.journal[id].email)
    ensures id !in controller.journal ==> Removes(event, old(controller.journal)[id].email, id)
  {
    hide UniqueEmails, WellFormed, UniqueListing, Changed;
    match event
    case Command(clients, mutation, saved) => var _ := controller.Project(clients, mutation, true, saved);
    case Background(clients, saved) => var _ := controller.Refresh(clients, saved);
  }
}
