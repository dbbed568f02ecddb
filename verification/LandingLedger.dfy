/**
 What the native landing service keeps on a host, and the ledger it is kept by
 (internal/agent/host_application_landing.go, internal/landing/server_firewall.go).

 The journal names every file and every kernel table the Agent may own. Digests are
 injective, so a file is identified with its content and a plan digest with the plan.
 */
module LandingLedger {
  import opened Prelude

  // ---------------------------------------------------------------- plans, policies, tables

  datatype Source = Source(address: string, tcpOnly: bool)

  datatype Plan = Plan(revision: nat, address: string, egress: string, sources: seq<Source>)

  /** What is recorded and compared byte for byte: the sources keep their order. */
  datatype Policy = Policy(revision: nat, address: string, egress: string, iface: string, uid: nat,
                           sources: seq<string>, tcpOnly: seq<string>)

  /** What the kernel knows: the table name is a digest of the policy with its sources sorted. */
  datatype Table = Table(revision: nat, address: string, egress: string, iface: string, uid: nat,
                         sources: multiset<string>, tcpOnly: multiset<string>)

  function TableOf(p: Policy): Table {
    Table(p.revision, p.address, p.egress, p.iface, p.uid, multiset(p.sources), multiset(p.tcpOnly))
  }

  function Addresses(sources: seq<Source>): seq<string> {
    if sources == [] then [] else Addresses(sources[..|sources| - 1]) + [sources[|sources| - 1].address]
  }

  function TcpOnly(sources: seq<Source>): seq<string> {
    if sources == [] then []
    else
      var last := sources[|sources| - 1];
      TcpOnly(sources[..|sources| - 1]) + (if last.tcpOnly then [last.address] else [])
  }

  function PolicyFor(plan: Plan, iface: string, uid: nat): Policy {
    Policy(plan.revision, plan.address, plan.egress, iface, uid, Addresses(plan.sources), TcpOnly(plan.sources))
  }

  /** A policy authorizes exactly the sources of its plan, in their order, and restricts exactly the marked ones. */
  lemma {:induction false} PolicyAuthorizes(sources: seq<Source>)
    ensures |Addresses(sources)| == |sources| && forall i :: 0 <= i < |sources| ==>
              Addresses(sources)[i] == sources[i].address
    ensures forall a :: a in TcpOnly(sources) <==> exists i :: 0 <= i < |sources| && sources[i] == Source(a, true)
  {
    if sources != [] {
      var front, last := sources[..|sources| - 1], sources[|sources| - 1];
      PolicyAuthorizes(front);
      forall a ensures a in TcpOnly(sources) <==> exists i :: 0 <= i < |sources| && sources[i] == Source(a, true) {
        if a in TcpOnly(front) {
          var i :| 0 <= i < |front| && front[i] == Source(a, true);
          assert sources[i] == Source(a, true);
        } else if last == Source(a, true) {
          assert sources[|sources| - 1] == Source(a, true);
        }
      }
    }
  }

  lemma AddressesHold(sources: seq<Source>, a: string)
    ensures a in multiset(Addresses(sources)) <==> exists i :: 0 <= i < |sources| && sources[i].address == a
  {
    hide Addresses;
    PolicyAuthorizes(sources);
    var addresses := Addresses(sources);
    if a in addresses {
      var i :| 0 <= i < |addresses| && addresses[i] == a;
      assert sources[i].address == a;
    }
    if i :| 0 <= i < |sources| && sources[i].address == a {
      assert addresses[i] == a;
    }
  }

  /** What a kernel table must hold for a plan on a host, field by field. */
  ghost predicate Enforces(t: Table, plan: Plan, iface: string, uid: nat) {
    && t.revision == plan.revision && t.address == plan.address && t.egress == plan.egress
    && t.iface == iface && t.uid == uid
    && |t.sources| == |plan.sources|
    && (forall a :: a in t.sources <==> exists i :: 0 <= i < |plan.sources| && plan.sources[i].address == a)
    && (forall a :: a in t.tcpOnly <==> exists i :: 0 <= i < |plan.sources| && plan.sources[i] == Source(a, true))
  }

  /** The table of a plan's policy admits exactly the plan's sources and restricts exactly the marked ones. */
  lemma TableEnforces(plan: Plan, iface: string, uid: nat)
    ensures Enforces(TableOf(PolicyFor(plan, iface, uid)), plan, iface, uid)
  {
    hide Addresses, TcpOnly;
    PolicyAuthorizes(plan.sources);
    forall a { AddressesHold(plan.sources, a); }
  }

  /** Policies of one revision come from one plan: they differ at most in the interface. */
  predicate Coherent(p: Policy, q: Policy) {
    p.revision == q.revision ==> p == q.(iface := p.iface)
  }

  /**
   Between coherent policies the byte comparison of the records decides whether the
   kernel tables are the same. In general it does not: see `SameTableOtherBytes`.
   */
  lemma CoherentTables(p: Policy, q: Policy)
    requires Coherent(p, q)
    ensures p == q <==> TableOf(p) == TableOf(q)
  {
  }

  lemma SameTableOtherBytes(p: Policy, a: string, b: string)
    requires a != b
    ensures var one, two := p.(sources := [a, b]), p.(sources := [b, a]);
            one != two && TableOf(one) == TableOf(two)
  {
  }

  // ---------------------------------------------------------------- files

  datatype Path = Config | Binary | License | Notice | Resolver | NameSwitch | Unit | FirewallUnit

  const PATHS: seq<Path> := [Config, Binary, License, Notice, Resolver, NameSwitch, Unit, FirewallUnit]

  lemma AllPaths()
    ensures forall p: Path :: p in PATHS
  {
    forall p: Path ensures p in PATHS {
      match p
      case Config => assert PATHS[0] == p;
      case Binary => assert PATHS[1] == p;
      case License => assert PATHS[2] == p;
      case Notice => assert PATHS[3] == p;
      case Resolver => assert PATHS[4] == p;
      case NameSwitch => assert PATHS[5] == p;
      case Unit => assert PATHS[6] == p;
      case FirewallUnit => assert PATHS[7] == p;
    }
  }

  type Files = map<Path, string>

  // ---------------------------------------------------------------- the journal

  datatype Journal = Journal(
    node: string,
    uid: nat,                  // 0 before the account is known
    revision: nat,
    files: Files,
    pending: Files,
    policy: Option<Policy>,
    previous: Option<Policy>,
    removed: bool,
    plan: Option<Plan>         // None stands for an absent digest
  )

  predicate Recorded(j: Journal, p: Policy) {
    j.policy == Some(p) || j.previous == Some(p)
  }

  function TablesOf(j: Journal): set<Table> {
    (if j.policy.Some? then {TableOf(j.policy.value)} else {}) +
    (if j.previous.Some? then {TableOf(j.previous.value)} else {})
  }

  predicate Owns(j: Journal, path: Path, content: string) {
    || (path in j.files && j.files[path] == content)
    || (path in j.pending && j.pending[path] == content)
  }

  /** What verifyLandingFiles accepts. */
  predicate AllOwned(j: Journal, disk: Files) {
    forall path :: path in disk ==> Owns(j, path, disk[path])
  }

  /** The record of a host on which nothing was ever installed (or everything was removed). */
  predicate Blank(j: Journal) {
    j.files == map[] && j.pending == map[] && j.policy.None? && j.previous.None?
  }

  /** A recorded policy is no newer than the journal, and at its revision it is the plan's. */
  predicate Dated(j: Journal, p: Policy) {
    && 0 < p.revision <= j.revision
    && 0 < p.uid == j.uid
    && (p.revision == j.revision ==> !j.removed && j.plan.Some? && p == PolicyFor(j.plan.value, p.iface, p.uid))
  }

  predicate Fenced(j: Journal) {
    && (j.previous.Some? ==> j.policy.Some? && Dated(j, j.previous.value) && Coherent(j.previous.value, j.policy.value))
    && (j.policy.Some? ==> Dated(j, j.policy.value))
    && (!j.removed && 0 < j.revision ==> j.plan.Some? && j.plan.value.revision == j.revision)
  }

  /** The part of a host that matters here; `foreign` are the managed paths as the Agent first found them. */
  datatype State = State(
    disk: Files,
    tables: set<Table>,
    account: Option<nat>,
    enabled: bool,
    wanted: bool
  )

  /**
   The invariant of the host. Where the managed paths were empty at first, every file is
   accounted for; where they were not, they are never touched. Every table is recorded, and
   the service runs only behind the table of the recorded policy.
   */
  predicate Ledger(journal: Option<Journal>, foreign: Files, s: State) {
    match journal
    case None => s.disk == foreign && s.tables == {} && !s.wanted && !s.enabled
    case Some(j) =>
      && Fenced(j)
      && (if foreign == map[] then AllOwned(j, s.disk) else Blank(j) && s.disk == foreign && !s.enabled)
      && s.tables <= TablesOf(j)
      && (j.uid != 0 ==> s.account == Some(j.uid))
      && (s.enabled ==> Unit in s.disk)
      && (s.wanted ==> !j.removed && j.policy.Some? && TableOf(j.policy.value) in s.tables && Unit in s.disk)
  }

  /** The Agent accepts its own work, however incomplete, and nothing else. */
  lemma OwnWorkIsAccepted(j: Journal, foreign: Files, s: State)
    requires Ledger(Some(j), foreign, s)
    ensures AllOwned(j, s.disk) <==> foreign == map[]
  {
  }

  /**
   What time does to a journal: the node stays, the revision never goes down, a removed
   revision stays removed, and every policy that appears is newer than any removed revision.
   */
  predicate Later(a: Option<Journal>, b: Option<Journal>) {
    a.Some? ==>
      && b.Some?
      && b.value.node == a.value.node
      && a.value.revision <= b.value.revision
      && (a.value.revision == b.value.revision && a.value.removed ==> b.value.removed)
      && (b.value.policy.Some? ==> Inherited(a.value, b.value.policy.value))
      && (b.value.previous.Some? ==> Inherited(a.value, b.value.previous.value))
  }

  predicate Inherited(a: Journal, p: Policy) {
    Recorded(a, p) || p.revision > a.revision || (p.revision == a.revision && !a.removed)
  }

  lemma LaterReflexive(a: Option<Journal>)
    ensures Later(a, a)
  {
  }

  lemma LaterTransitive(a: Option<Journal>, b: Option<Journal>, c: Option<Journal>)
    requires Later(a, b) && Later(b, c)
    ensures Later(a, c)
  {
  }

  /** A removal that was finished is never undone: whatever is recorded afterwards is newer. */
  lemma RemovalIsFinal(a: Option<Journal>, b: Option<Journal>, p: Policy)
    requires Later(a, b) && a.Some? && a.value.removed && a.value.policy.None? && a.value.previous.None?
    requires b.Some? && Recorded(b.value, p)
    ensures p.revision > a.value.revision
    ensures !b.value.removed ==> b.value.revision > a.value.revision
  {
  }

  // ---------------------------------------------------------------- admission

  /** When ApplyLanding gets past its checks of the journal. */
  predicate Admits(journal: Option<Journal>, disk: Files, account: Option<nat>, node: string, plan: Plan) {
    match journal
    case None => disk == map[] && account.None?
    case Some(j) =>
      && j.node == node
      && j.revision <= plan.revision
      && (j.removed ==> j.revision < plan.revision)
      && (j.revision == plan.revision && j.plan.Some? ==> j.plan.value == plan)
      && AllOwned(j, disk)
  }

  /** When RemoveLanding gets past its checks of the journal. */
  predicate Releases(journal: Option<Journal>, disk: Files, node: string, revision: nat) {
    match journal
    case None => true
    case Some(j) =>
      && j.node == node
      && j.revision <= revision
      && (j.revision == revision ==> j.removed)
      && AllOwned(j, disk)
  }

  /** What RestoreLandingFirewall demands of the boot configuration. */
  predicate BootReady(journal: Option<Journal>, disk: Files, account: Option<nat>) {
    && journal.Some?
    && var j := journal.value;
    && j.policy.Some? && !j.removed
    && AllOwned(j, disk)
    && (forall path :: path in PATHS ==> path in disk)
    && account == Some(j.uid) && j.policy.value.uid == j.uid
  }

  // ---------------------------------------------------------------- the steps of a journal

  function Fence(j: Journal, plan: Plan): Journal {
    j.(revision := plan.revision, plan := Some(plan), removed := false)
  }

  function Adopted(pending: Files, files: Files, disk: Files): Files {
    map path | path in files.Keys + pending.Keys &&
               (path in files || (path in disk && disk[path] == pending[path])) ::
      if path in pending && path in disk && disk[path] == pending[path] then pending[path] else files[path]
  }

  function Intent(j: Journal, disk: Files, policy: Policy, files: Files): Journal {
    j.(files := Adopted(j.pending, j.files, disk), pending := files, previous := j.policy, policy := Some(policy),
       revision := policy.revision, removed := false)
  }

  lemma FenceKeeps(j: Journal, foreign: Files, s: State, plan: Plan)
    requires Ledger(Some(j), foreign, s) && 0 < plan.revision
    requires Admits(Some(j), s.disk, s.account, j.node, plan)
    ensures Ledger(Some(Fence(j, plan)), foreign, s)
    ensures Later(Some(j), Some(Fence(j, plan)))
  {
  }

  /** Recording the intent disowns nothing that is on the disk and loses no table. */
  lemma IntentKeeps(j: Journal, s: State, plan: Plan, iface: string, files: Files)
    requires Ledger(Some(j), map[], s) && !s.wanted && 0 < j.uid
    requires j.previous.None? && !j.removed && j.plan == Some(plan) && j.revision == plan.revision && 0 < plan.revision
    ensures var next := Intent(j, s.disk, PolicyFor(plan, iface, j.uid), files);
            && Ledger(Some(next), map[], s)
            && Later(Some(j), Some(next))
  {
  }

  function Tombstone(j: Journal, revision: nat): Journal {
    j.(removed := true, revision := revision)
  }

  lemma TombstoneKeeps(j: Journal, s: State, revision: nat)
    requires Ledger(Some(j), map[], s) && !s.wanted
    requires j.revision <= revision && (j.revision == revision ==> j.removed)
    ensures Ledger(Some(Tombstone(j, revision)), map[], s)
    ensures Later(Some(j), Some(Tombstone(j, revision)))
  {
  }

  /** The Agent's own unfinished work never stands in the way of a newer plan or of the same one. */
  lemma PartialWorkNeverBlocks(j: Journal, s: State, node: string, plan: Plan)
    requires Ledger(Some(j), map[], s) && 0 < plan.revision
    ensures Admits(Some(j), s.disk, s.account, node, plan) <==>
            j.node == node && (j.revision < plan.revision
                || (j.plan == Some(plan) && j.revision == plan.revision && !j.removed))
  {
  }

  /**
   A boot after an interrupted removal. Once a newer plan has fenced the journal, the
   firewall unit accepts the removed configuration again exactly when a policy is still
   recorded and the removal had not reached any file.
   */
  lemma InterruptedRemovalReturns(j: Journal, s: State, plan: Plan)
    requires Ledger(Some(j), map[], s) && j.removed && 0 < j.uid && 0 < plan.revision
    requires Admits(Some(j), s.disk, s.account, j.node, plan)
    ensures BootReady(Some(Fence(j, plan)), s.disk, s.account) <==>
            j.policy.Some? && forall path :: path in PATHS ==> path in s.disk
    ensures j.policy.Some? ==> j.policy.value.revision < j.revision
  {
  }
}
