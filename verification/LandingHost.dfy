/**
 The native landing host: apply, remove, boot
 (internal/agent/host_application_landing.go:230-590, internal/landing/server.go:122-126).

 Each method ends in a `Valid` host on every exit, so whatever call fails, loses its
 reply or is the last one before the process dies, the ledger of `LandingLedger` holds.
 */
module LandingHost {
  import opened Prelude
  import opened LandingLedger

  /** What the host tells an apply: interface, fresh account, rendered files. */
  datatype Surroundings = Surroundings(iface: string, uid: nat, files: Files)

  predicate Rendered(files: Files) {
    forall path :: path in PATHS ==> path in files
  }

  /** Accounts the installation accepts. */
  predicate Usable(uid: nat) {
    0 < uid < 0x1_0000_0000 && uid != 65534
  }

  /** The plan names an exit other than the one in service. */
  predicate ExitChanges(j: Journal, plan: Plan) {
    plan.egress != "" && (j.policy.None? || j.policy.value.egress != plan.egress)
  }

  class Host {
    // Survives a reboot.
    var journal: Option<Journal>
    var disk: Files
    var account: Option<nat>
    var enabled: bool
    // Kernel and process state.
    var tables: set<Table>
    var running: bool
    // The init system runs the daemon or is about to start it again after a failure.
    var wanted: bool
    ghost const foreign: Files

    ghost function Now(): State
      reads this
    {
      State(disk, tables, account, enabled, wanted)
    }

    ghost predicate Valid()
      reads this
    {
      Ledger(journal, foreign, Now()) && (running ==> wanted)
    }

    /** Between the operations of one apply: the journal in memory is the one on disk. */
    ghost predicate Holds(j: Journal, plan: Plan)
      reads this
    {
      && Valid() && foreign == map[] && journal == Some(j)
      && !j.removed && j.plan == Some(plan) && j.revision == plan.revision > 0
    }

    constructor (found: Files, user: Option<nat>)
      ensures Valid() && journal.None? && disk == foreign == found && account == user
    {
      journal, disk, account, enabled, tables, foreign := None, found, user, false, {}, found;
      running, wanted := false, false;
    }

    // -------------------------------------------------------------- single effects

    method Save(j: Journal, o: Outcome) returns (v: Verdict)
      modifies this`journal
      ensures v == Ending(o)
      ensures journal == if Took(o) then Some(j) else old(journal)
    {
      if Took(o) {
        journal := Some(j);
      }
      return Ending(o);
    }

    method StopService(o: Outcome) returns (v: Verdict)
      modifies this`running, this`wanted
      ensures if Unit in disk && Took(o) then !running && !wanted else running == old(running) && wanted == old(wanted)
      ensures v == if Unit in disk then Ending(o) else Succeeded
    {
      if Unit !in disk {
        return Succeeded;
      }
      if Took(o) {
        running, wanted := false, false;
      }
      return Ending(o);
    }

    method Install(p: Policy, o: Outcome) returns (v: Verdict)
      modifies this`tables
      ensures v == Ending(o)
      ensures tables == if Took(o) then old(tables) + {TableOf(p)} else old(tables)
    {
      if Took(o) {
        tables := tables + {TableOf(p)};
      }
      return Ending(o);
    }

    method Uninstall(p: Policy, o: Outcome) returns (v: Verdict)
      modifies this`tables
      ensures v == Ending(o)
      ensures tables == if Took(o) then old(tables) - {TableOf(p)} else old(tables)
    {
      if Took(o) {
        tables := tables - {TableOf(p)};
      }
      return Ending(o);
    }

    // -------------------------------------------------------------- apply

    /** Checks the journal and fences the revision. */
    method Enter(node: string, plan: Plan, env: Environment) returns (v: Verdict, j: Journal)
      requires Valid()
      modifies this`journal
      ensures Valid() && Later(old(journal), journal)
      ensures v.Refused? <==> node == "" || plan.revision == 0 || !Admits(old(journal), disk, account, node, plan)
      ensures v.Refused? ==> journal == old(journal)
      ensures v.Succeeded? ==> Holds(j, plan) && j.node == node
      ensures v.Succeeded? && old(journal).Some? ==> j == Fence(old(journal).value, plan)
      ensures v.Succeeded? && old(journal).None? ==> j.uid == 0
      ensures old(journal).None? && journal.Some? ==> !journal.value.removed
      ensures old(journal).Some? && env(1).Done? && !v.Refused? ==> v.Succeeded?
      ensures Healthy(env) && !v.Refused? ==> v.Succeeded?
    {
      j := Journal(node, 0, 0, map[], map[], None, None, false, None);
      if node == "" || plan.revision == 0 {
        return Refused, j;
      }
      if journal.None? {
        if disk != map[] || account.Some? {
          return Refused, j;
        }
        v := Save(j, env(0));
        if !v.Succeeded? {
          return;
        }
      } else {
        j := journal.value;
        OwnWorkIsAccepted(j, foreign, Now());
      }
      if j.node != node || j.revision > plan.revision {
        return Refused, j;
      }
      if j.removed && plan.revision <= j.revision {
        return Refused, j;
      }
      if j.revision == plan.revision && j.plan.Some? && j.plan.value != plan {
        return Refused, j;
      }
      var owned := VerifyFiles(j);
      if !owned {
        return Refused, j;
      }
      FenceKeeps(j, foreign, Now(), plan);
      j := Fence(j, plan);
      v := Save(j, env(1));
    }

    method VerifyFiles(j: Journal) returns (owned: bool)
      ensures owned <==> AllOwned(j, disk)
    {
      AllPaths();
      for i := 0 to |PATHS|
        invariant forall k :: 0 <= k < i && PATHS[k] in disk ==> Owns(j, PATHS[k], disk[PATHS[k]])
      {
        var path := PATHS[i];
        if path in disk && !Owns(j, path, disk[path]) {
          return false;
        }
      }
      forall path | path in disk ensures Owns(j, path, disk[path]) {
        assert path in PATHS;
        var k :| 0 <= k < |PATHS| && PATHS[k] == path;
      }
      return true;
    }

    /** The package, the account and its identity. */
    method Enroll(j0: Journal, plan: Plan, uid: nat, env: Environment) returns (v: Verdict, j: Journal)
      requires Holds(j0, plan)
      modifies this`journal, this`account
      ensures Valid() && Later(old(journal), journal) && !v.Refused?
      ensures v.Succeeded? ==> Holds(j, plan) && Usable(j.uid) && account == Some(j.uid) && j == j0.(uid := j.uid)
      ensures v.Succeeded? ==> j.uid == if old(account).Some? then old(account).value else uid
      ensures v.Succeeded? ==> j.uid != 0 && j.uid != 65534 && j.uid <= 0xFFFF_FFFF
      ensures old(account).Some? ==> account == old(account)
      ensures !env(2).Done? ==> !v.Succeeded? && journal == old(journal) && account == old(account)
      ensures Healthy(env) && Usable(if old(account).Some? then old(account).value else uid) ==> v.Succeeded?
    {
      j := j0;
      if env(2) != Done {
        return Ending(env(2)), j;
      }
      if account.None? {
        if Took(env(3)) {
          account := Some(uid);
        }
        if env(3) != Done {
          return Ending(env(3)), j;
        }
      }
      if !Usable(account.value) || (j.uid != 0 && j.uid != account.value) {
        return Errored, j;
      }
      j := j.(uid := account.value);
      v := Save(j, env(4));
    }

    /** Fails closed on an exit change, prepares the configuration and stops the service. */
    method Halt(j: Journal, plan: Plan, env: Environment) returns (v: Verdict)
      requires Holds(j, plan)
      modifies this`running, this`wanted
      ensures Holds(j, plan) && !v.Refused?
      ensures v.Succeeded? ==> !wanted && env(6).Done?
      ensures plan.egress != "" && (j.policy.Some? ==> plan.egress != j.policy.value.egress) ==>
                (env(5).Done? ==> !wanted) && (v.Succeeded? && Unit in disk ==> env(5).Done?)
      ensures (j.policy.Some? && plan.egress == j.policy.value.egress) || plan.egress == "" ==>
                wanted == old(wanted) || env(6).Done?
      ensures Healthy(env) ==> v.Succeeded?
    {
      if ExitChanges(j, plan) {
        v := StopService(env(5));
        if !v.Succeeded? {
          return;
        }
      }
      if env(6) != Done {
        return Ending(env(6));
      }
      v := StopService(env(7));
    }

    /** Finishes an interrupted change of tables. */
    method Settle(j0: Journal, plan: Plan, env: Environment) returns (v: Verdict, j: Journal)
      requires Holds(j0, plan) && !wanted
      modifies this`journal, this`tables
      ensures Valid() && Later(old(journal), journal) && !v.Refused?
      ensures v.Succeeded? ==> Holds(j, plan) && j == j0.(previous := None)
      ensures Healthy(env) ==> v.Succeeded?
    {
      j := j0;
      if j.previous.None? {
        return Succeeded, j;
      }
      if j.policy.None? {
        assert false;
        return Errored, j;
      }
      v := Install(j.policy.value, env(8));
      if !v.Succeeded? {
        return;
      }
      if j.previous != j.policy {
        v := Uninstall(j.previous.value, env(9));
        if !v.Succeeded? {
          return;
        }
      }
      j := j.(previous := None);
      v := Save(j, env(10));
    }

    /** The digests of files an interrupted apply did write. */
    method AdoptWritten(j: Journal) returns (files: Files)
      ensures files == Adopted(j.pending, j.files, disk)
    {
      files := j.files;
      var todo := j.pending.Keys;
      while todo != {}
        invariant todo <= j.pending.Keys
        invariant forall path :: path in files <==>
                    path in j.files || (path in j.pending && path !in todo && path in disk
                    && disk[path] == j.pending[path])
        invariant forall path :: path in files ==>
          files[path] == if path in j.pending && path !in todo && path in disk
          && disk[path] == j.pending[path] then j.pending[path] else j.files[path]
      {
        var path :| path in todo;
        if path in disk && disk[path] == j.pending[path] {
          files := files[path := j.pending[path]];
        }
        todo := todo - {path};
      }
    }

    /** Puts the new table in place of the old one. */
    method Exchange(j0: Journal, plan: Plan, policy: Policy, env: Environment) returns (v: Verdict, j: Journal)
      requires Holds(j0, plan) && !wanted && j0.policy == Some(policy)
      requires tables <= if j0.previous.Some? then {TableOf(j0.previous.value)} else {}
      modifies this`journal, this`tables
      ensures Valid() && Later(old(journal), journal) && !v.Refused?
      ensures v.Succeeded? ==> Holds(j, plan) && j == j0.(previous := None) && tables == {TableOf(policy)}
      ensures Healthy(env) ==> v.Succeeded?
    {
      hide TableOf, PolicyFor;
      j := j0;
      if j.previous.Some? {
        CoherentTables(j.previous.value, policy);
      }
      v := Install(policy, env(12));
      if !v.Succeeded? {
        return;
      }
      if j.previous.Some? {
        if j.previous.value != policy {
          v := Uninstall(j.previous.value, env(13));
          if !v.Succeeded? {
            return;
          }
        }
      }
      j := j.(previous := None);
      v := Save(j, env(14));
    }

    /** Records the intent, then changes the tables. */
    method Cutover(j0: Journal, plan: Plan, iface: string, files: Files, env: Environment)
        returns (v: Verdict, j: Journal)
      requires Holds(j0, plan) && !wanted && j0.previous.None? && 0 < j0.uid
      modifies this`journal, this`tables
      ensures Valid() && Later(old(journal), journal) && !v.Refused?
      ensures v.Succeeded? ==>
                && Holds(j, plan)
                && j == Intent(j0, disk, PolicyFor(plan, iface, j0.uid), files).(previous := None)
                && tables == {TableOf(PolicyFor(plan, iface, j0.uid))}
      ensures Healthy(env) ==> v.Succeeded?
    {
      var policy := PolicyFor(plan, iface, j0.uid);
      var adopted := AdoptWritten(j0);
      j := j0.(files := adopted, pending := files, previous := j0.policy, policy := Some(policy),
          revision := plan.revision, removed := false);
      IntentKeeps(j0, Now(), plan, iface, files);
      assert tables <= if j0.policy.Some? then {TableOf(j0.policy.value)} else {};
      hide Adopted, Ledger, PolicyFor, Later;
      ghost var before := journal;
      LaterReflexive(before);
      v := Save(j, env(11));
      if !v.Succeeded? {
        return;
      }
      v, j := Exchange(j, plan, policy, env);
      LaterTransitive(before, Some(Intent(j0, disk, policy, files)), journal);
    }

    /** Writes the files that were announced. */
    method WriteFiles(j: Journal, plan: Plan, env: Environment) returns (v: Verdict)
      requires Holds(j, plan) && !wanted && Rendered(j.pending)
      modifies this`disk
      ensures Holds(j, plan) && !v.Refused?
      ensures v.Succeeded? ==> disk == j.pending
      ensures Healthy(env) ==> v.Succeeded?
    {
      AllPaths();
      for i := 0 to |PATHS|
        invariant Holds(j, plan)
        invariant forall k :: 0 <= k < i ==> PATHS[k] in disk && disk[PATHS[k]] == j.pending[PATHS[k]]
      {
        var path := PATHS[i];
        if Took(env(15 + i)) {
          disk := disk[path := j.pending[path]];
        }
        if env(15 + i) != Done {
          return Ending(env(15 + i));
        }
      }
      forall path: Path ensures path in disk && path in j.pending && disk[path] == j.pending[path] {
        assert path in PATHS;
        var k :| 0 <= k < |PATHS| && PATHS[k] == path;
      }
      return Succeeded;
    }

    /** Starts the service behind its table and commits the files. */
    method Launch(j0: Journal, plan: Plan, env: Environment) returns (v: Verdict)
      requires Holds(j0, plan) && Unit in disk && disk == j0.pending
      requires j0.policy.Some? && TableOf(j0.policy.value) in tables
      modifies this`journal, this`enabled, this`running, this`wanted
      ensures Valid() && Later(old(journal), journal) && !v.Refused?
      ensures v.Succeeded? ==> journal == Some(j0.(files := j0.pending, pending := map[])) && enabled && running
      ensures Healthy(env) ==> v.Succeeded?
    {
      if env(23) != Done {
        return Ending(env(23));
      }
      if Took(env(24)) {
        enabled := true;
      }
      if env(24) != Done {
        return Ending(env(24));
      }
      if Took(env(25)) {
        running, wanted := true, true;
      }
      if env(25) != Done {
        return Ending(env(25));
      }
      if env(26) != Done {
        return Ending(env(26));
      }
      v := Save(j0.(files := j0.pending, pending := map[]), env(27));
    }

    /** Everything after the admission: ApplyLanding lines 384-524. */
    method Deploy(j0: Journal, plan: Plan, sur: Surroundings, env: Environment) returns (v: Verdict)
      requires Holds(j0, plan) && Rendered(sur.files)
      modifies this
      ensures Valid() && Later(old(journal), journal) && !v.Refused?
      ensures v.Succeeded? ==> Deployed(j0.node, plan, sur, old(account))
      ensures v.Succeeded? ==> Usable(if old(account).Some? then old(account).value else sur.uid)
      ensures !env(2).Done? ==> journal == old(journal) && Now() == old(Now())
      ensures Healthy(env) && Usable(if old(account).Some? then old(account).value else sur.uid) ==> v.Succeeded?
    {
      hide Later, Ledger, PolicyFor, TableOf, Adopted;
      ghost var first := journal;
      LaterReflexive(first);
      var j;
      v, j := Enroll(j0, plan, sur.uid, env);
      if !v.Succeeded? {
        return;
      }
      v := Halt(j, plan, env);
      if !v.Succeeded? {
        return;
      }
      ghost var second := journal;
      v, j := Settle(j, plan, env);
      LaterTransitive(first, second, journal);
      if !v.Succeeded? {
        return;
      }
      ghost var third := journal;
      v, j := Cutover(j, plan, sur.iface, sur.files, env);
      LaterTransitive(first, third, journal);
      if !v.Succeeded? {
        return;
      }
      v := WriteFiles(j, plan, env);
      if !v.Succeeded? {
        return;
      }
      ghost var fourth := journal;
      UnitIsRendered(j.pending);
      v := Launch(j, plan, env);
      LaterTransitive(first, fourth, journal);
    }

    static lemma UnitIsRendered(files: Files)
      requires Rendered(files)
      ensures Unit in files
    {
    }

    /** The exact outcome of a successful apply. */
    ghost predicate Deployed(node: string, plan: Plan, sur: Surroundings, user: Option<nat>)
      reads this
    {
      var uid := if user.Some? then user.value else sur.uid;
      var policy := PolicyFor(plan, sur.iface, uid);
      && journal == Some(Journal(node, uid, plan.revision, sur.files, map[], Some(policy), None, false, Some(plan)))
      && tables == {TableOf(policy)}
      && disk == sur.files
      && account == Some(uid)
      && enabled && running
    }

    method ApplyLanding(node: string, plan: Plan, sur: Surroundings, env: Environment) returns (v: Verdict)
      requires Valid() && Rendered(sur.files)
      modifies this
      ensures Valid() && Later(old(journal), journal)
      ensures v.Refused? <==>
                node == "" || plan.revision == 0 || !Admits(old(journal), old(disk), old(account), node, plan)
      ensures v.Refused? ==> journal == old(journal) && Now() == old(Now())
      ensures v.Succeeded? ==> Deployed(node, plan, sur, old(account))
      ensures v.Succeeded? ==> account.Some? && exists t :: tables == {t} && Enforces(t, plan, sur.iface, account.value)
      ensures !v.Refused? && old(journal).Some? && env(1).Done? && !env(2).Done? ==>
                journal == Some(Fence(old(journal).value, plan)) && Now() == old(Now())
      ensures Healthy(env) && !v.Refused? ==>
                var uid := if old(account).Some? then old(account).value else sur.uid;
                v.Succeeded? <==> uid != 0 && uid != 65534 && uid <= 0xFFFF_FFFF
    {
      hide Later, Ledger, PolicyFor, TableOf, Admits, Enforces;
      var j;
      ghost var first := journal;
      v, j := Enter(node, plan, env);
      if !v.Succeeded? {
        return;
      }
      ghost var second := journal;
      v := Deploy(j, plan, sur, env);
      LaterTransitive(first, second, journal);
      if v.Succeeded? {
        TableEnforces(plan, sur.iface, account.value);
        assert tables == {TableOf(PolicyFor(plan, sur.iface, account.value))};
      }
    }

    // -------------------------------------------------------------- remove

    /** Takes down the recorded tables: the previous one first. */
    method RemovePolicies(j: Journal, env: Environment) returns (v: Verdict)
      requires Valid() && journal == Some(j) && !wanted
      modifies this`tables
      ensures Valid() && !v.Refused?
      ensures v.Succeeded? ==> tables == {}
      ensures Healthy(env) ==> v.Succeeded?
    {
      if j.previous.Some? {
        v := Uninstall(j.previous.value, env(4));
        if !v.Succeeded? {
          return;
        }
      }
      if j.policy.Some? {
        v := Uninstall(j.policy.value, env(5));
        if !v.Succeeded? {
          return;
        }
      }
      return Succeeded;
    }

    method RemoveFiles(j: Journal, env: Environment) returns (v: Verdict)
      requires Valid() && journal == Some(j) && !wanted && !enabled && foreign == map[]
      modifies this`disk
      ensures Valid() && !v.Refused?
      ensures v.Succeeded? ==> disk == map[]
      ensures Healthy(env) ==> v.Succeeded?
    {
      AllPaths();
      for i := 0 to |PATHS|
        invariant Valid()
        invariant forall k :: 0 <= k < i ==> PATHS[k] !in disk
      {
        if PATHS[i] in disk {
          if Took(env(6 + i)) {
            disk := disk - {PATHS[i]};
          }
          if env(6 + i) != Done {
            return Ending(env(6 + i));
          }
        }
      }
      forall path: Path ensures path !in disk {
        assert path in PATHS;
        var k :| 0 <= k < |PATHS| && PATHS[k] == path;
      }
      return Succeeded;
    }

    /** Records the tombstone and disables the service. */
    method Bury(j0: Journal, revision: nat, env: Environment) returns (v: Verdict, j: Journal)
      requires Valid() && journal == Some(j0) && foreign == map[] && !wanted
      requires j0.revision <= revision && (j0.revision == revision ==> j0.removed)
      modifies this`journal, this`enabled
      ensures Valid() && Later(old(journal), journal) && !v.Refused?
      ensures v.Succeeded? ==> journal == Some(j) && j == j0.(removed := true, revision := revision) && !enabled
      ensures env(1).Done? && env(2).Killed? && Unit in disk ==>
                !v.Succeeded? && journal == Some(Tombstone(j0, revision)) && enabled == old(enabled)
      ensures v.Succeeded? <==>
              env(1).Done? && (Unit in disk ==> env(2).Done?) && (FirewallUnit in disk ==> env(3).Done?)
    {
      j := Tombstone(j0, revision);
      TombstoneKeeps(j0, Now(), revision);
      hide Fenced, AllOwned, TablesOf, Later;
      LaterReflexive(journal);
      v := Save(j, env(1));
      if !v.Succeeded? {
        return;
      }
      if Unit in disk {
        if Took(env(2)) {
          enabled := false;
        }
        if env(2) != Done {
          return Ending(env(2)), j;
        }
      }
      if FirewallUnit in disk && env(3) != Done {
        return Ending(env(3)), j;
      }
      return Succeeded, j;
    }

    ghost predicate Gone(node: string, revision: nat)
      reads this
    {
      && journal.Some? && Blank(journal.value) && journal.value.node == node
      && journal.value.removed && journal.value.revision == revision
      && tables == {} && !enabled && !wanted && disk == foreign
    }

    method RemoveLanding(node: string, revision: nat, env: Environment) returns (v: Verdict)
      requires Valid()
      modifies this
      ensures Valid() && Later(old(journal), journal)
      ensures v.Refused? <==> node == "" || revision == 0 || !Releases(old(journal), old(disk), node, revision)
      ensures v.Refused? ==> journal == old(journal) && Now() == old(Now())
      ensures account == old(account)
      ensures v.Succeeded? ==> Gone(node, revision)
      ensures !v.Refused? && old(journal).Some? && env(0).Done? && env(1).Done? && env(2).Killed?
                && Unit in old(disk) ==>
                && journal == Some(Tombstone(old(journal).value, revision))
                && disk == old(disk) && tables == old(tables) && enabled == old(enabled)
      ensures Healthy(env) && !v.Refused? ==> v.Succeeded?
    {
      if node == "" || revision == 0 {
        return Refused;
      }
      if journal.None? {
        v := Save(Journal(node, 0, revision, map[], map[], None, None, true, None), env(0));
        return;
      }
      var j := journal.value;
      if j.node != node || revision < j.revision || (revision == j.revision && !j.removed) {
        return Refused;
      }
      var owned := VerifyFiles(j);
      if !owned {
        return Refused;
      }
      OwnWorkIsAccepted(j, foreign, Now());
      v := Dismantle(j, revision, env);
    }

    /** Stops the service before anything is recorded, and takes nothing down before the tombstone. */
    method Dismantle(j0: Journal, revision: nat, env: Environment) returns (v: Verdict)
      requires Valid() && journal == Some(j0) && foreign == map[]
      requires j0.revision <= revision && (j0.revision == revision ==> j0.removed)
      modifies this`journal, this`tables, this`disk, this`enabled, this`running, this`wanted
      ensures Valid() && Later(old(journal), journal) && !v.Refused?
      ensures v.Succeeded? ==> Gone(j0.node, revision)
      ensures env(0).Done? && env(1).Done? && env(2).Killed? && Unit in old(disk) ==>
                && journal == Some(Tombstone(j0, revision))
                && disk == old(disk) && tables == old(tables) && enabled == old(enabled)
      ensures Healthy(env) ==> v.Succeeded?
    {
      v := StopService(env(0));
      LaterReflexive(journal);
      if !v.Succeeded? {
        return;
      }
      ghost var first := journal;
      var j;
      v, j := Bury(j0, revision, env);
      if !v.Succeeded? {
        return;
      }
      v := Demolish(j, env);
      LaterTransitive(first, Some(j), journal);
    }

    /** Tables, files, then the record of both. */
    method Demolish(j0: Journal, env: Environment) returns (v: Verdict)
      requires Valid() && journal == Some(j0) && j0.removed && foreign == map[] && !wanted && !enabled
      modifies this`journal, this`tables, this`disk
      ensures Valid() && Later(old(journal), journal) && !v.Refused?
      ensures v.Succeeded? ==> Gone(j0.node, j0.revision)
      ensures Healthy(env) ==> v.Succeeded?
    {
      v := RemovePolicies(j0, env);
      if !v.Succeeded? {
        return;
      }
      v := RemoveFiles(j0, env);
      if !v.Succeeded? {
        return;
      }
      if env(14) != Done {
        return Ending(env(14));
      }
      v := Save(j0.(files := map[], pending := map[], policy := None, previous := None), env(15));
    }

    // -------------------------------------------------------------- boot

    /** RestoreLandingFirewall: the oneshot unit the service requires. */
    method RestoreFirewall(env: Environment) returns (v: Verdict)
      requires Valid()
      modifies this`tables
      ensures Valid()
      ensures v.Refused? <==> !BootReady(journal, disk, account)
      ensures v.Succeeded? ==> tables == old(tables) + {TableOf(journal.value.policy.value)}
      ensures v.Refused? ==> tables == old(tables)
      ensures Healthy(env) && BootReady(journal, disk, account) ==> v.Succeeded?
    {
      if journal.None? || journal.value.policy.None? || journal.value.removed {
        return Refused;
      }
      var j := journal.value;
      var owned := VerifyFiles(j);
      if !owned {
        return Refused;
      }
      for i := 0 to |PATHS|
        invariant forall k :: 0 <= k < i ==> PATHS[k] in disk
      {
        if PATHS[i] !in disk {
          return Refused;
        }
      }
      if account != Some(j.uid) || j.policy.value.uid != j.uid {
        return Refused;
      }
      v := Install(j.policy.value, env(0));
    }

    /** The kernel forgets its tables; an enabled service starts only after its prerequisite. */
    method Reboot(env: Environment)
      requires Valid()
      modifies this`tables, this`running, this`wanted
      ensures Valid() && tables <= TablesOfRecord(journal)
      ensures wanted ==> running && enabled && tables == {TableOf(journal.value.policy.value)}
      ensures Healthy(env) ==> (running <==> enabled && BootReady(journal, disk, account))
    {
      tables, running, wanted := {}, false, false;
      if enabled {
        AllPaths();
        var v := RestoreFirewall(env);
        if v.Succeeded? && Took(env(1)) {
          running, wanted := true, true;
        }
      }
    }

    /** The daemon ends on its own; after a failure the init system will start it again. */
    method Exit(failed: bool)
      requires Valid()
      modifies this`running, this`wanted
      ensures Valid() && !running && wanted == (old(wanted) && failed)
    {
      running, wanted := false, wanted && failed;
    }

    /** The init system starts a failed daemon again, without its prerequisite: the guard must still be there. */
    method Revive()
      requires Valid()
      modifies this`running
      ensures Valid() && running == wanted
      ensures running ==> journal.Some? && journal.value.policy.Some? && TableOf(journal.value.policy.value) in tables
                          && Unit in disk
    {
      running := wanted;
    }
  }

  function TablesOfRecord(journal: Option<Journal>): set<Table> {
    if journal.Some? then TablesOf(journal.value) else {}
  }

  // ---------------------------------------------------------------- runs

  datatype Event =
    | Apply(node: string, plan: Plan, sur: Surroundings)
    | Remove(node: string, revision: nat)
    | Guard
    | PowerCycle
    | DaemonExit(failed: bool)
    | DaemonRevived

  datatype Happening = Happening(event: Event, env: Environment)

  /** Every run, with every pattern of failures inside its operations, keeps the ledger. */
  method Run(host: Host, happenings: seq<Happening>)
    requires host.Valid()
    requires forall i :: 0 <= i < |happenings| && happenings[i].event.Apply? ==> Rendered(happenings[i].event.sur.files)
    modifies host
    ensures host.Valid() && Later(old(host.journal), host.journal)
    ensures host.foreign == map[] && host.journal.Some? ==> AllOwned(host.journal.value, host.disk)
    ensures host.foreign != map[] ==> host.disk == host.foreign && host.tables == {} && !host.wanted && !host.running
    ensures host.tables <= TablesOfRecord(host.journal)
    ensures host.running ==> host.wanted
    ensures host.wanted ==> host.journal.Some? && !host.journal.value.removed && host.journal.value.policy.Some? &&
                            TableOf(host.journal.value.policy.value) in host.tables
  {
    ghost var start := host.journal;
    LaterReflexive(start);
    for i := 0 to |happenings|
      invariant host.Valid() && Later(start, host.journal)
    {
      ghost var before := host.journal;
      Step(host, happenings[i].event, happenings[i].env);
      LaterTransitive(start, before, host.journal);
    }
  }

  method Step(host: Host, event: Event, env: Environment)
    requires host.Valid() && (event.Apply? ==> Rendered(event.sur.files))
    modifies host
    ensures host.Valid() && Later(old(host.journal), host.journal)
  {
    hide Ledger, Later, Admits, Releases;
    LaterReflexive(host.journal);
    match event
    case Apply(node, plan, sur) => var _ := host.ApplyLanding(node, plan, sur, env);
    case Remove(node, revision) => var _ := host.RemoveLanding(node, revision, env);
    case Guard => var _ := host.RestoreFirewall(env);
    case PowerCycle => host.Reboot(env);
    case DaemonExit(failed) => host.Exit(failed);
    case DaemonRevived => host.Revive();
  }

  // ---------------------------------------------------------------- a removal that comes back

  /**
   A removal is cut off after its tombstone, and the apply of a newer plan after its fence. The next boot serves the
   policy that was removed: the fence lifts the tombstone, the service is still enabled and its files are complete.
   `InterruptedRemovalReturns` says exactly when a boot accepts such a configuration.
   */
  method ServesRemovedPolicy(node: string, plan: Plan, newer: Plan, revision: nat, sur: Surroundings)
      returns (host: Host)
    requires node != "" && 0 < plan.revision < revision < newer.revision && Rendered(sur.files) && Usable(sur.uid)
    ensures fresh(host) && host.Valid() && host.running
    ensures host.journal.Some? && host.journal.value.plan == Some(newer)
    ensures host.journal.value.policy == Some(PolicyFor(plan, sur.iface, sur.uid))
    ensures host.tables == {TableOf(PolicyFor(plan, sur.iface, sur.uid))}
  {
    hide Ledger, Later, PolicyFor, TableOf;
    host := new Host(map[], None);
    var _ := host.ApplyLanding(node, plan, sur, k => Done);
    ghost var served := host.journal.value;
    var killed := (k: nat) => if k == 2 then Killed else Done;
    Host.UnitIsRendered(sur.files);
    AllRendered(sur.files, served);
    AllRendered(sur.files, Fence(Tombstone(served, revision), newer));
    PolicyUid(plan, sur.iface, sur.uid);
    var _ := host.RemoveLanding(node, revision, killed);
    var _ := host.ApplyLanding(node, newer, sur, killed);
    host.Reboot(k => Done);
  }

  lemma PolicyUid(plan: Plan, iface: string, uid: nat)
    ensures PolicyFor(plan, iface, uid).uid == uid
  {
  }

  /** A committed configuration is complete and owned, whatever its revision says. */
  lemma AllRendered(files: Files, j: Journal)
    requires Rendered(files) && j.files == files
    ensures forall path :: path in PATHS ==> path in files
    ensures AllOwned(j, files)
  {
  }
}
