/**
 Replacing a proxy container under lost replies
 (internal/agent/docker_executor_3xui_replace.go:40-207,
 internal/agent/docker_executor_xray_worker.go:136-154 and 191-321).

 The panel, the worker and the Meridian replacement follow one protocol over different
 names. Nothing is compensated: whatever an interrupted attempt leaves under a
 transitional name stops the next one.
 */
module ContainerReplacement {
  import opened Prelude

  datatype Container = Container(id: nat, running: bool)

  type Docker = map<string, Container>

  /**
   `chain` are the names a predecessor is looked up under, in order, starting with `current`;
   `reserved` are the transitional names that must be free before an attempt.
   */
  datatype Roles = Roles(current: string, candidate: string, rollback: string, cleanup: string, chain: seq<string>,
      reserved: seq<string>)

  const PANEL := Roles("vastora-3x-ui", "vastora-3x-ui-candidate", "vastora-3x-ui-rollback", "vastora-3x-ui-cleanup",
                       ["vastora-3x-ui"], ["vastora-3x-ui-candidate", "vastora-3x-ui-rollback",
                           "vastora-3x-ui-cleanup"])

  const WORKER_NAMES := ["vastora-xray-candidate", "vastora-xray-rollback", "vastora-xray-cleanup",
                         "meridian-xray-candidate", "meridian-xray-rollback", "meridian-xray-cleanup"]

  const WORKER := Roles("vastora-xray", WORKER_NAMES[0], WORKER_NAMES[1], WORKER_NAMES[2],
      ["vastora-xray", "vastora-3x-ui"], WORKER_NAMES)

  const MERIDIAN := Roles("meridian-xray", WORKER_NAMES[3], WORKER_NAMES[4], WORKER_NAMES[5],
                          ["meridian-xray", "vastora-xray", "vastora-3x-ui"], WORKER_NAMES)

  predicate Proper(r: Roles) {
    && r.candidate != r.rollback && r.candidate != r.cleanup && r.rollback != r.cleanup
    && r.candidate in r.reserved && r.rollback in r.reserved && r.cleanup in r.reserved
    && r.chain != [] && r.chain[0] == r.current
    && forall k, l :: 0 <= k < |r.chain| && 0 <= l < |r.reserved| ==> r.chain[k] != r.reserved[l]
  }

  predicate Leftover(r: Roles, d: Docker) {
    exists k :: 0 <= k < |r.reserved| && r.reserved[k] in d
  }

  function Family(r: Roles): set<string> {
    (set name | name in r.chain) + (set name | name in r.reserved)
  }

  ghost predicate AtMostOneRuns(r: Roles, d: Docker) {
    forall a, b :: a in Family(r) && b in Family(r) && a in d && b in d && d[a].running && d[b].running ==> a == b
  }

  ghost predicate OneInService(r: Roles, d: Docker) {
    forall a, b :: a in r.chain && b in r.chain && a in d && b in d ==> a == b
  }

  /** At most one container of the family runs, at most one is in service, and identities are unique. */
  ghost predicate Ledger(r: Roles, d: Docker, next: nat) {
    && AtMostOneRuns(r, d)
    && OneInService(r, d)
    && (forall a, b :: a in d && b in d && d[a].id == d[b].id ==> a == b)
    && (forall a :: a in d ==> d[a].id < next)
  }

  /** The container that would be replaced: the first name of the chain that exists. */
  function Predecessor(chain: seq<string>, d: Docker): (p: Option<string>)
    ensures p.Some? ==> p.value in chain && p.value in d
    ensures p.None? ==> forall name :: name in chain ==> name !in d
  {
    if chain == [] then None
    else if chain[0] in d then Some(chain[0])
    else
      assert chain == [chain[0]] + chain[1..];
      Predecessor(chain[1..], d)
  }

  lemma Names(r: Roles)
    requires Proper(r)
    ensures r.current in r.chain && r.candidate !in r.chain && r.rollback !in r.chain && r.cleanup !in r.chain
    ensures forall name :: name in r.chain ==> name in Family(r)
    ensures r.candidate in Family(r) && r.rollback in Family(r) && r.cleanup in Family(r)
  {
  }

  lemma LeftoverNames(r: Roles, d: Docker)
    requires Proper(r)
    ensures r.candidate in d || r.rollback in d || r.cleanup in d ==> Leftover(r, d)
    ensures !Leftover(r, d) ==> forall name :: name in r.reserved ==> name !in d
  {
  }

  /** The outcome of a replacement that went through. */
  function Committed(r: Roles, d: Docker, id: nat): Docker {
    var p := Predecessor(r.chain, d);
    (if p.Some? then d - {p.value} else d)[r.current := Container(id, true)]
  }

  function Created(r: Roles, d: Docker, id: nat): Docker {
    d[r.candidate := Container(id, false)]
  }

  function Halted(r: Roles, d: Docker, id: nat): Docker {
    var p := Predecessor(r.chain, d);
    if p.Some? then Created(r, d, id)[p.value := d[p.value].(running := false)] else Created(r, d, id)
  }

  /** The predecessor stopped and out of the way, the candidate created. */
  function Parked(r: Roles, d: Docker, id: nat): Docker {
    var p := Predecessor(r.chain, d);
    (if p.Some? then (d - {p.value})[r.rollback := d[p.value].(running := false)] else d)
        [r.candidate := Container(id, false)]
  }

  /** The candidate in service, the predecessor still kept. */
  function Promoted(r: Roles, d: Docker, id: nat): Docker {
    var p := Predecessor(r.chain, d);
    (if p.Some? then (d - {p.value})[r.rollback := d[p.value].(running := false)] else d)
        [r.current := Container(id, true)]
  }

  function Condemned(r: Roles, d: Docker, id: nat): Docker {
    var p := Predecessor(r.chain, d);
    (if p.Some? then (d - {p.value})[r.cleanup := d[p.value].(running := false)] else d)
        [r.current := Container(id, true)]
  }

  function Trial(r: Roles, d: Docker, id: nat, up: bool): Docker {
    Parked(r, d, id)[r.candidate := Container(id, up)]
  }

  ghost predicate Present(d: Docker, id: nat) {
    exists name :: name in d && d[name].id == id
  }

  class Engine {
    const roles: Roles
    var docker: Docker
    var next: nat

    ghost predicate Valid()
      reads this
    {
      Proper(roles) && Ledger(roles, docker, next)
    }

    constructor (r: Roles, d: Docker, n: nat)
      requires Proper(r) && Ledger(r, d, n)
      ensures Valid() && roles == r && docker == d
    {
      roles, docker, next := r, d, n;
    }

    // -------------------------------------------------------------- single calls

    method Create(o: Outcome) returns (v: Verdict, id: nat)
      requires Valid() && !Leftover(roles, docker)
      modifies this
      ensures Valid() && v == Ending(o) && id == old(next)
      ensures docker == if Took(o) then old(docker)[roles.candidate := Container(id, false)] else old(docker)
    {
      id := next;
      if Took(o) {
        docker, next := docker[roles.candidate := Container(id, false)], next + 1;
      }
      return Ending(o), id;
    }

    method Stop(name: string, o: Outcome) returns (v: Verdict)
      requires Valid() && name in docker
      modifies this`docker
      ensures Valid() && v == Ending(o)
      ensures docker == if Took(o) then old(docker)[name := old(docker)[name].(running := false)] else old(docker)
    {
      if Took(o) {
        docker := docker[name := docker[name].(running := false)];
      }
      return Ending(o);
    }

    method Start(name: string, o: Outcome) returns (v: Verdict)
      requires Valid() && name in docker && name in Family(roles)
      requires forall other :: other in Family(roles) && other in docker && other != name ==> !docker[other].running
      modifies this`docker
      ensures Valid() && v == Ending(o)
      ensures docker == if Took(o) then old(docker)[name := old(docker)[name].(running := true)] else old(docker)
    {
      if Took(o) {
        docker := docker[name := docker[name].(running := true)];
      }
      return Ending(o);
    }

    /** Docker refuses a name that is taken; the protocol never asks for one. */
    method Rename(from: string, to: string, o: Outcome) returns (v: Verdict)
      requires Valid() && from in docker && to !in docker && from in Family(roles) && to in Family(roles)
      requires to in roles.chain && from !in roles.chain ==> forall name :: name in roles.chain ==> name !in docker
      modifies this`docker
      ensures Valid() && v == Ending(o)
      ensures docker == if Took(o) then (old(docker) - {from})[to := old(docker)[from]] else old(docker)
    {
      if Took(o) {
        docker := (docker - {from})[to := docker[from]];
      }
      return Ending(o);
    }

    method Remove(name: string, o: Outcome) returns (v: Verdict)
      requires Valid()
      modifies this`docker
      ensures Valid() && v == Ending(o)
      ensures docker == if Took(o) then old(docker) - {name} else old(docker)
    {
      if Took(o) {
        docker := docker - {name};
      }
      return Ending(o);
    }

    // -------------------------------------------------------------- the protocol

    /** requireNoInterruptedThreeXUIDeploy, requireNoUnreviewedXrayWorkerDeploy */
    method AnyLeftover() returns (found: bool)
      ensures found <==> Leftover(roles, docker)
    {
      for i := 0 to |roles.reserved|
        invariant forall k :: 0 <= k < i ==> roles.reserved[k] !in docker
      {
        if roles.reserved[i] in docker {
          return true;
        }
      }
      return false;
    }

    method FindPredecessor() returns (p: Option<string>)
      ensures p == Predecessor(roles.chain, docker)
    {
      assert roles.chain[0..] == roles.chain;
      for i := 0 to |roles.chain|
        invariant Predecessor(roles.chain, docker) == Predecessor(roles.chain[i..], docker)
      {
        assert roles.chain[i..][1..] == roles.chain[i + 1..];
        if roles.chain[i] in docker {
          return Some(roles.chain[i]);
        }
      }
      return None;
    }

    /** An attempt either left nothing, or went through, or blocks the next one. */
    method Replace(env: Environment, alive: bool) returns (v: Verdict, id: nat)
      requires Valid()
      modifies this
      ensures Valid()
      ensures v.Refused? <==> Leftover(roles, old(docker))
      ensures v.Refused? ==> docker == old(docker)
      ensures v.Succeeded? ==> docker == Committed(roles, old(docker), id)
      ensures docker == old(docker) || docker == Committed(roles, old(docker), id) || Leftover(roles, docker)
      ensures forall gone :: Present(old(docker), gone) && !Present(docker, gone) ==>
                && Predecessor(roles.chain, old(docker)).Some?
                && gone == old(docker)[Predecessor(roles.chain, old(docker)).value].id
                && roles.current in docker && docker[roles.current] == Container(id, true)
                && alive && env(7).Done? && env(8).Done? && env(10).Done?
      ensures Healthy(env) && alive && !v.Refused? ==> v.Succeeded?
    {
      id := next;
      var found := AnyLeftover();
      if found {
        return Refused, id;
      }
      var p := FindPredecessor();
      if env(0) != Done {
        return Ending(env(0)), id;
      }
      Names(roles);
      LeftoverNames(roles, docker);
      ghost var before := docker;
      assert OneInService(roles, before) && !Leftover(roles, before);
      v, id := Create(env(1));
      if !v.Succeeded? {
        CreatedFacts(roles, before, id);
        return;
      }
      v := Exchange(p, before, id, env, alive);
    }

    /** Everything after the candidate exists. */
    method Exchange(p: Option<string>, ghost before: Docker, id: nat, env: Environment, alive: bool)
        returns (v: Verdict)
      requires Valid() && p == Predecessor(roles.chain, before) && docker == Created(roles, before, id)
      requires !Leftover(roles, before) && OneInService(roles, before)
      modifies this`docker
      ensures Valid() && !v.Refused?
      ensures v.Succeeded? ==> docker == Committed(roles, before, id)
      ensures docker == Committed(roles, before, id) || Leftover(roles, docker)
      ensures forall gone :: Present(before, gone) && !Present(docker, gone) ==>
                && p.Some? && gone == before[p.value].id
                && roles.current in docker && docker[roles.current] == Container(id, true)
                && alive && env(7).Done? && env(8).Done? && env(10).Done?
      ensures Healthy(env) && alive ==> v.Succeeded?
    {
      CreatedFacts(roles, before, id);
      HaltedFacts(roles, before, id);
      ParkedFacts(roles, before, id, true);
      ParkedFacts(roles, before, id, false);
      PromotedFacts(roles, before, id);
      CondemnedFacts(roles, before, id);
      hide Ledger, Leftover, Present, Predecessor, Created, Halted, Parked, Trial, Promoted, Condemned, Committed;
      v := TakeDown(p, before, id, env);
      if !v.Succeeded? {
        return;
      }
      v := Try(before, id, env, alive);
      if !v.Succeeded? {
        return;
      }
      v := Promote(before, id, env);
      if !v.Succeeded? {
        return;
      }
      v := Discard(p, before, id, env);
    }

    /** Stops the predecessor, saves its database and sets it aside. */
    method TakeDown(p: Option<string>, ghost before: Docker, id: nat, env: Environment) returns (v: Verdict)
      requires Valid() && p == Predecessor(roles.chain, before) && docker == Created(roles, before, id)
      requires !Leftover(roles, before)
      modifies this`docker
      ensures Valid() && !v.Refused?
      ensures docker == Created(roles, before, id) || docker == Halted(roles, before, id)
                || docker == Trial(roles, before, id, false)
      ensures v.Succeeded? ==> docker == Trial(roles, before, id, false)
      ensures Healthy(env) ==> v.Succeeded?
    {
      Names(roles);
      LeftoverNames(roles, before);
      hide Ledger, Leftover, Family, Predecessor;
      if env(2) != Done {
        return Ending(env(2));
      }
      if p.None? {
        assert docker == Trial(roles, before, id, false);
        return Succeeded;
      }
      if docker[p.value].running {
        v := Stop(p.value, env(3));
        if !v.Succeeded? {
          return;
        }
      }
      TakeDownForms(roles, before, id, docker);
      hide Created, Halted, Trial, Parked;
      if env(4) != Done {
        return Ending(env(4));
      }
      v := Rename(p.value, roles.rollback, env(5));
    }

    /** Starts the candidate and validates it; it may end by itself. */
    method Try(ghost before: Docker, id: nat, env: Environment, alive: bool) returns (v: Verdict)
      requires Valid() && docker == Trial(roles, before, id, false) && !Leftover(roles, before)
                 && OneInService(roles, before)
      modifies this`docker
      ensures Valid() && !v.Refused?
      ensures docker == Trial(roles, before, id, true) || docker == Trial(roles, before, id, false)
      ensures v.Succeeded? ==> docker == Trial(roles, before, id, true) && alive && env(7).Done? && env(8).Done?
      ensures Healthy(env) && alive ==> v.Succeeded?
    {
      Names(roles);
      QuietOthers(roles, before, id);
      hide Leftover, Family, Parked;
      v := Start(roles.candidate, env(6));
      if !v.Succeeded? {
        return;
      }
      if env(7) != Done {
        return Ending(env(7));
      }
      if env(8) != Done {
        return Ending(env(8));
      }
      if !alive {
        v := Stop(roles.candidate, Done);
        return Errored;
      }
    }

    /** Gives the candidate the name and verifies it under it. */
    method Promote(ghost before: Docker, id: nat, env: Environment) returns (v: Verdict)
      requires Valid() && docker == Trial(roles, before, id, true) && !Leftover(roles, before)
                 && OneInService(roles, before)
      modifies this`docker
      ensures Valid() && !v.Refused?
      ensures docker == Trial(roles, before, id, true) || docker == Promoted(roles, before, id)
      ensures v.Succeeded? ==> docker == Promoted(roles, before, id) && env(10).Done?
      ensures Healthy(env) ==> v.Succeeded?
    {
      Names(roles);
      LeftoverNames(roles, before);
      FreeChain(roles, before, id);
      hide Ledger, Leftover, Family, Predecessor, OneInService;
      v := Rename(roles.candidate, roles.current, env(9));
      assert Took(env(9)) ==> docker == Promoted(roles, before, id);
      if !v.Succeeded? {
        return;
      }
      return Ending(env(10));
    }

    /** The predecessor goes last. */
    method Discard(p: Option<string>, ghost before: Docker, id: nat, env: Environment) returns (v: Verdict)
      requires Valid() && p == Predecessor(roles.chain, before) && docker == Promoted(roles, before, id)
                 && !Leftover(roles, before)
      modifies this`docker
      ensures Valid() && !v.Refused?
      ensures docker == if p.None? || !Took(env(11)) then Promoted(roles, before, id)
                        else if env(11).Done?
                            && Took(env(12)) then Committed(roles, before, id) else Condemned(roles, before, id)
      ensures v.Succeeded? ==> docker == Committed(roles, before, id)
      ensures Healthy(env) ==> v.Succeeded?
    {
      Names(roles);
      LeftoverNames(roles, before);
      if p.None? {
        return Succeeded;
      }
      DiscardForms(roles, before, id);
      hide Ledger, Leftover, Family, Predecessor, OneInService, Promoted, Condemned, Committed;
      v := Rename(roles.rollback, roles.cleanup, env(11));
      if !v.Succeeded? {
        return;
      }
      v := Remove(roles.cleanup, env(12));
    }
  }

  // ---------------------------------------------------------------- what the states of an attempt imply

  /** Nothing of the former containers is gone, and the next attempt will refuse. */
  ghost predicate Blocking(r: Roles, before: Docker, now: Docker) {
    Leftover(r, now) && forall id :: Present(before, id) ==> Present(now, id)
  }

  lemma TakeDownForms(r: Roles, before: Docker, id: nat, now: Docker)
    requires Proper(r) && !Leftover(r, before) && Predecessor(r.chain, before).Some?
    requires var p := Predecessor(r.chain, before).value;
             now == Created(r, before, id)[p := before[p].(running := false)]
    ensures var p := Predecessor(r.chain, before).value;
            && now == Halted(r, before, id) && p in now && r.rollback !in now
            && (now - {p})[r.rollback := now[p]] == Trial(r, before, id, false)
  {
  }

  lemma DiscardForms(r: Roles, before: Docker, id: nat)
    requires Proper(r) && !Leftover(r, before) && Predecessor(r.chain, before).Some?
    ensures var now, next := Promoted(r, before, id), Condemned(r, before, id);
            && r.rollback in now && r.cleanup !in now && (now - {r.rollback})[r.cleanup := now[r.rollback]] == next
            && next - {r.cleanup} == Committed(r, before, id)
  {
    Names(r);
    LeftoverNames(r, before);
    hide Leftover, Family;
  }

  lemma CreatedFacts(r: Roles, before: Docker, id: nat)
    requires Proper(r) && !Leftover(r, before)
    ensures Blocking(r, before, Created(r, before, id))
  {
    LeftoverNames(r, before);
    LeftoverNames(r, Created(r, before, id));
    KeepsAll(before, Created(r, before, id), r.candidate);
  }

  lemma HaltedFacts(r: Roles, before: Docker, id: nat)
    requires Proper(r) && !Leftover(r, before)
    ensures Blocking(r, before, Halted(r, before, id))
  {
    CreatedFacts(r, before, id);
    Names(r);
    LeftoverNames(r, before);
    LeftoverNames(r, Halted(r, before, id));
    var p := Predecessor(r.chain, before);
    if p.Some? {
      MovedKeeps(before, Halted(r, before, id), p.value, p.value);
    }
  }

  lemma ParkedFacts(r: Roles, before: Docker, id: nat, up: bool)
    requires Proper(r) && !Leftover(r, before)
    ensures Blocking(r, before, Trial(r, before, id, up))
  {
    var now := Trial(r, before, id, up);
    Names(r);
    LeftoverNames(r, before);
    LeftoverNames(r, now);
    var p := Predecessor(r.chain, before);
    if p.Some? {
      MovedKeeps(before, now, p.value, r.rollback);
    } else {
      KeepsAll(before, now, r.candidate);
    }
  }

  lemma PromotedFacts(r: Roles, before: Docker, id: nat)
    requires Proper(r) && !Leftover(r, before) && OneInService(r, before)
    ensures forall kept :: Present(before, kept) ==> Present(Promoted(r, before, id), kept)
    ensures Promoted(r, before, id) == Committed(r, before, id) || Leftover(r, Promoted(r, before, id))
  {
    var now := Promoted(r, before, id);
    Names(r);
    LeftoverNames(r, before);
    LeftoverNames(r, now);
    var p := Predecessor(r.chain, before);
    if p.Some? {
      MovedKeeps(before, now, p.value, r.rollback);
    } else {
      KeepsAll(before, now, r.current);
    }
  }

  lemma CondemnedFacts(r: Roles, before: Docker, id: nat)
    requires Proper(r) && !Leftover(r, before) && OneInService(r, before)
    ensures Condemned(r, before, id) == Committed(r, before, id) || Blocking(r, before, Condemned(r, before, id))
    ensures var now := Committed(r, before, id);
            && r.current in now && now[r.current] == Container(id, true)
            && forall gone :: Present(before, gone) && !Present(now, gone) ==>
                 Predecessor(r.chain, before).Some? && gone == before[Predecessor(r.chain, before).value].id
  {
    var now := Condemned(r, before, id);
    Names(r);
    LeftoverNames(r, before);
    LeftoverNames(r, now);
    var p := Predecessor(r.chain, before);
    if p.Some? {
      MovedKeeps(before, now, p.value, r.cleanup);
      OnlyOneGoes(r, before, Committed(r, before, id));
    } else {
      KeepsAll(before, Committed(r, before, id), r.current);
    }
  }

  /** Adding under a free name takes nothing away. */
  lemma KeepsAll(before: Docker, after: Docker, name: string)
    requires name !in before && forall other :: other in before ==> other in after && after[other] == before[other]
    ensures forall id :: Present(before, id) ==> Present(after, id)
  {
  }

  /** One container changed its name or state; none went. */
  lemma MovedKeeps(before: Docker, after: Docker, from: string, to: string)
    requires from in before && to in after && after[to].id == before[from].id
    requires forall other :: other in before && other != from ==> other in after && after[other].id == before[other].id
    ensures forall id :: Present(before, id) ==> Present(after, id)
  {
  }

  /** With the predecessor parked nothing else of the family runs. */
  lemma QuietOthers(r: Roles, before: Docker, id: nat)
    requires Proper(r) && !Leftover(r, before) && OneInService(r, before)
    ensures var d := Parked(r, before, id);
            forall other :: other in Family(r) && other in d && other != r.candidate ==> !d[other].running
  {
  }

  lemma FreeChain(r: Roles, before: Docker, id: nat)
    requires Proper(r) && !Leftover(r, before) && OneInService(r, before)
    ensures forall name :: name in r.chain ==> name !in Parked(r, before, id)
  {
  }

  lemma OnlyOneGoes(r: Roles, before: Docker, now: Docker)
    requires Proper(r) && !Leftover(r, before) && Predecessor(r.chain, before).Some?
    requires forall other :: other in before && other !in r.chain ==> other in now && now[other] == before[other]
    requires OneInService(r, before)
    ensures forall gone :: Present(before, gone) && !Present(now, gone) ==>
              gone == before[Predecessor(r.chain, before).value].id
  {
  }

  /** The three replacements use names as the protocol needs them. */
  lemma RolesAreProper()
    ensures Proper(PANEL) && Proper(WORKER) && Proper(MERIDIAN)
  {
  }

  // ---------------------------------------------------------------- runs

  datatype Event = Attempt(env: Environment, alive: bool) | Ended(name: string)

  ghost predicate SameContainers(a: Docker, b: Docker) {
    a.Keys == b.Keys && forall name :: name in a ==> a[name].id == b[name].id
  }

  /** No run has two containers of the family running; an unfinished attempt freezes the rest until it is reviewed. */
  method Run(engine: Engine, events: seq<Event>)
    requires engine.Valid()
    modifies engine
    ensures engine.Valid()
    ensures AtMostOneRuns(engine.roles, engine.docker)
    ensures Leftover(engine.roles, old(engine.docker)) ==> SameContainers(old(engine.docker), engine.docker)
  {
    for i := 0 to |events|
      invariant engine.Valid()
      invariant Leftover(engine.roles, old(engine.docker)) ==>
                  Leftover(engine.roles, engine.docker) && SameContainers(old(engine.docker), engine.docker)
    {
      match events[i]
      case Attempt(env, alive) =>
        var _, _ := engine.Replace(env, alive);
      case Ended(name) =>
        if name in engine.docker {
          ghost var before := engine.docker;
          var _ := engine.Stop(name, Done);
          SameLeftover(engine.roles, before, engine.docker);
        }
    }
  }

  lemma SameLeftover(r: Roles, a: Docker, b: Docker)
    requires SameContainers(a, b)
    ensures Leftover(r, a) ==> Leftover(r, b)
  {
  }
}
