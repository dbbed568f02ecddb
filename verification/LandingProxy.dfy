/**
 Cutover, disable and resume of the landing proxy
 (internal/agent/landing_proxy.go:128-206 and 330-584, internal/landing/monitor.go:45-102).
 */
module LandingProxy {
  import opened Prelude
  import opened ProxyLedger

  class Runtime {
    const node: string
    // Saved.
    var checkpoint: Option<Checkpoint>
    // The panel and the container.
    var settings: string
    var restart: string
    var running: bool
    // The kernel.
    var gates: set<Gate>
    ghost var accepted: set<Gate>
    // This process.
    var monitor: Option<set<Gate>>

    ghost function Now(): World
      reads this
    {
      World(checkpoint, settings, restart, running, gates, accepted, monitor)
    }

    ghost predicate Valid()
      reads this
    {
      Ledger(Now()) && (checkpoint.Some? ==> checkpoint.value.desired.node == node)
    }

    /** A superseded route that is still in the settings will be fenced once the owner's gates are closed. */
    ghost predicate ShelteredNow()
      reads this
    {
      checkpoint.Some? && checkpoint.value.route.Some? ==> Sheltered(checkpoint.value, Now())
    }

    /** The route in force is fenced by its own gates. */
    ghost predicate FencedNow()
      reads this
    {
      checkpoint.Some? && checkpoint.value.route.Some? ==> Fenced(checkpoint.value, Now())
    }

    /** The settings and the restart policy to come back to: those of a host without a route, or those recorded. */
    ghost function Origin(): (string, string)
      reads this
    {
      if checkpoint.Some? && checkpoint.value.route.Some?
      then (checkpoint.value.route.value.before, checkpoint.value.policy)
      else (settings, restart)
    }

    ghost predicate SafeNow()
      reads this
    {
      ShelteredNow() && FencedNow()
    }

    constructor (agent: string, original: string, policy: string, up: bool)
      ensures Valid() && SafeNow() && checkpoint.None? && node == agent && settings == original && restart == policy
    {
      node, checkpoint, settings, restart, running, gates, accepted, monitor :=
          agent, None, original, policy, up, {}, {}, None;
    }

    // -------------------------------------------------------------- single effects

    method Save(c: Checkpoint, o: Outcome) returns (v: Verdict)
      modifies this`checkpoint
      ensures v == Ending(o)
      ensures checkpoint == if Took(o) then Some(c) else old(checkpoint)
    {
      if Took(o) {
        checkpoint := Some(c);
      }
      return Ending(o);
    }

    /** Waits for the monitor to end; a dying process takes it along. */
    method StopMonitor(o: Outcome) returns (v: Verdict)
      requires Valid()
      modifies this`monitor
      ensures Valid() && (ShelteredNow() <==> old(ShelteredNow())) && (FencedNow() <==> old(FencedNow()))
      ensures v == if old(monitor).None? then Succeeded else Ending(o)
      ensures monitor == if v.Succeeded? || v.Crashed? then None else old(monitor)
    {
      if monitor.None? {
        return Succeeded;
      }
      if o.Done? || o.Killed? {
        monitor := None;
      }
      return Ending(o);
    }

    /** Installing a gate also closes one that had been opened. */
    method Install(g: Gate, o: Outcome) returns (v: Verdict)
      requires Valid() && checkpoint.Some? && g in Accounted(checkpoint.value)
      modifies this`gates, this`accepted
      ensures Valid() && v == Ending(o)
      ensures gates == if Took(o) then old(gates) + {g} else old(gates)
      ensures accepted == if Took(o) then old(accepted) - {g} else old(accepted)
    {
      if Took(o) {
        gates, accepted := gates + {g}, accepted - {g};
      }
      return Ending(o);
    }

    /** Removes a gate that no route in force relies on. */
    method Remove(g: Gate, o: Outcome) returns (v: Verdict)
      requires Valid() && monitor.None? && checkpoint.Some? && checkpoint.value.route.Some?
      requires var c := checkpoint.value;
               || settings == c.route.value.before
               || (settings == c.route.value.after && Gates(Owner(c), c.bridge) <= gates
                   && g !in Gates(Owner(c), c.bridge))
      modifies this`gates
      ensures Valid() && SafeNow() && v == Ending(o)
      ensures gates == if Took(o) then old(gates) - {g} else old(gates)
    {
      if Took(o) {
        gates := gates - {g};
      }
      return Ending(o);
    }

    method InstallAll(list: seq<Gate>, env: Environment, base: nat) returns (v: Verdict)
      requires Valid() && checkpoint.Some?
      requires forall k :: 0 <= k < |list| ==> list[k] in Accounted(checkpoint.value)
      modifies this`gates, this`accepted
      ensures Valid() && !v.Refused? && old(gates) <= gates <= old(gates) + (set k | 0 <= k < |list| :: list[k])
      ensures v.Succeeded? ==> gates == old(gates) + (set k | 0 <= k < |list| :: list[k])
      ensures old(accepted) - (set k | 0 <= k < |list| :: list[k]) <= accepted <= old(accepted) <= accepted + gates
      ensures (forall k :: base <= k < base + |list| ==> env(k).Done?) ==> v.Succeeded?
    {
      hide Ledger, Accounted;
      for i := 0 to |list|
        invariant Valid()
        invariant gates == old(gates) + (set k | 0 <= k < i :: list[k])
        invariant accepted == old(accepted) - (set k | 0 <= k < i :: list[k])
      {
        v := Install(list[i], env(base + i));
        if !v.Succeeded? {
          return;
        }
      }
      return Succeeded;
    }

    /** Closes every gate of the plan that owns the recorded route; gates of the plan it supersedes are not touched. */
    method CloseOwner(env: Environment, base: nat) returns (v: Verdict)
      requires Valid() && checkpoint.Some? && checkpoint.value.route.Some?
      modifies this`gates, this`accepted
      ensures Valid() && !v.Refused? && old(gates) <= gates
      ensures v.Succeeded? ==> gates == old(gates) + Gates(Owner(checkpoint.value), checkpoint.value.bridge)
      ensures (ShelteredNow() <==> old(ShelteredNow())) && (old(FencedNow()) ==> FencedNow())
      ensures (forall k :: k >= base ==> env(k).Done?) ==> v.Succeeded?
    {
      var c := checkpoint.value;
      var list := GateList(Owner(c), c.bridge);
      assert (set k | 0 <= k < |list| :: list[k]) == Gates(Owner(c), c.bridge);
      if c.retiring.Some? {
        GatesApart(Owner(c), c.retiring.value, c.bridge);
      }
      ghost var before := Now();
      v := InstallAll(list, env, base);
      ClosingKeeps(before, Now(), c);
    }

    /** routes.Apply: reads, decides and writes. The settings it finds are always known. */
    method ApplyRoute(enable: bool, o: Outcome) returns (v: Verdict)
      requires Valid() && monitor.None? && checkpoint.Some? && checkpoint.value.route.Some?
      requires enable ==> restart == "no" && Closed(Owner(checkpoint.value), checkpoint.value.bridge, Now())
      requires enable || !checkpoint.value.phase.Active?
      modifies this`settings
      ensures Valid() && v == Ending(o) && (old(SafeNow()) ==> SafeNow())
      ensures v.Succeeded? ==>
                settings == if enable then checkpoint.value.route.value.after else checkpoint.value.route.value.before
    {
      RouteRoundTrip(checkpoint.value.route.value, settings, enable);
      var next := NextWrite(checkpoint.value.route.value, settings, enable);
      if next.Conflict? {
        assert false;
        return Errored;
      }
      if next.Write? && Took(o) {
        settings := next.settings;
      }
      return Ending(o);
    }

    // -------------------------------------------------------------- cutover

    /** A replaced predecessor's gates: closed once more, then removed. */
    method Retire(env: Environment, base: nat) returns (v: Verdict)
      requires Valid() && monitor.None? && checkpoint.Some? && checkpoint.value.route.Some?
      requires var c := checkpoint.value;
               || settings == c.route.value.before
               || (settings == c.route.value.after && Gates(Owner(c), c.bridge) <= gates)
      modifies this`gates, this`accepted
      ensures Valid() && SafeNow() && !v.Refused?
      ensures Gates(Owner(checkpoint.value), checkpoint.value.bridge) <= old(gates) ==>
                Gates(Owner(checkpoint.value), checkpoint.value.bridge) <= gates
      ensures v.Succeeded? ==> gates <= Gates(Owner(checkpoint.value), checkpoint.value.bridge)
      ensures Healthy(env) ==> v.Succeeded?
    {
      var c := checkpoint.value;
      if c.retiring.None? {
        return Succeeded;
      }
      var list := GateList(c.retiring.value, c.bridge);
      GatesApart(Owner(c), c.retiring.value, c.bridge);
      assert Accounted(c) == Gates(Owner(c), c.bridge) + Gates(c.retiring.value, c.bridge) && gates <= Accounted(c);
      hide Ledger, Accounted, Owner;
      for i := 0 to |list|
        invariant Valid() && gates <= old(gates) + Gates(c.retiring.value, c.bridge)
        invariant Gates(Owner(c), c.bridge) <= old(gates) ==> Gates(Owner(c), c.bridge) <= gates
        invariant forall k :: 0 <= k < i ==> list[k] !in gates
      {
        assert list[i] in Gates(c.retiring.value, c.bridge) && list[i] !in Gates(Owner(c), c.bridge);
        v := Install(list[i], env(base + 2 * i));
        if !v.Succeeded? {
          return;
        }
        v := Remove(list[i], env(base + 2 * i + 1));
        if !v.Succeeded? {
          return;
        }
      }
      assert Gates(c.retiring.value, c.bridge) !! gates;
      return Succeeded;
    }

    /** A container that no boot restarts is started on the settings as they are. */
    method Launch(env: Environment) returns (v: Verdict)
      requires Valid() && monitor.None? && checkpoint.Some? && checkpoint.value.route.Some?
      requires Gates(Owner(checkpoint.value), checkpoint.value.bridge) <= gates
      modifies this`restart, this`running
      ensures Valid() && !v.Refused?
      ensures v.Succeeded? ==> running && restart == "no"
      ensures env(5).Done? && env(6).Done? ==> running && restart == "no"
      ensures (ShelteredNow() <==> old(ShelteredNow())) && (old(SafeNow()) ==> SafeNow())
      ensures running ==> (FencedNow() <==> old(ShelteredNow()))
      ensures v.Succeeded? <==> env(5).Done? && env(6).Done? && env(7).Done?
    {
      if Took(env(5)) {
        restart := "no";
      }
      if env(5) != Done {
        FencedExactly(Now(), checkpoint.value);
        return Ending(env(5));
      }
      if Took(env(6)) {
        running := true;
      }
      FencedExactly(Now(), checkpoint.value);
      if env(6) != Done {
        return Ending(env(6));
      }
      return Ending(env(7));
    }

    /** Gates first, then the container, then the route. */
    method Cut(c: Checkpoint, env: Environment, base: nat) returns (v: Verdict)
      requires Valid() && monitor.None? && checkpoint == Some(c) && c.route.Some? && !c.phase.Restoring? && base > 9
      modifies this`gates, this`accepted, this`restart, this`running, this`settings
      ensures Origin() == old(Origin())
      ensures Valid() && !v.Refused? && (old(SafeNow()) ==> SafeNow())
      ensures v.Succeeded? ==>
                && settings == c.route.value.after && restart == "no" && running && Gates(c.desired, c.bridge) <= gates
      ensures StoppedAt(env, 7) ==>
                settings == old(settings) && running && !v.Succeeded? && (FencedNow() <==> old(ShelteredNow()))
      ensures StoppedAt(env, 5) ==> settings == old(settings) && !v.Succeeded?
      ensures Healthy(env) ==> v.Succeeded?
    {
      hide Ledger, Sheltered, Fenced, Gates, Owner;
      OwnerIsDesired(Now(), c);
      v := CloseOwner(env, base);
      if !v.Succeeded? {
        return;
      }
      v := Launch(env);
      if !v.Succeeded? {
        return;
      }
      v := ApplyRoute(true, env(8));
      if !v.Succeeded? {
        return;
      }
      return Ending(env(9));
    }

    /** Retires the predecessor, records the cutover and only then starts the monitor. */
    method Settle(c: Checkpoint, env: Environment, base: nat) returns (v: Verdict)
      requires Valid() && monitor.None? && checkpoint == Some(c) && c.route.Some? && !c.phase.Restoring?
      requires settings == c.route.value.after && restart == "no" && Gates(c.desired, c.bridge) <= gates
      modifies this`gates, this`accepted, this`checkpoint, this`monitor
      ensures Onward(old(checkpoint), checkpoint) && Origin() == old(Origin())
      ensures Valid() && SafeNow() && !v.Refused?
      ensures v.Succeeded? ==>
                && checkpoint == Some(Completed(c))
                && gates == Gates(c.desired, c.bridge)
                && monitor == Some(ActiveGates(c.desired, c.bridge))
      ensures Healthy(env) ==> v.Succeeded?
    {
      assert Owner(c) == c.desired;
      v := Retire(env, base);
      if !v.Succeeded? {
        return;
      }
      v := Save(Completed(c), env(10));
      if !v.Succeeded? {
        return;
      }
      monitor := Some(ActiveGates(c.desired, c.bridge));
    }

    /** The checkpoint of a plan that is not recorded yet. */
    method Record(desired: Intent, bridge: string, after: string, env: Environment) returns (v: Verdict, c: Checkpoint)
      requires Valid() && monitor.None? && desired.active && Admits(checkpoint, node, desired)
      requires checkpoint.Some? && checkpoint.value.route.Some? ==>
                 Gates(checkpoint.value.desired, checkpoint.value.bridge) <= gates
      modifies this`checkpoint
      ensures Onward(old(checkpoint), checkpoint) && Origin() == old(Origin())
      ensures Valid() && !v.Refused? && (ShelteredNow() <==> old(ShelteredNow())) && (old(FencedNow()) ==> FencedNow())
      ensures v.Succeeded? ==>
                checkpoint == Some(c) && c == Recorded(old(checkpoint), desired, bridge, restart, settings, after)
      ensures v.Succeeded? ==> c.route.Some? && !c.phase.Restoring? && c.desired == desired && c.bridge == bridge
      ensures env(3).Done? && env(4).Done? && Fits(old(checkpoint), settings, bridge, after) ==> v.Succeeded?
    {
      c := Opening(desired, bridge, restart, settings, after);
      if checkpoint.Some? && checkpoint.value.route.Some? {
        var current := checkpoint.value;
        if bridge != current.bridge {
          return Errored, current;
        }
        if desired.revision == current.desired.revision {
          return Succeeded, current;
        }
        if env(3) != Done {
          return Ending(env(3)), current;
        }
        if NextWrite(current.route.value, settings, true) != Keep || after == current.route.value.before {
          return Errored, current;
        }
        ReplacementKeeps(Now(), current, desired, after);
        c := Replacement(current, desired, after);
      } else {
        if env(3) != Done {
          return Ending(env(3)), c;
        }
        if after == settings {
          return Errored, c;
        }
      }
      v := Save(c, env(4));
    }

    /**
     applyLandingProxy. Whatever goes wrong, a sheltered proxy stays sheltered and its route fenced. One that is
     not is exposed by every attempt that gets as far as starting the container.
     */
    method ApplyProxy(desired: Intent, bridge: string, after: string, env: Environment) returns (v: Verdict)
      requires Valid()
      modifies this
      ensures Onward(old(checkpoint), checkpoint) && Origin() == old(Origin())
      ensures Valid() && (old(SafeNow()) ==> SafeNow())
      ensures v.Refused? <==> !Admits(old(checkpoint), node, desired)
      ensures v.Refused? ==> Now() == old(Now())
      ensures !v.Refused? && !env(0).Done? ==> monitor == if env(0).Killed? then None else old(monitor)
      ensures v.Succeeded? ==> SafeNow()
      ensures v.Succeeded? && desired.active ==>
                Serving(desired, bridge)
                && checkpoint == Some(Completed(Recorded(old(checkpoint), desired, bridge, old(restart), old(settings),
                after)))
      ensures v.Succeeded? && !desired.active ==>
                && checkpoint == Some(Checkpoint(desired, Some(desired), None, "", "", "", None, Active))
                && gates == {} && monitor.None?
      ensures v.Succeeded? && !desired.active ==> (settings, restart) == old(Origin())
      ensures (v.Succeeded? && desired.active && (old(checkpoint).None? || old(checkpoint).value.route.None?)) ==>
                checkpoint.value.policy == old(restart) && checkpoint.value.route.value.before == old(settings)
      ensures v.Succeeded? && desired.active && !Replays(old(checkpoint), desired) ==> settings == after
      ensures v.Succeeded? && !desired.active && old(checkpoint).Some? && old(checkpoint).value.route.Some? ==>
                settings == old(checkpoint).value.route.value.before && restart == old(checkpoint).value.policy
      ensures !v.Refused? && StoppedAt(env, 7) && Suits(old(checkpoint), desired, old(settings), bridge, after) ==>
                (FencedNow() <==> old(ShelteredNow()))
      ensures !v.Refused? && StoppedAt(env, 7) && Fits(old(checkpoint), old(settings), bridge, after)
                && desired.active ==>
                settings == old(settings) && running
                && checkpoint == Some(Recorded(old(checkpoint), desired, bridge, old(restart), old(settings), after))
      ensures !v.Refused? && StoppedAt(env, 5) && Fits(old(checkpoint), old(settings), bridge, after)
                && desired.active ==>
                settings == old(settings)
                && checkpoint == Some(Recorded(old(checkpoint), desired, bridge, old(restart), old(settings), after))
      ensures Healthy(env) && Suits(old(checkpoint), desired, old(settings), bridge, after) && !v.Refused? ==>
                v.Succeeded?
    {
      hide Ledger, Admits, Sheltered, Fenced;
      if !Admits(checkpoint, node, desired) {
        return Refused;
      }
      if env(0) != Done {
        if env(0).Killed? {
          Die();
        }
        return Ending(env(0));
      }
      v := StopMonitor(env(1));
      if !v.Succeeded? {
        return;
      }
      if !desired.active {
        v := Disable(desired, bridge, env);
      } else {
        v := Enable(desired, bridge, after, env);
      }
    }

    method Enable(desired: Intent, bridge: string, after: string, env: Environment) returns (v: Verdict)
      requires Valid() && monitor.None? && desired.active && Admits(checkpoint, node, desired)
      modifies this
      ensures Onward(old(checkpoint), checkpoint) && Origin() == old(Origin())
      ensures Valid() && !v.Refused? && (old(SafeNow()) ==> SafeNow())
      ensures v.Succeeded? ==>
                && Serving(desired, bridge) && SafeNow()
                && checkpoint == Some(Completed(Recorded(old(checkpoint), desired, bridge, old(restart), old(settings),
                    after)))
      ensures StoppedAt(env, 7) && Fits(old(checkpoint), old(settings), bridge, after) ==>
                && settings == old(settings) && running && (FencedNow() <==> old(ShelteredNow()))
                && checkpoint == Some(Recorded(old(checkpoint), desired, bridge, old(restart), old(settings), after))
      ensures StoppedAt(env, 5) && Fits(old(checkpoint), old(settings), bridge, after) ==>
                settings == old(settings)
                && checkpoint == Some(Recorded(old(checkpoint), desired, bridge, old(restart), old(settings), after))
      ensures Healthy(env) && Fits(old(checkpoint), old(settings), bridge, after) ==> v.Succeeded?
    {
      hide Ledger, Admits, Sheltered, Fenced, Recorded, Owner, Gates, GateList;
      var base := 20;
      if checkpoint.Some? && checkpoint.value.route.Some? {
        AdmittedOwner(Now(), node, desired);
        v := CloseOwner(env, base);
          if !v.Succeeded? {
          return;
        }
        base := base + |GateList(checkpoint.value.desired, checkpoint.value.bridge)|;
      }
      if env(2) != Done {
        return Ending(env(2));
      }
      var c;
      v, c := Record(desired, bridge, after, env);
      if !v.Succeeded? {
        return;
      }
      v := Cut(c, env, base);
      if !v.Succeeded? {
        return;
      }
      base := base + |GateList(desired, bridge)|;
      v := Settle(c, env, base);
    }

    /** A route in service behind closed gates, watched by a monitor. */
    ghost predicate Serving(desired: Intent, bridge: string)
      reads this
    {
      && checkpoint.Some? && checkpoint.value.phase.Active? && checkpoint.value.desired == desired
      && checkpoint.value.bridge == bridge
      && checkpoint.value.route.Some? && settings == checkpoint.value.route.value.after
      && restart == "no" && running
      && gates == Gates(desired, bridge) && monitor == Some(ActiveGates(desired, bridge))
    }

    // -------------------------------------------------------------- disable

    method Disable(desired: Intent, bridge: string, env: Environment) returns (v: Verdict)
      requires Valid() && monitor.None? && !desired.active && Admits(checkpoint, node, desired)
      modifies this
      ensures Onward(old(checkpoint), checkpoint) && Origin() == old(Origin())
      ensures Valid() && !v.Refused? && (old(SafeNow()) ==> SafeNow())
      ensures v.Succeeded? ==> checkpoint == Some(Inactive(desired)) && gates == {} && monitor.None? && SafeNow()
      ensures v.Succeeded? && old(checkpoint).Some? && old(checkpoint).value.route.Some? ==>
                settings == old(checkpoint).value.route.value.before && restart == old(checkpoint).value.policy
      ensures StoppedAt(env, 7) && SameBridge(old(checkpoint), bridge) ==> (FencedNow() <==> old(ShelteredNow()))
      ensures Healthy(env) && SameBridge(old(checkpoint), bridge) ==> v.Succeeded?
    {
      if checkpoint.None? || checkpoint.value.route.None? {
        v := Save(Inactive(desired), env(10));
        return;
      }
      hide Ledger, Admits, Sheltered, Fenced, Leaving;
      var c;
      v, c := Leave(desired, bridge, env);
      if !v.Succeeded? {
        return;
      }
      v := GiveBack(c, env);
      if !v.Succeeded? {
        return;
      }
      var list := GateList(Owner(c), c.bridge);
      v := OpenUp(c, list, env, 20 + |list|);
    }

    /** Closes the owner's gates and records that the route is being given back. */
    method Leave(desired: Intent, bridge: string, env: Environment) returns (v: Verdict, c: Checkpoint)
      requires Valid() && monitor.None? && !desired.active && Admits(checkpoint, node, desired)
      requires checkpoint.Some? && checkpoint.value.route.Some?
      modifies this`gates, this`accepted, this`checkpoint
      ensures Onward(old(checkpoint), checkpoint) && Origin() == old(Origin())
      ensures Valid() && !v.Refused? && (ShelteredNow() <==> old(ShelteredNow())) && (old(FencedNow()) ==> FencedNow())
      ensures v.Succeeded? ==>
                && checkpoint == Some(c) && c == Leaving(old(checkpoint).value, desired)
                && Gates(Owner(c), c.bridge) <= gates
                && c.phase.Restoring? && c.route == old(checkpoint).value.route && c.route.Some?
                && c.policy == old(checkpoint).value.policy && c.desired == desired
      ensures (forall k :: k >= 20 || k == 2 || k == 4 ==> env(k).Done?) && bridge == old(checkpoint).value.bridge ==>
                v.Succeeded?
    {
      c := checkpoint.value;
      v := CloseOwner(env, 20);
      if !v.Succeeded? {
        return;
      }
      if env(2) != Done {
        return Ending(env(2)), c;
      }
      if bridge != c.bridge {
        return Errored, c;
      }
      LeavingKeeps(Now(), c, desired);
      c := Leaving(c, desired);
      v := Save(c, env(4));
    }

    /** Restores the original settings behind closed gates, then the original restart policy. */
    method GiveBack(c: Checkpoint, env: Environment) returns (v: Verdict)
      requires Valid() && monitor.None? && checkpoint == Some(c) && c.phase.Restoring? && c.route.Some?
                 && Gates(Owner(c), c.bridge) <= gates
      modifies this`settings, this`restart, this`running
      ensures Origin() == old(Origin())
      ensures Valid() && !v.Refused? && (old(SafeNow()) ==> SafeNow())
      ensures v.Succeeded? ==> settings == c.route.value.before && restart == c.policy && running
      ensures StoppedAt(env, 7) ==>
                settings == old(settings) && running && !v.Succeeded? && (FencedNow() <==> old(ShelteredNow()))
      ensures Healthy(env) ==> v.Succeeded?
    {
      hide Owner, Gates, Closed, Accounted;
      v := Launch(env);
      if !v.Succeeded? {
        return;
      }
      v := ApplyRoute(false, env(8));
      if !v.Succeeded? {
        return;
      }
      if env(9) != Done {
        return Ending(env(9));
      }
      if Took(env(11)) {
        restart := c.policy;
      }
      return Ending(env(11));
    }

    /** With direct routing back, every gate goes, and the checkpoint last. */
    method OpenUp(c: Checkpoint, list: seq<Gate>, env: Environment, base: nat) returns (v: Verdict)
      requires Valid() && monitor.None? && checkpoint == Some(c) && c.phase.Restoring? && c.route.Some?
                 && settings == c.route.value.before
      requires list == GateList(Owner(c), c.bridge)
      requires restart == c.policy
      modifies this`gates, this`accepted, this`checkpoint
      ensures Onward(old(checkpoint), checkpoint) && Origin() == old(Origin())
      ensures Valid() && SafeNow() && !v.Refused?
      ensures v.Succeeded? ==> checkpoint == Some(Inactive(c.desired)) && gates == {}
      ensures Healthy(env) ==> v.Succeeded?
    {
      v := Retire(env, base + |list|);
      if !v.Succeeded? {
        return;
      }
      for i := 0 to |list|
        invariant Valid() && SafeNow() && checkpoint == Some(c) && gates <= Gates(Owner(c), c.bridge)
                    && forall k :: 0 <= k < i ==> list[k] !in gates
      {
        v := Remove(list[i], env(base + i));
        if !v.Succeeded? {
          return;
        }
      }
      assert gates !! Gates(Owner(c), c.bridge);
      v := Save(Inactive(c.desired), env(10));
    }

    // -------------------------------------------------------------- resume

    /** After a start of the Agent: closes the gates, looks, and watches; it writes no route. */
    method Resume(bridge: string, env: Environment) returns (v: Verdict)
      requires Valid()
      modifies this`gates, this`accepted, this`monitor
      ensures Valid() && (ShelteredNow() <==> old(ShelteredNow())) && (old(FencedNow()) ==> FencedNow())
      ensures v.Succeeded? && old(monitor).None? && monitor.Some? ==>
                && checkpoint.Some? && Serving(checkpoint.value.desired, bridge)
      ensures checkpoint.Some? && checkpoint.value.desired.active && !checkpoint.value.phase.Active?
              && old(monitor).None? ==>
                v.Refused? && monitor.None?
      ensures Healthy(env) && old(monitor).None? && running && checkpoint.Some? && checkpoint.value.phase.Active?
                && checkpoint.value.desired.active && bridge == checkpoint.value.bridge
              ==> v.Succeeded? && monitor.Some?
    {
      if monitor.Some? || checkpoint.None? || !checkpoint.value.desired.active {
        return Succeeded;
      }
      var c := checkpoint.value;
      if c.route.None? || !c.phase.Active? || c.applied.None? || c.retiring.Some?
          || c.applied.value.revision != c.desired.revision
         || c.route.value.revision != c.desired.revision || c.application != c.desired.application {
        return Refused;
      }
      assert Owner(c) == c.desired;
      v := CloseOwner(env, 20);
      if !v.Succeeded? {
        return;
      }
      if env(2) != Done {
        return Ending(env(2));
      }
      if bridge != c.bridge || restart != "no" || !running {
        return Errored;
      }
      if env(3) != Done {
        return Ending(env(3));
      }
      if NextWrite(c.route.value, settings, true) != Keep {
        return Errored;
      }
      monitor := Some(ActiveGates(c.desired, c.bridge));
    }

    // -------------------------------------------------------------- what happens in between

    /** One monitor closes its gate, or opens it on a valid proof. */
    method Watch(g: Gate, accept: bool)
      requires Valid() && monitor.Some? && g in monitor.value
      modifies this`gates, this`accepted
      ensures Valid() && SafeNow()
      ensures gates == if accept then old(gates) - {g} else old(gates) + {g}
    {
      if accept {
        gates, accepted := gates - {g}, accepted + {g};
      } else {
        gates, accepted := gates + {g}, accepted - {g};
      }
    }

    /** The Agent ends. */
    method Die()
      requires Valid()
      modifies this`monitor
      ensures Valid() && monitor.None? && (ShelteredNow() <==> old(ShelteredNow()))
                && (FencedNow() <==> old(FencedNow()))
    {
      monitor := None;
    }

    /** The host restarts: no gate survives, and the container returns only by its policy. */
    method Reboot()
      requires Valid()
      modifies this`gates, this`accepted, this`monitor, this`running
      ensures Valid() && FencedNow() && Now() == Rebooted(old(Now()))
      ensures ShelteredNow() <==> !LosesFence(checkpoint, settings)
      ensures running && checkpoint.Some? && checkpoint.value.route.Some? ==>
                settings == checkpoint.value.route.value.before
    {
      gates, accepted, monitor := {}, {}, None;
      running := restart != "no";
    }
  }

  /** One call goes wrong and all others go through. */
  ghost predicate StoppedAt(env: Environment, k: nat) {
    !env(k).Done? && forall i :: i != k ==> env(i).Done?
  }

  /** The gates a monitor may open. */
  function ActiveGates(i: Intent, bridge: string): set<Gate> {
    set k | 0 <= k < |GateList(i, bridge)| && i.uses[k].active :: GateList(i, bridge)[k]
  }

  /** What an apply needs of its surroundings: the same bridge, and settings that differ from the original ones. */
  predicate Fits(current: Option<Checkpoint>, settings: string, bridge: string, after: string) {
    if current.Some? && current.value.route.Some?
    then bridge == current.value.bridge && after != current.value.route.value.before
    else after != settings
  }

  /** The plan is the one that is recorded already. */
  predicate Replays(current: Option<Checkpoint>, desired: Intent) {
    current.Some? && current.value.route.Some? && current.value.desired.revision == desired.revision
  }

  predicate SameBridge(current: Option<Checkpoint>, bridge: string) {
    current.Some? && current.value.route.Some? ==> bridge == current.value.bridge
  }

  predicate Suits(current: Option<Checkpoint>, desired: Intent, settings: string, bridge: string, after: string) {
    if desired.active then Fits(current, settings, bridge, after) else SameBridge(current, bridge)
  }

  /** The journal only moves forward, and a revision keeps its plan. */
  predicate Onward(a: Option<Checkpoint>, b: Option<Checkpoint>) {
    a.Some? ==>
      && b.Some? && a.value.desired.revision <= b.value.desired.revision
      && (a.value.desired.revision == b.value.desired.revision ==> a.value.desired == b.value.desired)
  }

  // ---------------------------------------------------------------- runs

  datatype Event =
    | Apply(desired: Intent, bridge: string, after: string, env: Environment)
    | Startup(bridge: string, env: Environment)
    | Monitored(gate: Gate, accept: bool)
    | Death
    | PowerCycle

  /** The host restarted at event `i` where that loses the fence, and no apply has succeeded since. */
  ghost predicate Exposes(events: seq<Event>, verdicts: seq<Verdict>, worlds: seq<World>, i: int)
    requires |verdicts| <= |events| && |verdicts| <= |worlds|
  {
    && 0 <= i < |verdicts| && events[i].PowerCycle? && LosesFence(worlds[i].checkpoint, worlds[i].settings)
    && forall j :: i < j < |verdicts| && events[j].Apply? ==> !verdicts[j].Succeeded?
  }

  /**
   Every gate is accounted for in every run. Every route in force is fenced by closed or accepted gates, unless
   the host restarted in the middle of a replacement that leaves out a peer and no apply has succeeded since.
   `worlds` are the states before each event and at the end.
   */
  method Run(proxy: Runtime, events: seq<Event>)
      returns (exposed: bool, verdicts: seq<Verdict>, ghost worlds: seq<World>)
    requires proxy.Valid() && proxy.SafeNow()
    modifies proxy
    ensures proxy.Valid() && Onward(old(proxy.checkpoint), proxy.checkpoint) && proxy.Origin() == old(proxy.Origin())
    ensures |verdicts| == |events| && |worlds| == |events| + 1 && worlds[0] == old(proxy.Now())
              && worlds[|events|] == proxy.Now()
    ensures forall i :: 0 <= i < |events| && events[i].PowerCycle? ==> worlds[i + 1] == Rebooted(worlds[i])
    ensures proxy.gates <= if proxy.checkpoint.Some? then Accounted(proxy.checkpoint.value) else {}
    ensures proxy.monitor.Some? ==>
              && proxy.checkpoint.Some? && proxy.checkpoint.value.phase.Active?
              && proxy.checkpoint.value.applied == Some(proxy.checkpoint.value.desired)
              && proxy.checkpoint.value.route.Some? && proxy.settings == proxy.checkpoint.value.route.value.after
    ensures exposed <==> exists i :: Exposes(events, verdicts, worlds, i)
    ensures !exposed ==> proxy.SafeNow()
    ensures !proxy.running || !Midway(proxy.checkpoint, proxy.settings) ==> proxy.FencedNow()
  {
    hide Ledger, Sheltered, Fenced, LosesFence, Exposes, Accounted, Rebooted;
    exposed, verdicts, worlds := false, [], [proxy.Now()];
    NotExposed(events, worlds);
    for i := 0 to |events|
      invariant proxy.Valid() && Onward(old(proxy.checkpoint), proxy.checkpoint)
      invariant proxy.Origin() == old(proxy.Origin())
      invariant |verdicts| == i && |worlds| == i + 1 && worlds[0] == old(proxy.Now()) && worlds[i] == proxy.Now()
      invariant forall k :: 0 <= k < i && events[k].PowerCycle? ==> worlds[k + 1] == Rebooted(worlds[k])
      invariant exposed <==> exists k :: Exposes(events, verdicts, worlds, k)
      invariant !exposed ==> proxy.SafeNow()
    {
      var lost := events[i].PowerCycle? && LosesFence(proxy.checkpoint, proxy.settings);
      var v := Step(proxy, events[i]);
      ExposedNext(events, verdicts, worlds, i, v, proxy.Now());
      verdicts, worlds := verdicts + [v], worlds + [proxy.Now()];
      exposed := lost || (exposed && !(events[i].Apply? && v.Succeeded?));
    }
    LedgerSays(proxy.Now());
    if proxy.checkpoint.Some? && proxy.checkpoint.value.route.Some? &&
       (!proxy.running || !Midway(proxy.checkpoint, proxy.settings)) {
      FencedOtherwise(proxy.Now(), proxy.checkpoint.value);
    }
  }

  lemma NotExposed(events: seq<Event>, worlds: seq<World>)
    ensures !exists i :: Exposes(events, [], worlds, i)
  {
  }

  lemma LedgerSays(w: World)
    requires Ledger(w)
    ensures w.gates <= if w.checkpoint.Some? then Accounted(w.checkpoint.value) else {}
    ensures w.monitor.Some? ==>
              && w.checkpoint.Some? && w.checkpoint.value.phase.Active?
              && w.checkpoint.value.applied == Some(w.checkpoint.value.desired)
              && w.checkpoint.value.route.Some? && w.settings == w.checkpoint.value.route.value.after
  {
  }

  lemma ExposedNext(events: seq<Event>, verdicts: seq<Verdict>, worlds: seq<World>, n: int, v: Verdict, w: World)
    requires 0 <= n < |events| && |verdicts| == n && |worlds| == n + 1
    ensures (exists i :: Exposes(events, verdicts + [v], worlds + [w], i)) <==>
            || (events[n].PowerCycle? && LosesFence(worlds[n].checkpoint, worlds[n].settings))
            || ((exists i :: Exposes(events, verdicts, worlds, i)) && !(events[n].Apply? && v.Succeeded?))
  {
    hide LosesFence;
    var more, later := verdicts + [v], worlds + [w];
    if events[n].PowerCycle? && LosesFence(worlds[n].checkpoint, worlds[n].settings) {
      assert Exposes(events, more, later, n);
    }
    if (exists i :: Exposes(events, verdicts, worlds, i)) && !(events[n].Apply? && v.Succeeded?) {
      var i :| Exposes(events, verdicts, worlds, i);
      assert Exposes(events, more, later, i);
    }
    if i :| Exposes(events, more, later, i) {
      if i < n {
        assert Exposes(events, verdicts, worlds, i);
      }
    }
  }

  method Step(proxy: Runtime, event: Event) returns (v: Verdict)
    requires proxy.Valid()
    modifies proxy
    ensures proxy.Valid() && Onward(old(proxy.checkpoint), proxy.checkpoint) && proxy.Origin() == old(proxy.Origin())
    ensures event.PowerCycle? ==> proxy.Now() == Rebooted(old(proxy.Now()))
    ensures old(proxy.SafeNow()) && !(event.PowerCycle? && LosesFence(old(proxy.checkpoint), old(proxy.settings))) ==>
              proxy.SafeNow()
    ensures event.Apply? && v.Succeeded? ==> proxy.SafeNow()
  {
    hide Ledger, Sheltered, Fenced, LosesFence;
    v := Succeeded;
    match event {
      case Apply(desired, bridge, after, env) =>
        v := proxy.ApplyProxy(desired, bridge, after, env);
      case Startup(bridge, env) =>
        v := proxy.Resume(bridge, env);
      case Monitored(gate, accept) =>
        if proxy.monitor.Some? && gate in proxy.monitor.value {
          proxy.Watch(gate, accept);
        }
      case Death =>
        proxy.Die();
      case PowerCycle =>
        proxy.Reboot();
    }
  }

  /**
   Whatever is enabled, replaced, interrupted and restarted in between, a disable that succeeds leaves settings and
   restart policy as they were on the host without a route.
   */
  method RoundTrip(proxy: Runtime, events: seq<Event>, desired: Intent, bridge: string, env: Environment)
      returns (v: Verdict)
    requires proxy.Valid() && proxy.SafeNow() && !desired.active
    requires proxy.checkpoint.None? || proxy.checkpoint.value.route.None?
    modifies proxy
    ensures proxy.Valid()
    ensures v.Succeeded? ==>
              && proxy.settings == old(proxy.settings) && proxy.restart == old(proxy.restart)
              && proxy.gates == {} && proxy.monitor.None?
  {
    var _, _, _ := Run(proxy, events);
    v := proxy.ApplyProxy(desired, bridge, "", env);
  }

  predicate Uses(i: Intent, peer: string) {
    exists k :: 0 <= k < |i.uses| && i.uses[k].peer == peer
  }

  /**
   The route in force is not always fenced. The host restarts after a replacement was recorded and before the
   panel was switched; when the plan is delivered again, only its own gates are closed before the container is
   started on the old route. A peer that the new plan leaves out can then be reached. `ApplyProxy` says exactly
   when: on entry the settings are the superseded ones and some gate of the plan they belong to is neither closed
   nor accepted nor for a peer of the new plan.
   */
  method ExposedByReplay(node: string, original: string, policy: string, first: Intent, second: Intent, bridge: string,
                         one: string, two: string, peer: string) returns (proxy: Runtime)
    requires node != "" && first.node == second.node == node && first.active && second.active
    requires first.application == second.application && 0 < first.revision < second.revision
    requires Uses(first, peer) && !Uses(second, peer)
    requires one != original && two != original && two != one
    ensures fresh(proxy) && proxy.Valid() && !proxy.FencedNow()
    ensures proxy.running && proxy.settings == one
    ensures exists g :: g in Gates(first, bridge) && g !in proxy.accepted && !Blocked(proxy.gates, g)
  {
    hide Ledger, Sheltered, Fenced, Gates, LosesFence, Blocked;
    proxy := new Runtime(node, original, policy, true);
    var v := proxy.ApplyProxy(first, bridge, one, k => Done);
    var killed := (k: nat) => if k == 5 then Killed else Done;
    assert StoppedAt(killed, 5);
    v := proxy.ApplyProxy(second, bridge, two, killed);
    proxy.Reboot();
    LeftOut(first, second, bridge, peer, proxy.checkpoint, proxy.settings);
    var stopped := (k: nat) => if k == 7 then Failed else Done;
    assert StoppedAt(stopped, 7);
    v := proxy.ApplyProxy(second, bridge, two, stopped);
    OpenGate(proxy.Now(), proxy.checkpoint.value, first);
  }

  /** What it means that the superseded route is in force and not fenced. */
  lemma OpenGate(w: World, c: Checkpoint, first: Intent)
    requires c.route.Some? && c.retiring == Some(first) && c.route.value.supersedes == Some(w.settings) && !Fenced(c, w)
    ensures exists g :: g in Gates(first, c.bridge) && g !in w.accepted && !Blocked(w.gates, g)
  {
  }

  /** A peer that the successor does not use loses its gate. */
  lemma LeftOut(first: Intent, second: Intent, bridge: string, peer: string, checkpoint: Option<Checkpoint>,
      settings: string)
    requires first.active && second.active && Uses(first, peer) && !Uses(second, peer)
    requires Midway(checkpoint, settings) && checkpoint.value.bridge == bridge
    requires checkpoint.value.retiring == Some(first) && Owner(checkpoint.value) == second
    ensures LosesFence(checkpoint, settings)
  {
    var k :| 0 <= k < |first.uses| && first.uses[k].peer == peer;
    assert GateList(first, bridge)[k] in Gates(first, bridge);
    assert !Blocked(Gates(second, bridge), GateList(first, bridge)[k]);
  }
}
