/**
 The landing proxy: gates in the kernel, routing settings in the panel, and the
 checkpoint both are derived from (internal/agent/landing_state.go,
 internal/agent/landing_proxy.go, internal/landing/routes.go:25-41 and 170-206).

 Routing settings are compared by their canonical digest, so a settings value stands for
 its digest.
 */
module ProxyLedger {
  import opened Prelude

  datatype Use = Use(peer: string, active: bool)

  /** A desired state; one without a proxy and without clients is not active and has no peers. */
  datatype Intent = Intent(node: string, revision: nat, active: bool, application: string, uses: seq<Use>)

  datatype Gate = Gate(peer: string, bridge: string, revision: nat)

  // ---------------------------------------------------------------- gates

  function GateList(i: Intent, bridge: string): seq<Gate> {
    if !i.active then [] else seq(|i.uses|, k requires 0 <= k < |i.uses| => Gate(i.uses[k].peer, bridge, i.revision))
  }

  function Gates(i: Intent, bridge: string): set<Gate> {
    set k | 0 <= k < |GateList(i, bridge)| :: GateList(i, bridge)[k]
  }

  /** Revisions keep the gates of a successor apart from those of its predecessor. */
  lemma GatesApart(i: Intent, j: Intent, bridge: string)
    requires i.revision != j.revision
    ensures Gates(i, bridge) !! Gates(j, bridge)
  {
  }

  // ---------------------------------------------------------------- routes

  datatype Change = Change(revision: nat, before: string, after: string, supersedes: Option<string>)

  datatype Next = Conflict | Keep | Write(settings: string)

  /** RouteChange.NextWrite */
  function NextWrite(c: Change, current: string, enable: bool): Next {
    if c.revision == 0 || c.before == c.after then Conflict
    else
      var want, other := if enable then c.after else c.before, if enable then c.before else c.after;
      if current == want then Keep
      else if current == other || c.supersedes == Some(current) then Write(want)
      else Conflict
  }

  /** A valid change can be made, repeated and taken back, and refuses exactly the settings it does not know. */
  lemma RouteRoundTrip(c: Change, current: string, enable: bool)
    requires NextWrite(c, c.before, true) != Conflict
    ensures 0 < c.revision && c.before != c.after
    ensures NextWrite(c, c.before, true) == Write(c.after) && NextWrite(c, c.after, true) == Keep
    ensures NextWrite(c, c.after, false) == Write(c.before) && NextWrite(c, c.before, false) == Keep
    ensures NextWrite(c, current, enable) == Conflict <==>
              current != c.before && current != c.after && c.supersedes != Some(current)
    ensures var want := if enable then c.after else c.before;
            NextWrite(c, current, enable) != Conflict ==>
                NextWrite(c, current, enable) == if current == want then Keep else Write(want)
  {
  }

  // ---------------------------------------------------------------- the checkpoint

  datatype Phase = Prepared | Active | Restoring

  datatype Checkpoint = Checkpoint(
    desired: Intent,
    applied: Option<Intent>,
    retiring: Option<Intent>,
    application: string,
    bridge: string,
    policy: string,              // the restart policy to give back
    route: Option<Change>,
    phase: Phase
  )

  /** Who owns the recorded route. */
  function Owner(c: Checkpoint): Intent {
    if c.route.Some? && c.applied.Some?
        && c.applied.value.revision == c.route.value.revision then c.applied.value else c.desired
  }

  /** All gates a checkpoint accounts for. */
  function Accounted(c: Checkpoint): set<Gate> {
    if c.route.None? then {}
    else Gates(Owner(c), c.bridge) + (if c.retiring.Some? then Gates(c.retiring.value, c.bridge) else {})
  }

  /** landingRuntimeState.validate: what may be saved and read. */
  predicate Acceptable(c: Checkpoint) {
    && 0 < c.desired.revision
    && (c.retiring.Some? ==>
          && c.retiring.value.active && c.retiring.value.application == c.application
          && c.retiring.value.node == c.desired.node
          && c.route.Some? && c.retiring.value.revision < c.route.value.revision && c.route.value.supersedes.Some?)
    && (c.applied.Some? ==> c.applied.value.node == c.desired.node && c.applied.value.revision <= c.desired.revision)
    && (c.route.Some? ==>
          && NextWrite(c.route.value, c.route.value.before, true) != Conflict
          && Owner(c).revision == c.route.value.revision && Owner(c).active && Owner(c).application == c.application)
  }

  /** What each phase means. */
  predicate InPhase(c: Checkpoint) {
    match c.phase
    case Active =>
      c.applied == Some(c.desired) && c.retiring.None? && (c.route.Some? <==> c.desired.active)
    case Prepared =>
      c.route.Some? && c.desired.active && c.route.value.revision == c.desired.revision &&
      (c.applied.Some? ==> c.applied.value.revision < c.desired.revision)
    case Restoring =>
      c.route.Some? && !c.desired.active && c.applied.Some? && c.applied.value.revision == c.route.value.revision
  }

  datatype World = World(
    checkpoint: Option<Checkpoint>,
    settings: string,      // routing settings of the panel
    restart: string,       // restart policy of the container
    running: bool,
    gates: set<Gate>,
    accepted: set<Gate>,   // gates opened by a monitor's acceptance since the last boot
    monitor: Option<set<Gate>>
  )

  /** A closed gate drops whatever passes between its bridge and its peer, also for a gate of another revision. */
  predicate Blocked(gates: set<Gate>, g: Gate) {
    exists h :: h in gates && h.peer == g.peer && h.bridge == g.bridge
  }

  /** Nothing passes a gate of this plan that was not accepted. */
  predicate Closed(i: Intent, bridge: string, w: World) {
    forall g :: g in Gates(i, bridge) ==> g in w.accepted || Blocked(w.gates, g)
  }

  /** The route in force carries no traffic past a gate of its own that is neither closed nor accepted. */
  predicate Fenced(c: Checkpoint, w: World)
    requires c.route.Some?
  {
    w.running && w.settings != c.route.value.before ==>
      || (w.settings == c.route.value.after && Closed(Owner(c), c.bridge, w))
      || (c.retiring.Some? && c.route.value.supersedes == Some(w.settings) && Closed(c.retiring.value, c.bridge, w))
  }

  /** A replacement has been recorded and the panel is still on the route it supersedes. */
  predicate Midway(checkpoint: Option<Checkpoint>, settings: string) {
    && checkpoint.Some? && checkpoint.value.route.Some? && checkpoint.value.retiring.Some?
    && settings != checkpoint.value.route.value.before && settings != checkpoint.value.route.value.after
  }

  /** A restart at this point loses gates for peers that only the superseded plan uses. */
  predicate LosesFence(checkpoint: Option<Checkpoint>, settings: string) {
    Midway(checkpoint, settings) &&
    var c := checkpoint.value;
    exists g :: g in Gates(c.retiring.value, c.bridge) && !Blocked(Gates(Owner(c), c.bridge), g)
  }

  /** The host restarts: no gate survives, and the container returns only by its policy. */
  function Rebooted(w: World): World {
    w.(gates := {}, accepted := {}, monitor := None, running := w.restart != "no")
  }

  /**
   While the panel is still on the superseded route, each gate of the plan that route belongs to is accepted,
   closed, or for a peer that the owner of the new route uses as well.
   */
  predicate Sheltered(c: Checkpoint, w: World)
    requires c.route.Some?
  {
    c.retiring.Some? && w.settings != c.route.value.before && w.settings != c.route.value.after ==>
      forall g :: g in Gates(c.retiring.value, c.bridge) ==>
        g in w.accepted || Blocked(w.gates, g) || Blocked(Gates(Owner(c), c.bridge), g)
  }

  predicate Routed(c: Checkpoint, w: World)
    requires c.route.Some?
  {
    var r := c.route.value;
    && (w.settings == r.before || w.settings == r.after || (c.retiring.Some? && r.supersedes == Some(w.settings)))
    && (c.phase.Active? ==> w.settings == r.after)
    && (w.settings != r.before ==> w.restart == "no")
    && (w.settings == r.after ==> Fenced(c, w))
  }

  /** A monitor exists only for a route that is applied and recorded as applied. */
  predicate Watched(c: Checkpoint, w: World) {
    w.monitor.Some? ==>
      c.phase.Active? && c.route.Some? && w.settings == c.route.value.after
      && w.monitor.value <= Gates(c.desired, c.bridge)
  }

  /** The invariant. */
  predicate Ledger(w: World) {
    match w.checkpoint
    case None => w.gates == {} && w.monitor.None?
    case Some(c) =>
      && Acceptable(c) && InPhase(c)
      && w.gates <= Accounted(c)
      && (c.route.Some? ==> Routed(c, w))
      && Watched(c, w)
  }

  lemma OwnerIsDesired(w: World, c: Checkpoint)
    requires Ledger(w) && w.checkpoint == Some(c) && c.route.Some? && !c.phase.Restoring?
    ensures Owner(c) == c.desired
  {
  }

  /** With the owner's gates closed, a container that runs is fenced exactly when it is sheltered. */
  lemma FencedExactly(w: World, c: Checkpoint)
    requires Ledger(w) && w.checkpoint == Some(c) && c.route.Some? && Gates(Owner(c), c.bridge) <= w.gates
    ensures w.running ==> (Fenced(c, w) <==> Sheltered(c, w))
  {
    hide Acceptable, InPhase, Watched, Accounted, Owner, Gates;
    BlockedMore(Gates(Owner(c), c.bridge), w.gates);
  }

  lemma BlockedMore(some: set<Gate>, all: set<Gate>)
    requires some <= all
    ensures forall g :: Blocked(some, g) ==> Blocked(all, g)
  {
  }

  /** Closing gates of the owner shelters nothing that was not sheltered, and opens nothing. */
  lemma ClosingKeeps(before: World, after: World, c: Checkpoint)
    requires c.route.Some? && before.checkpoint == after.checkpoint == Some(c)
    requires after == before.(gates := after.gates, accepted := after.accepted)
    requires before.gates <= after.gates <= before.gates + Gates(Owner(c), c.bridge)
    requires before.accepted - Gates(Owner(c), c.bridge) <= after.accepted <= before.accepted
    requires before.accepted <= after.accepted + after.gates
    requires c.retiring.Some? ==> Gates(Owner(c), c.bridge) !! Gates(c.retiring.value, c.bridge)
    ensures Sheltered(c, after) <==> Sheltered(c, before)
    ensures Fenced(c, before) ==> Fenced(c, after)
  {
    BlockedMore(before.gates, after.gates);
    BlockedSum(before.gates, Gates(Owner(c), c.bridge));
    BlockedMore(after.gates, before.gates + Gates(Owner(c), c.bridge));
    assert forall g :: g in after.gates ==> Blocked(after.gates, g);
    hide Blocked, Owner, Gates;
  }

  lemma BlockedSum(some: set<Gate>, more: set<Gate>)
    ensures forall g :: Blocked(some + more, g) <==> Blocked(some, g) || Blocked(more, g)
  {
  }

  /** A container that does not run, or that is not midway, is fenced. */
  lemma FencedOtherwise(w: World, c: Checkpoint)
    requires Ledger(w) && w.checkpoint == Some(c) && c.route.Some? && (!w.running || !Midway(w.checkpoint, w.settings))
    ensures Fenced(c, w)
  {
    hide Closed, Acceptable, InPhase, Watched, Accounted;
  }

  // ---------------------------------------------------------------- admission

  predicate Admits(current: Option<Checkpoint>, node: string, desired: Intent) {
    && desired.node == node && node != "" && 0 < desired.revision
    && (current.Some? ==>
          var c := current.value;
          && c.desired.revision <= desired.revision
          && (desired.revision == c.desired.revision ==> desired == c.desired)
          && (c.route.Some? && desired.active && desired.revision != c.desired.revision ==>
                c.phase.Active? && c.applied.Some? && c.applied.value.revision == c.desired.revision
                && c.application == desired.application))
  }

  /** A plan that is admitted beside a route finds it owned by the recorded plan. */
  lemma AdmittedOwner(w: World, node: string, desired: Intent)
    requires Ledger(w) && Admits(w.checkpoint, node, desired) && desired.active && w.checkpoint.Some?
               && w.checkpoint.value.route.Some?
    ensures Owner(w.checkpoint.value) == w.checkpoint.value.desired
  {
  }

  /** A plan that supersedes a route keeps the checkpoint of the original settings. */
  function Replacement(c: Checkpoint, desired: Intent, after: string): Checkpoint
    requires c.route.Some?
  {
    var former := c.route.value;
    c.(desired := desired, retiring := Some(c.desired), phase := Prepared,
       route := Some(Change(desired.revision, former.before, after, Some(former.after))))
  }

  lemma ReplacementKeeps(w: World, c: Checkpoint, desired: Intent, after: string)
    requires Ledger(w) && w.checkpoint == Some(c) && c.route.Some? && Admits(w.checkpoint, c.desired.node, desired)
    requires desired.active && desired.revision > c.desired.revision && w.monitor.None?
    requires after != c.route.value.before
    ensures var next := Replacement(c, desired, after);
            && Ledger(w.(checkpoint := Some(next)))
            && Owner(next) == desired && next.route.value.revision == desired.revision
  {
  }

  function Opening(desired: Intent, bridge: string, policy: string, settings: string, after: string): Checkpoint {
    Checkpoint(desired, None, None, desired.application, bridge, policy,
        Some(Change(desired.revision, settings, after, None)), Prepared)
  }

  /** The checkpoint a plan is carried out from. */
  function Recorded(current: Option<Checkpoint>, desired: Intent, bridge: string, policy: string, settings: string,
      after: string): Checkpoint {
    if current.None? || current.value.route.None? then Opening(desired, bridge, policy, settings, after)
    else if desired.revision == current.value.desired.revision then current.value
    else Replacement(current.value, desired, after)
  }

  /** The checkpoint of a plan that has been carried out. */
  function Completed(c: Checkpoint): Checkpoint {
    c.(applied := Some(c.desired), retiring := None, phase := Active)
  }

  function Inactive(desired: Intent): Checkpoint {
    Checkpoint(desired, Some(desired), None, "", "", "", None, Active)
  }

  function Leaving(c: Checkpoint, desired: Intent): Checkpoint {
    c.(applied := Some(Owner(c)), desired := desired, phase := Restoring)
  }

  lemma LeavingKeeps(w: World, c: Checkpoint, desired: Intent)
    requires Ledger(w) && w.checkpoint == Some(c) && c.route.Some? && w.monitor.None?
    requires Admits(w.checkpoint, c.desired.node, desired) && !desired.active
    ensures Ledger(w.(checkpoint := Some(Leaving(c, desired)))) && Owner(Leaving(c, desired)) == Owner(c)
  {
  }
}
