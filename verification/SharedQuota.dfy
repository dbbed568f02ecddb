/**
 The journal of one shared account and the native clients it governs
 (internal/agent/landing_quota.go:15-340).

 `limits` and `pending` are the saved rows; `natives` is the panel. Every write to the
 panel may fail, lose its reply or be the last act of the process, and may leave the
 traffic row of its client as it was.
 */
module SharedQuota {
  import opened Prelude
  import opened QuotaLedger

  /** Whether the n-th panel write, if it is for this identity, also rewrites its traffic row. */
  type RowSync = (string, nat) -> bool

  /** The row of this identity follows every write. */
  ghost predicate Follows(sync: RowSync, id: string) {
    forall k :: sync(id, k)
  }

  /** The row of this identity follows no write. */
  ghost predicate Stale(sync: RowSync, id: string) {
    forall k :: !sync(id, k)
  }

  ghost predicate InStep(sync: RowSync) {
    forall id :: Follows(sync, id)
  }

  /** What writes do to a traffic row. */
  ghost predicate Traced(was: Client, now: Client, sync: RowSync, id: string) {
    && now.attached == was.attached && (was.row.Some? ==> now.row.Some?)
    && (Stale(sync, id) ==> now.row == was.row)
    && (Follows(sync, id) && RowSafe(was) ==> RowSafe(now))
  }

  ghost predicate AllTraced(was: Natives, now: Natives, sync: RowSync) {
    was.Keys == now.Keys && forall id :: id in was ==> Traced(was[id], now[id], sync, id)
  }

  lemma WrittenTraced(c: Client, entry: Entry, sync: RowSync, id: string, k: nat)
    ensures Traced(c, c, sync, id) && Traced(c, Written(c, entry, sync(id, k)), sync, id)
  {
  }

  lemma TraceJoins(was: Client, mid: Client, now: Client, sync: RowSync, id: string)
    requires Traced(was, mid, sync, id) && Traced(mid, now, sync, id)
    ensures Traced(was, now, sync, id)
  {
  }

  lemma TracedMore(was: Natives, before: Natives, after: Natives, sync: RowSync, id: string)
    requires AllTraced(was, before, sync) && Only(before, after, id)
    requires id in before ==> before[id] == was[id] && Traced(before[id], after[id], sync, id)
    ensures AllTraced(was, after, sync)
  {
    hide Traced;
  }

  lemma TracedSelf(natives: Natives, sync: RowSync)
    ensures AllTraced(natives, natives, sync)
  {
  }

  lemma TracedTwice(was: Natives, mid: Natives, now: Natives, sync: RowSync)
    requires AllTraced(was, mid, sync) && AllTraced(mid, now, sync)
    ensures AllTraced(was, now, sync)
  {
    forall id | id in was ensures Traced(was[id], now[id], sync, id) {
      assert Traced(was[id], mid[id], sync, id) && Traced(mid[id], now[id], sync, id);
    }
  }

  lemma TracedSafe(was: Natives, now: Natives, sync: RowSync)
    requires AllTraced(was, now, sync) && InStep(sync) && RowsSafe(was)
    ensures RowsSafe(now)
  {
    forall id | id in now ensures RowSafe(now[id]) {
      assert Traced(was[id], now[id], sync, id) && Follows(sync, id);
    }
  }

  /** Clients whose rows follow and that were written are enforced as their targets say; rows that fitted still fit. */
  ghost predicate Carried(targets: seq<Limit>, was: Natives, now: Natives, sync: RowSync) {
    forall i :: 0 <= i < |targets| && targets[i].id in was && targets[i].id in now ==>
      CarriedOne(targets[i], was[targets[i].id], now[targets[i].id], sync)
  }

  ghost predicate CarriedOne(target: Limit, was: Client, now: Client, sync: RowSync) {
    now != was ==>
      && (Follows(sync, target.id) ==>
          (Effective(now) <==> target.enabled) && (target.enabled ==> Enforced(now) == target.total))
      && (FitsBefore(was, target) ==> RowFits(now, target))
  }

  /** As the call begins it is known what will be enforced: the row will be rewritten, or it fits already. */
  ghost predicate WillFit(was: Client, target: Limit, expiry: int, sync: RowSync) {
    (Follows(sync, target.id) && !AsTargeted(was, target, expiry)) || FitsBefore(was, target)
  }

  ghost predicate AllWillFit(targets: seq<Limit>, was: Natives, expiry: int, sync: RowSync) {
    forall i :: 0 <= i < |targets| && targets[i].id in was ==> WillFit(was[targets[i].id], targets[i], expiry, sync)
  }

  ghost predicate AllFitBefore(targets: seq<Limit>, was: Natives) {
    forall i :: 0 <= i < |targets| && targets[i].id in was ==> FitsBefore(was[targets[i].id], targets[i])
  }

  /** Each row follows all writes to its client or none. */
  ghost predicate Uniform(targets: seq<Limit>, sync: RowSync) {
    forall i :: 0 <= i < |targets| ==> Follows(sync, targets[i].id) || Stale(sync, targets[i].id)
  }

  /** The client's total is neither the recorded one nor the target. */
  predicate ChangedOutside(limits: seq<Limit>, target: Limit, natives: Natives) {
    && target.id in natives && target.id in Recorded(limits)
    && natives[target.id].settings.total != Recorded(limits)[target.id].total
    && natives[target.id].settings.total != target.total
  }

  /** What was changed outside the plan is not written, and the plan is not carried out. */
  lemma OutsideStays(limits: seq<Limit>, pending: seq<Limit>, blocked: bool, was: Natives, now: Natives, expiry: int)
    requires Known(limits, Targets(pending, blocked)) && was.Keys == now.Keys
    requires OutsideKept(limits, Targets(pending, blocked), was, now, expiry)
    ensures forall i :: 0 <= i < |pending| && ChangedOutside(limits, pending[i], was) ==>
              now[pending[i].id] == was[pending[i].id] && !Fulfilled(Targets(pending, blocked), now, expiry)
  {
    var targets := Targets(pending, blocked);
    forall i | 0 <= i < |pending| && ChangedOutside(limits, pending[i], was)
      ensures now[pending[i].id] == was[pending[i].id] && !Fulfilled(targets, now, expiry)
    {
      assert targets[i].id == pending[i].id && targets[i].total == pending[i].total;
    }
  }

  /** What a target that was carried out enforces, by the client as it was before. */
  lemma GrantedExactly(was: Client, now: Client, target: Limit, expiry: int, sync: RowSync)
    requires AsTargeted(now, target, expiry) && Traced(was, now, sync, target.id) && CarriedOne(target, was, now, sync)
    requires AsTargeted(was, target, expiry) ==> now == was
    ensures FitsBefore(was, target) ==> Granted(now, target)
    ensures Follows(sync, target.id) || Stale(sync, target.id) ==>
              (Granted(now, target) <==> WillFit(was, target, expiry, sync))
  {
    MetGrants(now, target, expiry);
  }

  /** A plan that was carried out is in force exactly when every row was to be rewritten or fitted already. */
  lemma InForceExactly(limits: seq<Limit>, targets: seq<Limit>, was: Natives, now: Natives, expiry: int, sync: RowSync)
    requires Known(limits, targets) && Fulfilled(targets, now, expiry) && OutsideKept(limits, targets, was, now, expiry)
    requires AllTraced(was, now, sync) && Carried(targets, was, now, sync)
    ensures AllFitBefore(targets, was) ==> AllGranted(targets, now)
    ensures Uniform(targets, sync) ==> (AllGranted(targets, now) <==> AllWillFit(targets, was, expiry, sync))
  {
    hide Traced, CarriedOne, AsTargeted, Granted, WillFit, FitsBefore, Follows, Stale;
    forall i | 0 <= i < |targets|
      ensures targets[i].id in was && targets[i].id in now
      ensures FitsBefore(was[targets[i].id], targets[i]) ==> Granted(now[targets[i].id], targets[i])
      ensures Follows(sync, targets[i].id) || Stale(sync, targets[i].id) ==>
                (Granted(now[targets[i].id], targets[i]) <==> WillFit(was[targets[i].id], targets[i], expiry, sync))
    {
      GrantedExactly(was[targets[i].id], now[targets[i].id], targets[i], expiry, sync);
    }
  }

  lemma CarriedMore(targets: seq<Limit>, was: Natives, before: Natives, after: Natives, sync: RowSync, k: int)
    requires 0 <= k < |targets| && Distinct(targets) && Carried(targets, was, before, sync)
               && Only(before, after, targets[k].id)
    requires targets[k].id in was && targets[k].id in after ==>
               CarriedOne(targets[k], was[targets[k].id], after[targets[k].id], sync)
    ensures Carried(targets, was, after, sync)
  {
    hide CarriedOne;
  }

  /** A client the plan recognizes: its total is the recorded one or the target. */
  predicate Recognized(c: Client, former: Limit, target: Limit) {
    c.settings.total == former.total || c.settings.total == target.total
  }

  /** Clients that were changed were recognized first, and not as targeted. */
  predicate OutsideKept(limits: seq<Limit>, targets: seq<Limit>, was: Natives, now: Natives, expiry: int)
    requires Known(limits, targets)
  {
    forall i :: 0 <= i < |targets| && targets[i].id in was && targets[i].id in now ==>
      || now[targets[i].id] == was[targets[i].id]
      || (&& Recognized(was[targets[i].id], Recorded(limits)[targets[i].id], targets[i])
          && !AsTargeted(was[targets[i].id], targets[i], expiry))
  }

  /**
   Every target has its client, recognized, and something that can confirm it: an attached entry or a row that
   follows.
   */
  ghost predicate AllReady(limits: seq<Limit>, targets: seq<Limit>, names: set<string>, natives: Natives, sync: RowSync)
    requires Known(limits, targets)
  {
    forall i :: 0 <= i < |targets| ==>
      && targets[i].id in names && targets[i].id in natives
      && Recognized(natives[targets[i].id], Recorded(limits)[targets[i].id], targets[i])
      && (natives[targets[i].id].attached || Follows(sync, targets[i].id))
  }

  /** Targets a pass has not come to yet still have their clients as they were. */
  predicate Untouched(limits: seq<Limit>, targets: seq<Limit>, was: Natives, now: Natives, lower: bool, n: int)
    requires Known(limits, targets) && 0 <= n <= |targets|
  {
    forall i :: n <= i < |targets| && targets[i].id in was
                 && Decreases(Recorded(limits)[targets[i].id], targets[i]) == lower ==>
      targets[i].id in now && now[targets[i].id] == was[targets[i].id]
  }

  lemma PassKeepsFrame(limits: seq<Limit>, targets: seq<Limit>, was: Natives, before: Natives, after: Natives, k: int,
      expiry: int)
    requires Known(limits, targets) && Distinct(targets) && 0 <= k < |targets|
    requires was.Keys == before.Keys && OutsideKept(limits, targets, was, before, expiry)
    requires Moved(before, after, targets[k])
    requires targets[k].id in before ==> before[targets[k].id] == was[targets[k].id]
    requires targets[k].id in before && after[targets[k].id] != before[targets[k].id] ==>
               && Recognized(before[targets[k].id], Recorded(limits)[targets[k].id], targets[k])
               && !AsTargeted(before[targets[k].id], targets[k], expiry)
    ensures OutsideKept(limits, targets, was, after, expiry)
    ensures forall i :: 0 <= i < |targets| && i != k && targets[i].id in before ==>
              targets[i].id in after && after[targets[i].id] == before[targets[i].id]
  {
  }

  class Account {
    // Saved rows.
    var limits: seq<Limit>
    var pending: seq<Limit>
    var pendingExpiry: int
    var blocked: bool
    // The panel.
    var natives: Natives

    ghost predicate Valid()
      reads this
    {
      Ledger(limits, pending, AsConfigured(natives))
    }

    /** A journal is opened over clients whose settings respect what is recorded for them. */
    constructor (limits0: seq<Limit>, pending0: seq<Limit>, expiry0: int, natives0: Natives)
      requires Ledger(limits0, pending0, AsConfigured(natives0))
      ensures Valid() && limits == limits0 && pending == pending0 && pendingExpiry == expiry0 && natives == natives0
                && !blocked
    {
      limits, pending, pendingExpiry, blocked, natives := limits0, pending0, expiry0, false, natives0;
    }

    // -------------------------------------------------------------- panel writes

    method Update(id: string, entry: Entry, o: Outcome, synced: bool) returns (v: Verdict)
      requires id in natives
      modifies this`natives
      ensures v == Ending(o)
      ensures natives == if Took(o) then old(natives)[id := Written(old(natives[id]), entry, synced)] else old(natives)
    {
      if Took(o) {
        natives := natives[id := Written(natives[id], entry, synced)];
      }
      return Ending(o);
    }

    /** One bulk operation: it reaches every layer, but repairs nothing of a row except the switch. */
    method Switch(id: string, on: bool, o: Outcome, synced: bool) returns (v: Verdict)
      requires id in natives
      modifies this`natives
      ensures v == Ending(o)
      ensures natives == if Took(o) then old(natives)[id := Switched(old(natives[id]), on, synced)] else old(natives)
    {
      if Took(o) {
        natives := natives[id := Switched(natives[id], on, synced)];
      }
      return Ending(o);
    }

    /** bulkDisable, then bulkEnable. */
    method ReconcileEnabled(id: string, target: Limit, env: Environment, sync: RowSync, base: nat) returns (v: Verdict)
      requires id == target.id && id in natives
      requires target.enabled ==> natives[id].settings.total == target.total
      modifies this`natives
      ensures Moved(old(natives), natives, target) && !v.Refused?
      ensures natives[id].row.Some? ==> natives[id].row.value.total == Enforced(old(natives[id]))
      ensures !Follows(sync, id) || (target.enabled ==> Enforced(old(natives[id])) == target.total) ==>
                Traced(old(natives[id]), natives[id], sync, id)
      ensures v.Succeeded? ==>
                var c := natives[id];
                && c.settings == old(natives[id]).settings.(enabled := target.enabled)
                && (Follows(sync, id) ==>
                      c.row == Some(if old(natives[id]).row.None? then c.settings
                          else old(natives[id]).row.value.(enabled := target.enabled)))
      ensures Healthy(env) ==> v.Succeeded?
    {
      v := Switch(id, false, env(base), sync(id, base));
      if !v.Succeeded? || !target.enabled {
        return;
      }
      v := Switch(id, true, env(base + 1), sync(id, base + 1));
    }

    // -------------------------------------------------------------- one target

    /** Reads a client and writes it only when it is not already what the target says. */
    method Bring(target: Limit, former: Limit, expiry: int, env: Environment, sync: RowSync, base: nat)
        returns (v: Verdict)
      modifies this`natives
      ensures Moved(old(natives), natives, target) && !v.Refused?
      ensures target.id in natives ==> Traced(old(natives)[target.id], natives[target.id], sync, target.id)
      ensures target.id in natives && natives[target.id] != old(natives)[target.id] ==>
                Recognized(old(natives)[target.id], former, target)
                && !AsTargeted(old(natives)[target.id], target, expiry)
      ensures v.Succeeded? ==> target.id in natives && AsTargeted(natives[target.id], target, expiry)
      ensures v.Succeeded? ==> CarriedOne(target, old(natives)[target.id], natives[target.id], sync)
      ensures target.id in old(natives) && AsTargeted(old(natives)[target.id], target, expiry) ==>
                natives == old(natives)
      ensures (Healthy(env) && target.id in old(natives) && Recognized(old(natives)[target.id], former, target)
               && (old(natives)[target.id].attached || Follows(sync, target.id))) ==> v.Succeeded?
    {
      var id := target.id;
      if env(base) != Done {
        return Ending(env(base));
      }
      if id !in natives || !Recognized(natives[id], former, target) {
        return Errored;
      }
      var c := natives[id];
      if !RowConfirms(c, target, expiry) && c.attached && env(base + 1) != Done {
        return Ending(env(base + 1));
      }
      if AsTargeted(c, target, expiry) {
        return Succeeded;
      }
      v := Rewrite(target, expiry, c, env, sync, base + 2);
      if !v.Succeeded? {
        return;
      }
      v := Confirm(target, expiry, env, sync, base + 6);
    }

    /** The disabled checkpoint, then either the reconciliation or the complete update. */
    method Rewrite(target: Limit, expiry: int, c: Client, env: Environment, sync: RowSync, base: nat)
        returns (v: Verdict)
      requires target.id in natives && natives[target.id] == c && !AsTargeted(c, target, expiry)
      modifies this`natives
      ensures Moved(old(natives), natives, target) && !v.Refused? && Traced(c, natives[target.id], sync, target.id)
      ensures v.Succeeded? ==> Rewritten(c, natives[target.id], target, expiry, sync)
      ensures Healthy(env) ==> v.Succeeded?
    {
      hide Traced, Rewritten, Granted, FieldsMatch, Written, AsTargeted, Paused;
      ghost var first := natives;
      v := Pause(target, expiry, env, sync, base);
      if !v.Succeeded? {
        return;
      }
      ghost var mid := natives;
      v := Overwrite(target, expiry, c, env, sync, base);
      MovedTwice(first, mid, natives, target);
      TraceJoins(c, mid[target.id], natives[target.id], sync, target.id);
    }

    /** An enabled client whose row does not match goes through a disabled and expired state first. */
    method Pause(target: Limit, expiry: int, env: Environment, sync: RowSync, base: nat) returns (v: Verdict)
      requires target.id in natives
      modifies this`natives
      ensures Moved(old(natives), natives, target) && !v.Refused?
      ensures Traced(old(natives)[target.id], natives[target.id], sync, target.id)
      ensures v.Succeeded? ==>
                natives[target.id] == Paused(old(natives)[target.id], target, expiry, sync(target.id, base))
      ensures natives != old(natives) ==>
                var now := natives[target.id].settings;
                now.total == target.total && !now.enabled && now.expiry == 1 && now.reset == 0
      ensures Healthy(env) ==> v.Succeeded?
    {
      hide Traced;
      WrittenTraced(natives[target.id], Checkpoint(target), sync, target.id, base);
      if Pauses(natives[target.id], target, expiry) {
        v := Update(target.id, Checkpoint(target), env(base), sync(target.id, base));
      } else {
        v := Succeeded;
      }
    }

    /** The write proper; `c` is the client as it was read. */
    method Overwrite(target: Limit, expiry: int, c: Client, env: Environment, sync: RowSync, base: nat)
        returns (v: Verdict)
      requires target.id in natives && natives[target.id] == Paused(c, target, expiry, sync(target.id, base))
                 && !AsTargeted(c, target, expiry)
      modifies this`natives
      ensures Moved(old(natives), natives, target) && !v.Refused?
      ensures Traced(old(natives)[target.id], natives[target.id], sync, target.id)
      ensures v.Succeeded? ==> Rewritten(c, natives[target.id], target, expiry, sync)
      ensures Healthy(env) ==> v.Succeeded?
    {
      hide Traced;
      var id := target.id;
      var rowEnabled := c.row.Some? && c.row.value.enabled;
      var stale := c.settings.enabled != target.enabled || c.row.None? || rowEnabled != target.enabled;
      WrittenTraced(natives[id], Entry(target.total, target.enabled, expiry, 0), sync, id, base + 3);
      if stale && MainMatches(c, target, expiry) && FieldsMatch(c, target, expiry) {
        v := ReconcileEnabled(id, target, env, sync, base + 1);
      } else {
        v := Update(id, Entry(target.total, target.enabled, expiry, 0), env(base + 3), sync(id, base + 3));
      }
    }

    /** Reads the client back and gives the enforcement one more chance. */
    method Confirm(target: Limit, expiry: int, env: Environment, sync: RowSync, base: nat) returns (v: Verdict)
      requires target.id in natives
      requires Follows(sync, target.id) ==>
                 RowConfirms(natives[target.id], target, expiry) || natives[target.id].row.None?
      modifies this`natives
      ensures Moved(old(natives), natives, target) && !v.Refused?
      ensures Traced(old(natives)[target.id], natives[target.id], sync, target.id)
      ensures v.Succeeded? && MainMatches(old(natives)[target.id], target, expiry) ==>
                AsTargeted(natives[target.id], target, expiry)
      ensures var was := old(natives)[target.id];
              (v.Succeeded? && MainMatches(was, target, expiry) && was.settings.enabled == target.enabled
                  && FitsBefore(was, target))
              ==> RowFits(natives[target.id], target)
      ensures v.Succeeded? && Follows(sync, target.id) && old(natives)[target.id].settings.enabled == target.enabled ==>
                (Effective(natives[target.id]) <==> target.enabled)
                && (target.enabled ==> Enforced(natives[target.id]) == target.total)
      ensures var was := old(natives)[target.id];
              (Healthy(env) && MainMatches(was, target, expiry) && was.settings.enabled == target.enabled
              && (was.attached || Follows(sync, target.id))) ==> v.Succeeded?
    {
      if env(base) != Done {
        return Ending(env(base));
      }
      var seen := natives[target.id];
      if seen.settings.total == target.total && seen.settings.expiry == expiry && !Confirmed(seen, target, expiry) {
        v := ReconcileEnabled(target.id, target, env, sync, base + 1);
        if !v.Succeeded? {
          return;
        }
        if env(base + 3) != Done {
          return Ending(env(base + 3));
        }
        seen := natives[target.id];
      }
      if seen.settings.total != target.total || seen.settings.expiry != expiry || !Confirmed(seen, target, expiry) {
        return Errored;
      }
      return Succeeded;
    }

    // -------------------------------------------------------------- the plan

    method Previous() returns (previous: map<string, Limit>)
      ensures previous == Recorded(limits)
    {
      previous := map[];
      for i := 0 to |limits|
        invariant previous == Recorded(limits[..i])
      {
        assert limits[..i + 1][..i] == limits[..i];
        previous := previous[limits[i].id := limits[i]];
      }
      assert limits[..|limits|] == limits;
    }

    /** What holds between the targets of a pass; `was` are the clients when the plan started. */
    ghost predicate InPass(was: Natives, lower: bool, n: int, sync: RowSync)
      requires 0 <= n <= |pending|
      reads this
    {
      var targets := Targets(pending, blocked);
      && Valid() && Known(limits, targets) && Distinct(targets)
      && AllTraced(was, natives, sync) && OutsideKept(limits, targets, was, natives, pendingExpiry)
      && Carried(targets, was, natives, sync)
      && Reached(limits, targets, natives, pendingExpiry, lower, n)
      && Untouched(limits, targets, was, natives, lower, n)
      && (if lower then Untouched(limits, targets, was, natives, false, 0)
          else Reached(limits, targets, natives, pendingExpiry, true, |targets|)
               && (blocked || AllGranted(pending, AsConfigured(natives))))
    }

    /** One target of a pass. */
    method Visit(ghost was: Natives, lower: bool, k: nat, target: Limit, former: Limit, env: Environment,
        sync: RowSync, base: nat) returns (v: Verdict)
      requires k < |pending| && InPass(was, lower, k, sync)
      requires target == Targets(pending, blocked)[k] && former == Recorded(limits)[target.id]
                 && Decreases(former, target) == lower
      modifies this`natives
      ensures Valid() && !v.Refused? && AllTraced(was, natives, sync)
                && OutsideKept(limits, Targets(pending, blocked), was, natives, pendingExpiry)
      ensures v.Succeeded? ==> InPass(was, lower, k + 1, sync)
      ensures Healthy(env) && target.id in was && (was[target.id].attached || Follows(sync, target.id))
              && Recognized(was[target.id], former, target) ==>
                v.Succeeded?
    {
      hide Ledger, AsTargeted, Traced, CarriedOne, Granted, Configured, Recognized, Follows;
      ghost var targets := Targets(pending, blocked);
      ghost var before := natives;
      v := Bring(target, former, pendingExpiry, env, sync, base);
      TracedMore(was, before, natives, sync, target.id);
      PassKeepsFrame(limits, targets, was, before, natives, k, pendingExpiry);
      assert blocked ==> Decreases(former, target);
      StepKeeps(limits, pending, blocked, before, natives, k);
      ReachedStays(limits, targets, before, natives, pendingExpiry, lower, k, k);
      if v.Succeeded? {
        CarriedMore(targets, was, before, natives, sync, k);
      }
      if !lower {
        ReachedStays(limits, targets, before, natives, pendingExpiry, true, |targets|, k);
      }
    }

    method Pass(ghost was: Natives, lower: bool, targets: seq<Limit>, previous: map<string, Limit>, names: set<string>,
                env: Environment, sync: RowSync, base: nat) returns (v: Verdict, calls: nat)
      requires targets == Targets(pending, blocked) && previous == Recorded(limits) && InPass(was, lower, 0, sync)
      modifies this`natives
      ensures Valid() && !v.Refused? && AllTraced(was, natives, sync)
                && OutsideKept(limits, targets, was, natives, pendingExpiry)
      ensures v.Succeeded? ==> InPass(was, lower, |pending|, sync)
      ensures v.Succeeded? ==> forall i :: 0 <= i < |targets| ==> targets[i].id in names
      ensures Healthy(env) && AllReady(limits, targets, names, was, sync) ==> v.Succeeded?
    {
      hide Ledger, AllTraced, Carried, Recognized, Follows;
      calls := base;
      for i := 0 to |targets|
        invariant InPass(was, lower, i, sync)
        invariant forall k :: 0 <= k < i ==> targets[k].id in names
      {
        var target := targets[i];
        if target.id !in names || target.id !in previous {
          return Errored, calls;
        }
        var former := previous[target.id];
        if Decreases(former, target) == lower {
          v := Visit(was, lower, i, target, former, env, sync, calls);
          if !v.Succeeded? {
            return;
          }
          calls := calls + 10;
        }
      }
      return Succeeded, calls;
    }

    /**
     Confirms every decrease, then gives out what was released, then records the plan. On success what is enforced
     respects the new limits exactly when, on entry, every row either follows and is about to be rewritten or fits.
     */
    method ApplyPlan(names: set<string>, env: Environment, sync: RowSync) returns (v: Verdict)
      requires Valid() && pending != []
      modifies this
      ensures Valid() && !v.Refused? && blocked == old(blocked)
      ensures AllTraced(old(natives), natives, sync)
      ensures Known(old(limits), Targets(old(pending), old(blocked))) &&
              OutsideKept(old(limits), Targets(old(pending), old(blocked)), old(natives), natives, old(pendingExpiry))
      ensures v.Succeeded? ==>
                limits == Targets(old(pending), old(blocked)) && pending == []
                && Fulfilled(limits, natives, old(pendingExpiry))
                && forall i :: 0 <= i < |limits| ==> limits[i].id in names
      ensures forall i :: 0 <= i < |old(pending)| && ChangedOutside(old(limits), old(pending)[i], old(natives)) ==>
                !v.Succeeded? && natives[old(pending)[i].id] == old(natives)[old(pending)[i].id]
      ensures v.Succeeded? && Uniform(limits, sync) ==>
                (AllGranted(limits, natives) <==> AllWillFit(limits, old(natives), old(pendingExpiry), sync))
      ensures v.Succeeded? && AllFitBefore(limits, old(natives)) ==> AllGranted(limits, natives)
      ensures v.Succeeded? ==>
                (AllGranted(limits, natives) <==> RowsFit(limits, natives))
                && Carried(limits, old(natives), natives, sync)
      ensures v.Succeeded? && blocked ==> NoneEffective(limits, natives)
      ensures !v.Succeeded? ==>
                (limits == old(limits) && pending == old(pending) && pendingExpiry == old(pendingExpiry)) ||
                                (limits == Targets(old(pending), old(blocked)) && pending == [])
      ensures Healthy(env) && AllReady(old(limits), Targets(old(pending), old(blocked)), names, old(natives), sync) ==>
                v.Succeeded?
    {
      hide Traced, CarriedOne, AllReady, AllGranted, RowsFit, AllWillFit, AllFitBefore, Uniform, ChangedOutside;
      var previous := Previous();
      var targets := Targets(pending, blocked);
      ghost var was := natives;
      TargetsForm(limits, pending, blocked);
      PassBegins(was, sync);
      var calls;
      v, calls := Pass(was, true, targets, previous, names, env, sync, 1);
      OutsideStays(limits, pending, blocked, was, natives, pendingExpiry);
      if !v.Succeeded? {
        return;
      }
      ReachedLowered(limits, pending, blocked, natives, pendingExpiry);
      v, calls := Pass(was, false, targets, previous, names, env, sync, calls);
      OutsideStays(limits, pending, blocked, was, natives, pendingExpiry);
      if !v.Succeeded? {
        return;
      }
      PlanRecorded(limits, targets, natives, pendingExpiry);
      InForceExactly(limits, targets, was, natives, pendingExpiry, sync);
      BlockedMeansOff(pending, blocked, natives, pendingExpiry);
      if Took(env(0)) {
        limits, pending, pendingExpiry := targets, [], 0;
      }
      return Ending(env(0));
    }

    lemma PassBegins(was: Natives, sync: RowSync)
      requires Valid() && was == natives
      requires Known(limits, Targets(pending, blocked)) && Distinct(Targets(pending, blocked))
      ensures InPass(was, true, 0, sync)
    {
    }

    // -------------------------------------------------------------- a new plan

    /** Identities seen for the first time are recorded as they are on the panel. */
    method Join(ids: seq<string>) returns (found: bool, joined: seq<Limit>)
      requires Valid() && pending == []
      ensures found <==> forall i :: 0 <= i < |ids| ==> ids[i] in natives
      ensures Ledger(joined, [], AsConfigured(natives)) && limits <= joined
      ensures found ==> Covered(joined, ids)
      ensures Covered(limits, ids) ==> joined == limits
    {
      joined := limits;
      for i := 0 to |ids|
        invariant Ledger(joined, [], AsConfigured(natives)) && limits <= joined
        invariant forall k :: 0 <= k < i ==> ids[k] in natives && ids[k] in Recorded(joined)
        invariant Covered(limits, ids) ==> joined == limits
      {
        if ids[i] !in natives {
          return false, joined;
        }
        if ids[i] !in Recorded(joined) {
          var client := natives[ids[i]];
          var entry := Limit(ids[i], client.settings.total, client.settings.enabled);
          JoinKeeps(joined, entry, AsConfigured(natives));
          joined := joined + [entry];
        }
      }
      return true, joined;
    }

    /**
     syncLandingAccount: finishes a pending plan, observes the clients, saves a new plan in
     one write and carries it out. `total` and `active` stand for the allocation.
     */
    method Sync(ids: seq<string>, total: string -> nat, active: string -> bool, expiry: int, names: set<string>,
                first: Environment, saved: Outcome, second: Environment, sync: RowSync) returns (v: Verdict)
      requires Valid()
      modifies this
      ensures Valid() && !v.Refused? && AllTraced(old(natives), natives, sync)
      ensures v.Succeeded? ==> (AllGranted(limits, natives) <==> RowsFit(limits, natives))
      ensures v.Succeeded? && (forall id :: total(id) == 0) ==> AllGranted(limits, natives)
      ensures v.Succeeded? ==> pending == [] && !blocked && Fulfilled(limits, natives, expiry) && Covered(limits, ids)
      ensures v.Succeeded? ==> forall i :: 0 <= i < |limits| ==>
                limits[i] == Limit(limits[i].id, total(limits[i].id), active(limits[i].id))
      ensures v.Succeeded? && old(pending) == [] && Covered(old(limits), ids) ==>
                limits == Planned(old(limits), total, active) && Carried(limits, old(natives), natives, sync)
      ensures (old(pending) == [] && Covered(old(limits), ids)
                && (forall i :: 0 <= i < |ids| ==> ids[i] in old(natives))
               && saved.Done? && Healthy(second)
               && Prepared(old(limits), total, active, names, old(natives), sync)) ==> v.Succeeded?
    {
      hide AllTraced, AllGranted, RowsFit, Fulfilled, Ledger, Carried, AllReady, Recorded, AsConfigured;
      ghost var was := natives;
      if pending != [] {
        v := ApplyPlan(names, first, sync);
        if !v.Succeeded? {
          return;
        }
      } else {
        TracedSelf(natives, sync);
      }
      ghost var mid := natives;
      var found, joined := Join(ids);
      if !found {
        v := Block(ids, first, sync);
        TracedTwice(was, mid, natives, sync);
        return;
      }
      v := Renew(joined, Planned(joined, total, active), expiry, names, saved, second, sync);
      TracedTwice(was, mid, natives, sync);
      if v.Succeeded? {
        SameIdentities(joined, limits, ids);
        if forall i :: 0 <= i < |limits| ==> limits[i].total == 0 {
          UnlimitedGranted(limits, natives, expiry);
        }
      }
    }

    /** Saves a plan over the identities that were found, and carries it out. */
    method Renew(joined: seq<Limit>, targets: seq<Limit>, expiry: int, names: set<string>, saved: Outcome,
        env: Environment, sync: RowSync)
      returns (v: Verdict)
      requires Valid() && Ledger(joined, [], AsConfigured(natives))
      requires |targets| == |joined| && forall i :: 0 <= i < |joined| ==> targets[i].id == joined[i].id
      modifies this
      ensures Valid() && !v.Refused? && AllTraced(old(natives), natives, sync)
      ensures v.Succeeded? ==>
                && pending == [] && !blocked && limits == targets && Fulfilled(limits, natives, expiry)
                && (AllGranted(limits, natives) <==> RowsFit(limits, natives))
                && Carried(limits, old(natives), natives, sync)
      ensures joined != [] && saved.Done? && Healthy(env) && Known(joined, targets)
              && AllReady(joined, targets, names, old(natives), sync) ==>
                v.Succeeded?
    {
      hide AllTraced, AllGranted, RowsFit, Fulfilled, Ledger, Carried, AllReady, Recorded, AsConfigured;
      TracedSelf(natives, sync);
      if joined == [] {
        return Errored;
      }
      PlanOpens(joined, targets, AsConfigured(natives));
      if Took(saved) {
        limits, pending, pendingExpiry, blocked := joined, targets, expiry, false;
      }
      if saved != Done {
        return Ending(saved);
      }
      v := ApplyPlan(names, env, sync);
    }

    /** Fails closed: remembers the block, then disables what it can. */
    method Block(ids: seq<string>, env: Environment, sync: RowSync) returns (v: Verdict)
      requires Valid()
      modifies this`blocked, this`natives
      ensures Valid() && (v.Errored? || v.Crashed?) && AllTraced(old(natives), natives, sync)
      ensures forall id :: id in natives && Effective(natives[id]) ==> natives[id] == old(natives)[id]
      ensures Healthy(env) ==> blocked && forall i :: 0 <= i < |ids| && ids[i] in natives ==>
                !Effective(natives[ids[i]])
    {
      hide Ledger, AllTraced, AsConfigured, Recorded;
      TracedSelf(natives, sync);
      if Took(env(0)) {
        blocked := true;
      }
      if env(0) != Done {
        return Ending(env(0));
      }
      for i := 0 to |ids|
        invariant Valid() && blocked && natives.Keys == old(natives).Keys && AllTraced(old(natives), natives, sync)
        invariant forall id :: id in natives && Effective(natives[id]) ==> natives[id] == old(natives)[id]
        invariant Healthy(env) ==> forall k :: 0 <= k < i && ids[k] in natives ==> !Effective(natives[ids[k]])
      {
        if env(i + 1).Killed? {
          return Crashed;
        }
        if ids[i] in natives {
          ghost var before := natives;
          var c := natives[ids[i]];
          var _ := Update(ids[i], c.settings.(enabled := false, expiry := 1, reset := 0), env(i + 1),
              sync(ids[i], i + 1));
          SilencedOne(before, natives, ids[i], c.settings.(enabled := false, expiry := 1, reset := 0), sync, i + 1);
          SilencedKeeps(limits, pending, AsConfigured(before), AsConfigured(natives));
          TracedTwice(old(natives), before, natives, sync);
        }
      }
      return Errored;
    }
  }

  /** The allocation over the recorded identities. */
  function Planned(limits: seq<Limit>, total: string -> nat, active: string -> bool): seq<Limit> {
    seq(|limits|, i requires 0 <= i < |limits| => Limit(limits[i].id, total(limits[i].id), active(limits[i].id)))
  }

  /** The plan that is about to be made can be carried out. */
  ghost predicate Prepared(limits: seq<Limit>, total: string -> nat, active: string -> bool, names: set<string>,
      natives: Natives, sync: RowSync) {
    var targets := Planned(limits, total, active);
    limits != [] && Known(limits, targets) && AllReady(limits, targets, names, natives, sync)
  }

  function Checkpoint(target: Limit): Entry {
    Entry(target.total, false, 1, 0)
  }

  predicate Pauses(c: Client, target: Limit, expiry: int) {
    target.enabled && !FieldsMatch(c, target, expiry) && (c.settings.enabled || (c.row.Some? && c.row.value.enabled))
  }

  function Paused(c: Client, target: Limit, expiry: int, synced: bool): Client {
    if Pauses(c, target, expiry) then Written(c, Checkpoint(target), synced) else c
  }

  /** What a client that was read as `c` looks like once it has been rewritten. */
  ghost predicate Rewritten(c: Client, now: Client, target: Limit, expiry: int, sync: RowSync) {
    && MainMatches(now, target, expiry) && now.settings.enabled == target.enabled
    && (Follows(sync, target.id) ==> RowConfirms(now, target, expiry) || now.row.None?)
    && (FitsBefore(c, target) ==> FitsBefore(now, target))
  }

  lemma MovedTwice(first: Natives, mid: Natives, last: Natives, target: Limit)
    requires Moved(first, mid, target) && Moved(mid, last, target)
    ensures Moved(first, last, target)
  {
  }

  /** An update that submits what the settings already say does not reach the row. */
  function Written(c: Client, entry: Entry, synced: bool): Client {
    c.(settings := entry, row := if synced && entry != c.settings then Some(entry) else c.row)
  }

  function Switched(c: Client, on: bool, synced: bool): Client {
    var entry := c.settings.(enabled := on);
    c.(settings := entry,
       row := if !synced then c.row else if c.row.None? then Some(entry) else Some(c.row.value.(enabled := on)))
  }

  predicate NoneEffective(limits: seq<Limit>, natives: Natives) {
    forall i :: 0 <= i < |limits| && limits[i].id in natives ==> !Effective(natives[limits[i].id])
  }

  lemma BlockedMeansOff(pending: seq<Limit>, blocked: bool, natives: Natives, expiry: int)
    requires Fulfilled(Targets(pending, blocked), natives, expiry)
    ensures blocked ==> NoneEffective(Targets(pending, blocked), natives)
  {
  }

  predicate Covered(limits: seq<Limit>, ids: seq<string>) {
    forall i :: 0 <= i < |ids| ==> ids[i] in Recorded(limits)
  }

  lemma SameIdentities(limits: seq<Limit>, targets: seq<Limit>, ids: seq<string>)
    requires |targets| == |limits| && Covered(limits, ids)
    requires forall i :: 0 <= i < |limits| ==> targets[i].id == limits[i].id
    ensures Covered(targets, ids)
  {
    forall i | 0 <= i < |ids| ensures ids[i] in Recorded(targets) {
      RecordedEntry(limits, ids[i]);
      var k :| 0 <= k < |limits| && limits[k] == Recorded(limits)[ids[i]];
      RecordedKeys(targets, k);
    }
  }

  /** Some clients were disabled; nothing else happened to any. */
  predicate Silenced(before: Natives, after: Natives) {
    && after.Keys == before.Keys
    && forall id :: id in after && Effective(after[id]) ==> after[id] == before[id]
  }

  lemma SilencedOne(before: Natives, after: Natives, id: string, entry: Entry, sync: RowSync, k: nat)
    requires id in before && !entry.enabled
    requires after == before || after == before[id := Written(before[id], entry, sync(id, k))]
    ensures Silenced(AsConfigured(before), AsConfigured(after)) && AllTraced(before, after, sync)
  {
  }

  lemma SilencedKeeps(limits: seq<Limit>, pending: seq<Limit>, before: Natives, after: Natives)
    requires Ledger(limits, pending, before) && Silenced(before, after)
    ensures Ledger(limits, pending, after)
  {
  }

  lemma RecordedJoin(limits: seq<Limit>, entry: Limit)
    ensures Recorded(limits + [entry]) == Recorded(limits)[entry.id := entry]
  {
  }

  lemma JoinDistinct(limits: seq<Limit>, entry: Limit)
    requires Distinct(limits) && entry.id !in Recorded(limits)
    ensures Distinct(limits + [entry])
  {
    forall i | 0 <= i < |limits| ensures limits[i].id != entry.id {
      RecordedKeys(limits, i);
    }
  }

  lemma JoinKeeps(limits: seq<Limit>, entry: Limit, natives: Natives)
    requires Ledger(limits, [], natives) && entry.id !in Recorded(limits)
    requires entry.id in natives && Enforced(natives[entry.id]) == entry.total
    ensures Ledger(limits + [entry], [], natives)
    ensures forall id :: id in Recorded(limits + [entry]) <==> id in Recorded(limits) || id == entry.id
  {
    hide Recorded, Effective, Enforced, Distinct;
    var all := limits + [entry];
    RecordedJoin(limits, entry);
    JoinDistinct(limits, entry);
    forall i | 0 <= i < |all| ensures all[i].id in Recorded(all) {
      assert i < |limits| ==> all[i] == limits[i];
    }
    forall i | 0 <= i < |all| && all[i].id in natives
      ensures Within(natives[all[i].id], Recorded(all)[all[i].id].total)
    {
      assert i < |limits| ==> all[i] == limits[i] && limits[i].id in Recorded(limits);
    }
  }

  /** A plan over the recorded identities starts from what is recorded. */
  lemma PlanOpens(limits: seq<Limit>, targets: seq<Limit>, natives: Natives)
    requires Ledger(limits, [], natives) && limits != [] && |targets| == |limits|
    requires forall i :: 0 <= i < |limits| ==> targets[i].id == limits[i].id
    ensures Ledger(limits, targets, natives)
  {
  }

  // ---------------------------------------------------------------- runs

  datatype Event =
    | Replay(names: set<string>, env: Environment, sync: RowSync)
    | Observe(ids: seq<string>, total: string -> nat, active: string -> bool, expiry: int, names: set<string>,
              first: Environment, saved: Outcome, second: Environment, sync: RowSync)
    | Fault(ids: seq<string>, env: Environment, sync: RowSync)

  /** No limit is ever spendable twice, by what the natives say. */
  ghost predicate NeverTwice(limits: seq<Limit>, pending: seq<Limit>, natives: Natives)
    requires Known(limits, pending)
  {
    pending != [] && Finite(limits, pending) ==>
      var spend := SpendSum(pending, natives);
      spend <= RecordedSum(limits, pending) || spend <= EnabledSum(pending)
  }

  ghost predicate Synchronous(event: Event) {
    InStep(event.sync)
  }

  /**
   However plans are saved, interrupted, replayed and blocked: as configured, the budget is never spendable
   twice; and what is enforced is no more than that whenever no row in force allows more than the settings of its
   client, which holds throughout if it holds first and rows follow their clients.
   */
  method Run(account: Account, events: seq<Event>)
    requires account.Valid()
    modifies account
    ensures account.Valid() && Known(account.limits, account.pending)
    ensures NeverTwice(account.limits, account.pending, AsConfigured(account.natives))
    ensures RowsSafe(account.natives) ==>
              Ledger(account.limits, account.pending, account.natives)
              && NeverTwice(account.limits, account.pending, account.natives)
    ensures old(RowsSafe(account.natives)) && (forall i :: 0 <= i < |events| ==> Synchronous(events[i])) ==>
              RowsSafe(account.natives)
  {
    hide Ledger, InStep, RowsSafe, AllTraced;
    for i := 0 to |events|
      invariant account.Valid()
      invariant old(RowsSafe(account.natives)) && (forall k :: 0 <= k < i ==> Synchronous(events[k])) ==>
                  RowsSafe(account.natives)
    {
      ghost var before := account.natives;
      Step(account, events[i]);
      if InStep(events[i].sync) && RowsSafe(before) {
        TracedSafe(before, account.natives, events[i].sync);
      }
    }
    NeverSpentTwice(account.limits, account.pending, AsConfigured(account.natives));
    if RowsSafe(account.natives) {
      EnforcedAsConfigured(account.limits, account.pending, account.natives);
      NeverSpentTwice(account.limits, account.pending, account.natives);
    }
  }

  lemma NeverSpentTwice(limits: seq<Limit>, pending: seq<Limit>, natives: Natives)
    requires Ledger(limits, pending, natives)
    ensures Known(limits, pending) && NeverTwice(limits, pending, natives)
  {
    if pending != [] && Finite(limits, pending) {
      NeverDoubleSpendable(limits, pending, natives);
    }
  }

  method Step(account: Account, event: Event)
    requires account.Valid()
    modifies account
    ensures account.Valid() && AllTraced(old(account.natives), account.natives, event.sync)
  {
    hide Ledger, AllTraced;
    match event {
      case Replay(names, env, sync) =>
        if account.pending != [] {
          var _ := account.ApplyPlan(names, env, sync);
        } else {
          TracedSelf(account.natives, sync);
        }
      case Observe(ids, total, active, expiry, names, first, saved, second, sync) =>
        var _ := account.Sync(ids, total, active, expiry, names, first, saved, second, sync);
      case Fault(ids, env, sync) =>
        var _ := account.Block(ids, env, sync);
    }
  }

  // ---------------------------------------------------------------- a row that does not follow

  /**
   The confirmation of a decrease does not look at the traffic row of an attached client. A saved plan with finite
   totals that moves 80 from one client to the other succeeds, the row of the first stays where it was, and 180 can
   be spent where 100 are recorded. `ApplyPlan` says exactly when, by the clients on entry.
   */
  method SpentTwice() returns (account: Account, v: Verdict)
    ensures fresh(account) && account.Valid() && v.Succeeded?
    ensures Known(account.limits, account.limits) && RecordedSum(account.limits, account.limits) == 100
    ensures SpendSum(account.limits, account.natives) == 180
  {
    hide *;
    Opens();
    account := new Account(TWO_LIMITS, TWO_TARGETS, 0, TWO_NATIVES);
    v := account.ApplyPlan({"a", "b"}, AllDone, OnlySecond);
    Stays(account.limits, account.natives);
  }

  const TWO_LIMITS := [Limit("a", 90, true), Limit("b", 10, true)]
  const TWO_TARGETS := [Limit("a", 10, true), Limit("b", 90, true)]
  const TWO_NATIVES: Natives := map["a" := Client(Entry(90, true, 0, 0), Some(Entry(90, true, 0, 0)), true),
                                    "b" := Client(Entry(10, true, 0, 0), Some(Entry(10, true, 0, 0)), true)]

  function AllDone(k: nat): Outcome { Done }

  function OnlySecond(id: string, k: nat): bool { id == "b" }

  lemma Opens()
    ensures Ledger(TWO_LIMITS, TWO_TARGETS, AsConfigured(TWO_NATIVES)) && TWO_TARGETS != [] && Healthy(AllDone)
    ensures Targets(TWO_TARGETS, false) == TWO_TARGETS && Known(TWO_LIMITS, TWO_TARGETS)
    ensures AllReady(TWO_LIMITS, TWO_TARGETS, {"a", "b"}, TWO_NATIVES, OnlySecond)
  {
    TwoRecorded(TWO_LIMITS);
  }

  /** The first client keeps its row, and the second gets what the first should have lost. */
  lemma Stays(limits: seq<Limit>, natives: Natives)
    requires limits == TWO_TARGETS && Fulfilled(limits, natives, 0)
    requires AllTraced(TWO_NATIVES, natives, OnlySecond) && Carried(limits, TWO_NATIVES, natives, OnlySecond)
    ensures Known(limits, limits) && RecordedSum(limits, limits) == 100 && SpendSum(limits, natives) == 180
  {
    TwoRecorded(limits);
    TwoSums(limits, natives);
    assert Stale(OnlySecond, "a") && Follows(OnlySecond, "b");
    assert AsTargeted(natives["a"], limits[0], 0) && AsTargeted(natives["b"], limits[1], 0);
    assert Traced(TWO_NATIVES["a"], natives["a"], OnlySecond, "a");
    assert CarriedOne(limits[1], TWO_NATIVES["b"], natives["b"], OnlySecond);
  }

  lemma TwoRecorded(limits: seq<Limit>)
    requires |limits| == 2 && limits[0].id == "a" && limits[1].id == "b"
    ensures Recorded(limits) == map["a" := limits[0], "b" := limits[1]]
    ensures Distinct(limits) && Known(limits, limits)
  {
    var one := limits[..1];
    assert limits[..|limits| - 1] == one && one == [limits[0]] && one[..|one| - 1] == [];
    assert Recorded(one) == map["a" := limits[0]];
  }

  lemma TwoSums(limits: seq<Limit>, natives: Natives)
    requires |limits| == 2 && limits[0].id == "a" && limits[1].id == "b" && Known(limits, limits)
    requires Recorded(limits) == map["a" := limits[0], "b" := limits[1]]
    ensures RecordedSum(limits, limits) == limits[0].total + limits[1].total
    ensures SpendSum(limits, natives) == Spend(natives, "a") + Spend(natives, "b")
  {
    var one := limits[..1];
    assert limits[..|limits| - 1] == one && one == [limits[0]] && one[..|one| - 1] == [];
    assert Known(limits, one) && RecordedSum(limits, one) == limits[0].total;
    assert SpendSum(one, natives) == Spend(natives, "a");
  }
}
