/**
 Limits of one shared traffic account (internal/agent/landing_quota.go,
 internal/landing/quota.go:20-24).

 A native client is kept in two layers: the settings (client record and entry
 settings) and, where it is observed, the traffic row that enforces them. A total of
 zero means unlimited. What a client may spend is what its row says, not what its
 settings say; `AsConfigured` is the panel as it would be if every row had followed.
 */
module QuotaLedger {
  import opened Prelude

  datatype Limit = Limit(id: string, total: nat, enabled: bool)

  datatype Entry = Entry(total: nat, enabled: bool, expiry: int, reset: int)

  datatype Client = Client(settings: Entry, row: Option<Entry>, attached: bool)

  type Natives = map<string, Client>

  // ---------------------------------------------------------------- what a client may spend

  predicate Effective(c: Client) {
    c.settings.enabled && (c.row.Some? ==> c.row.value.enabled)
  }

  /** The total that is enforced: the row's where there is one. */
  function Enforced(c: Client): nat {
    if c.row.Some? then c.row.value.total else c.settings.total
  }

  /** The client cannot spend more than a total. */
  predicate Within(c: Client, total: nat) {
    Effective(c) ==> total == 0 || 0 < Enforced(c) <= total
  }

  /** The client cannot spend more than a target grants. */
  predicate Granted(c: Client, target: Limit) {
    Effective(c) ==> target.enabled && Within(c, target.total)
  }

  /** The client with its row at the total of its settings. */
  function Configured(c: Client): Client {
    c.(row := if c.row.None? then None else Some(c.row.value.(total := c.settings.total)))
  }

  function AsConfigured(natives: Natives): Natives {
    map id | id in natives :: Configured(natives[id])
  }

  /** A row in force allows no more than the settings. */
  predicate RowSafe(c: Client) {
    Effective(c) && c.row.Some? ==> c.settings.total == 0 || 0 < c.row.value.total <= c.settings.total
  }

  predicate RowsSafe(natives: Natives) {
    forall id :: id in natives ==> RowSafe(natives[id])
  }

  /**
   Whatever limit the settings respect is respected by what is enforced, exactly when the row allows no more than they
   do.
   */
  lemma RowSafeExactly(c: Client)
    ensures RowSafe(c) <==> forall total: nat :: Within(Configured(c), total) ==> Within(c, total)
  {
    if !RowSafe(c) {
      assert Within(Configured(c), c.settings.total) && !Within(c, c.settings.total);
    }
  }

  // ---------------------------------------------------------------- what the code decides

  predicate Decreases(former: Limit, target: Limit) {
    !target.enabled || (target.total > 0 && (former.total == 0 || target.total < former.total))
  }

  predicate FieldsMatch(c: Client, target: Limit, expiry: int) {
    && c.row.Some?
    && (target.enabled ==> c.row.value.total == target.total && c.row.value.expiry == expiry && c.row.value.reset == 0)
  }

  predicate RowConfirms(c: Client, target: Limit, expiry: int) {
    FieldsMatch(c, target, expiry) && c.row.value.enabled == target.enabled
  }

  predicate SettingsConfirm(c: Client, target: Limit, expiry: int) {
    c.attached && c.settings == Entry(target.total, target.enabled, expiry, 0)
  }

  predicate Confirmed(c: Client, target: Limit, expiry: int) {
    RowConfirms(c, target, expiry) || SettingsConfirm(c, target, expiry)
  }

  predicate MainMatches(c: Client, target: Limit, expiry: int) {
    c.settings.total == target.total && c.settings.expiry == expiry && c.settings.reset == 0
  }

  /** What a confirmed target means for the client. */
  predicate Met(c: Client, target: Limit, expiry: int) {
    c.settings.total == target.total && c.settings.expiry == expiry && Confirmed(c, target, expiry)
  }

  /** A confirmed target is granted as far as the settings go. */
  lemma MetIsGranted(c: Client, target: Limit, expiry: int)
    requires Met(c, target, expiry)
    ensures Granted(Configured(c), target)
  {
  }

  /** A row in force allows no more than the target. */
  predicate RowFits(c: Client, target: Limit) {
    Effective(c) && c.row.Some? ==> target.total == 0 || 0 < c.row.value.total <= target.total
  }

  /** A confirmed target is granted as far as the traffic row, which the confirmation need not look at, fits it. */
  lemma MetGrants(c: Client, target: Limit, expiry: int)
    requires Met(c, target, expiry)
    ensures Granted(c, target) <==> RowFits(c, target)
  {
  }

  /** The client is read as targeted and is not written. */
  predicate AsTargeted(c: Client, target: Limit, expiry: int) {
    MainMatches(c, target, expiry) && Confirmed(c, target, expiry)
  }

  /** An enabled row allows no more than an enabled target. */
  predicate FitsBefore(c: Client, target: Limit) {
    target.enabled && c.row.Some? && c.row.value.enabled ==> target.total == 0 || 0 < c.row.value.total <= target.total
  }

  /**
   A confirmed client is enabled exactly as its target says, exactly when the target is off or no row disagrees with
   the settings.
   */
  lemma MetExactly(c: Client, target: Limit, expiry: int)
    requires Met(c, target, expiry)
    ensures (Effective(c) <==> target.enabled) <==>
              (!target.enabled || c.row.None? || c.row.value.enabled == c.settings.enabled)
  {
  }

  /** Where they disagree the confirmation can accept a client that stays disabled. */
  lemma ConfirmedButDisabled(target: Limit, expiry: int)
    requires target.enabled
    ensures var row := Entry(target.total, true, expiry, 0);
            var c := Client(row.(enabled := false), Some(row), true);
            Met(c, target, expiry) && !Effective(c)
  {
  }

  // ---------------------------------------------------------------- plans

  ghost predicate Distinct(limits: seq<Limit>) {
    forall i, j :: 0 <= i < j < |limits| ==> limits[i].id != limits[j].id
  }

  /** The recorded limit of each identity; a later entry wins. */
  function Recorded(limits: seq<Limit>): map<string, Limit> {
    if limits == [] then map[]
    else
      var last := limits[|limits| - 1];
      Recorded(limits[..|limits| - 1])[last.id := last]
  }

  predicate Known(limits: seq<Limit>, targets: seq<Limit>) {
    forall i :: 0 <= i < |targets| ==> targets[i].id in Recorded(limits)
  }

  lemma {:induction false} RecordedKeys(limits: seq<Limit>, i: int)
    requires 0 <= i < |limits|
    ensures limits[i].id in Recorded(limits)
  {
    if i < |limits| - 1 {
      RecordedKeys(limits[..|limits| - 1], i);
    }
  }

  lemma {:induction false} RecordedEntry(limits: seq<Limit>, id: string)
    requires id in Recorded(limits)
    ensures Recorded(limits)[id].id == id
    ensures exists i :: 0 <= i < |limits| && limits[i] == Recorded(limits)[id]
  {
    if limits != [] {
      var front := limits[..|limits| - 1];
      if limits[|limits| - 1].id != id {
        RecordedEntry(front, id);
        var i :| 0 <= i < |front| && front[i] == Recorded(front)[id];
        assert limits[i] == Recorded(limits)[id];
      } else {
        assert limits[|limits| - 1] == Recorded(limits)[id];
      }
    }
  }

  /** No identity can spend more than was recorded for it. */
  predicate AllWithin(limits: seq<Limit>, targets: seq<Limit>, natives: Natives)
    requires Known(limits, targets)
  {
    forall i :: 0 <= i < |targets| && targets[i].id in natives ==>
      Within(natives[targets[i].id], Recorded(limits)[targets[i].id].total)
  }

  /** No identity can spend more than it is about to be given. */
  predicate AllGranted(targets: seq<Limit>, natives: Natives) {
    forall i :: 0 <= i < |targets| && targets[i].id in natives ==> Granted(natives[targets[i].id], targets[i])
  }

  /**
   The invariant of the account. While a plan is pending, either nobody exceeds the old
   limits or nobody exceeds the new ones: budget is never released and still spendable.
   */
  ghost predicate Ledger(limits: seq<Limit>, pending: seq<Limit>, natives: Natives) {
    && Distinct(limits) && Known(limits, limits)
    && Distinct(pending) && Known(limits, pending)
    && if pending == [] then AllWithin(limits, limits, natives)
       else AllWithin(limits, pending, natives) || AllGranted(pending, natives)
  }

  function Stopped(target: Limit): Limit {
    target.(enabled := false)
  }

  /** The targets in force: a blocked account gets every identity disabled. */
  function Targets(pending: seq<Limit>, blocked: bool): seq<Limit> {
    if blocked then seq(|pending|, i requires 0 <= i < |pending| => Stopped(pending[i])) else pending
  }

  // ---------------------------------------------------------------- sums

  function Spend(natives: Natives, id: string): int {
    if id in natives && Effective(natives[id]) then Enforced(natives[id]) else 0
  }

  function SpendSum(targets: seq<Limit>, natives: Natives): int {
    if targets == [] then 0 else SpendSum(targets[..|targets| - 1], natives) + Spend(natives, targets[|targets| - 1].id)
  }

  function RecordedSum(limits: seq<Limit>, targets: seq<Limit>): int
    requires Known(limits, targets)
  {
    if targets == [] then 0
    else RecordedSum(limits, targets[..|targets| - 1]) + Recorded(limits)[targets[|targets| - 1].id].total
  }

  function EnabledSum(targets: seq<Limit>): int {
    if targets == [] then 0
    else EnabledSum(targets[..|targets| - 1])
         + (if targets[|targets| - 1].enabled then targets[|targets| - 1].total else 0)
  }

  predicate Finite(limits: seq<Limit>, targets: seq<Limit>)
    requires Known(limits, targets)
  {
    forall i :: 0 <= i < |targets| ==>
        Recorded(limits)[targets[i].id].total > 0 && (targets[i].enabled ==> targets[i].total > 0)
  }

  lemma {:induction false} WithinSum(limits: seq<Limit>, targets: seq<Limit>, natives: Natives)
    requires Known(limits, targets) && Finite(limits, targets) && AllWithin(limits, targets, natives)
    ensures SpendSum(targets, natives) <= RecordedSum(limits, targets)
  {
    if targets != [] {
      WithinSum(limits, targets[..|targets| - 1], natives);
    }
  }

  lemma {:induction false} GrantedSum(limits: seq<Limit>, targets: seq<Limit>, natives: Natives)
    requires Known(limits, targets) && Finite(limits, targets) && AllGranted(targets, natives)
    ensures SpendSum(targets, natives) <= EnabledSum(targets)
  {
    if targets != [] {
      GrantedSum(limits, targets[..|targets| - 1], natives);
    }
  }

  /** Shared budget is never spendable twice. */
  lemma NeverDoubleSpendable(limits: seq<Limit>, pending: seq<Limit>, natives: Natives)
    requires Ledger(limits, pending, natives) && pending != [] && Finite(limits, pending)
    ensures SpendSum(pending, natives) <= RecordedSum(limits, pending)
              || SpendSum(pending, natives) <= EnabledSum(pending)
  {
    if AllWithin(limits, pending, natives) {
      WithinSum(limits, pending, natives);
    } else {
      GrantedSum(limits, pending, natives);
    }
  }

  /** What holds of the settings holds of what is enforced, where the rows allow no more than the settings. */
  lemma EnforcedAsConfigured(limits: seq<Limit>, pending: seq<Limit>, natives: Natives)
    requires Ledger(limits, pending, AsConfigured(natives)) && RowsSafe(natives)
    ensures Ledger(limits, pending, natives)
  {
    var configured := AsConfigured(natives);
    hide Distinct, Recorded, Known;
    forall id, total: nat | id in natives && Within(configured[id], total) ensures Within(natives[id], total) {
      assert RowSafe(natives[id]);
    }
    assert forall id :: id in natives ==> Effective(configured[id]) == Effective(natives[id]);
  }

  // ---------------------------------------------------------------- the two passes

  /** A decrease may be written at any time. */
  lemma DecreaseIsWithin(c: Client, former: Limit, target: Limit)
    requires Decreases(former, target) && Granted(c, target)
    ensures Within(c, former.total)
  {
  }

  /** What is not a decrease grants at least what was recorded. */
  lemma RecordedIsGranted(c: Client, former: Limit, target: Limit)
    requires !Decreases(former, target) && Within(c, former.total)
    ensures Granted(c, target)
  {
  }

  /** All decreases among the first targets are in force. */
  predicate Lowered(limits: seq<Limit>, targets: seq<Limit>, natives: Natives, n: int)
    requires Known(limits, targets) && 0 <= n <= |targets|
  {
    forall i :: 0 <= i < n && targets[i].id in natives && Decreases(Recorded(limits)[targets[i].id], targets[i]) ==>
      Granted(natives[targets[i].id], targets[i])
  }

  /** Once every decrease is in force the released budget may be given out. */
  lemma SwitchOver(limits: seq<Limit>, targets: seq<Limit>, natives: Natives)
    requires Known(limits, targets) && AllWithin(limits, targets, natives)
    requires Lowered(limits, targets, natives, |targets|)
    ensures AllGranted(targets, natives)
  {
    hide Within, Granted, Decreases;
    forall i | 0 <= i < |targets| && targets[i].id in natives ensures Granted(natives[targets[i].id], targets[i]) {
      var former := Recorded(limits)[targets[i].id];
      if !Decreases(former, targets[i]) {
        RecordedIsGranted(natives[targets[i].id], former, targets[i]);
      }
    }
  }

  /** All decreased rows fit their targets. */
  predicate DecreasesFit(limits: seq<Limit>, targets: seq<Limit>, natives: Natives)
    requires Known(limits, targets)
  {
    forall i :: 0 <= i < |targets| && targets[i].id in natives
                 && Decreases(Recorded(limits)[targets[i].id], targets[i]) ==>
      RowFits(natives[targets[i].id], targets[i])
  }

  /**
   After the first pass has confirmed every decrease, what is enforced respects the new limits exactly when
   the rows of the decreased clients fit them.
   */
  lemma ReleasedExactly(limits: seq<Limit>, targets: seq<Limit>, natives: Natives, expiry: int)
    requires Known(limits, targets) && AllWithin(limits, targets, natives)
               && Reached(limits, targets, natives, expiry, true, |targets|)
    ensures AllGranted(targets, natives) <==> DecreasesFit(limits, targets, natives)
  {
    hide Within, Granted, Decreases, Met, RowFits;
    forall i | 0 <= i < |targets| && Decreases(Recorded(limits)[targets[i].id], targets[i])
      ensures targets[i].id in natives
                && (Granted(natives[targets[i].id], targets[i]) <==> RowFits(natives[targets[i].id], targets[i]))
    {
      MetGrants(natives[targets[i].id], targets[i], expiry);
    }
    if DecreasesFit(limits, targets, natives) {
      SwitchOver(limits, targets, natives);
    }
  }

  /** Nothing happened to any other client. */
  predicate Only(before: Natives, after: Natives, id: string) {
    after.Keys == before.Keys && forall other :: other in before && other != id ==> after[other] == before[other]
  }

  /** Only one client changed, and its settings changed to what a target grants. */
  predicate Moved(before: Natives, after: Natives, target: Limit) {
    && Only(before, after, target.id)
    && (target.id in before ==> after[target.id] == before[target.id] || Granted(Configured(after[target.id]), target))
  }

  lemma MovedKeepsGranted(targets: seq<Limit>, before: Natives, after: Natives, k: int)
    requires 0 <= k < |targets| && Distinct(targets) && AllGranted(targets, AsConfigured(before))
               && Moved(before, after, targets[k])
    ensures AllGranted(targets, AsConfigured(after))
  {
    hide Granted, Configured;
  }

  lemma MovedKeepsWithin(limits: seq<Limit>, targets: seq<Limit>, before: Natives, after: Natives, k: int)
    requires 0 <= k < |targets| && Distinct(targets) && Known(limits, targets)
    requires AllWithin(limits, targets, AsConfigured(before)) && Moved(before, after, targets[k])
    requires Decreases(Recorded(limits)[targets[k].id], targets[k])
    ensures AllWithin(limits, targets, AsConfigured(after))
  {
    hide Within, Granted, Configured, Decreases;
    var id := targets[k].id;
    if id in after && Granted(Configured(after[id]), targets[k]) {
      DecreaseIsWithin(Configured(after[id]), Recorded(limits)[id], targets[k]);
    }
  }

  lemma TargetsForm(limits: seq<Limit>, pending: seq<Limit>, blocked: bool)
    requires Distinct(pending) && Known(limits, pending)
    ensures var targets := Targets(pending, blocked);
            Distinct(targets) && Known(limits, targets)
  {
  }

  /** One step of a plan keeps the invariant: a decrease always, an increase once all decreases are in force. */
  lemma StepKeeps(limits: seq<Limit>, pending: seq<Limit>, blocked: bool, before: Natives, after: Natives, k: int)
    requires Ledger(limits, pending, AsConfigured(before)) && 0 <= k < |pending|
    requires Moved(before, after, Targets(pending, blocked)[k])
    requires Decreases(Recorded(limits)[pending[k].id], Targets(pending, blocked)[k])
               || AllGranted(pending, AsConfigured(before))
    ensures Ledger(limits, pending, AsConfigured(after))
    ensures AllGranted(pending, AsConfigured(before)) ==> AllGranted(pending, AsConfigured(after))
  {
    hide AllGranted, AllWithin, Recorded, Configured;
    assert Moved(before, after, pending[k]);
    if AllGranted(pending, AsConfigured(before)) {
      MovedKeepsGranted(pending, before, after, k);
    } else if blocked {
      StoppedKeepsWithin(limits, pending, before, after, k);
    } else {
      MovedKeepsWithin(limits, pending, before, after, k);
    }
  }

  lemma StoppedKeepsWithin(limits: seq<Limit>, targets: seq<Limit>, before: Natives, after: Natives, k: int)
    requires 0 <= k < |targets| && Distinct(targets) && Known(limits, targets)
    requires AllWithin(limits, targets, AsConfigured(before)) && Moved(before, after, Stopped(targets[k]))
    ensures AllWithin(limits, targets, AsConfigured(after))
  {
  }

  /** Which targets a finished part of a plan has confirmed. */
  predicate Reached(limits: seq<Limit>, targets: seq<Limit>, natives: Natives, expiry: int, lower: bool, n: int)
    requires Known(limits, targets) && 0 <= n <= |targets|
  {
    forall i :: 0 <= i < n && Decreases(Recorded(limits)[targets[i].id], targets[i]) == lower ==>
      targets[i].id in natives && AsTargeted(natives[targets[i].id], targets[i], expiry)
  }

  lemma ReachedStays(limits: seq<Limit>, targets: seq<Limit>, before: Natives, after: Natives, expiry: int,
      lower: bool, n: int, k: int)
    requires Known(limits, targets) && Distinct(targets) && 0 <= n <= |targets| && 0 <= k < |targets|
    requires Reached(limits, targets, before, expiry, lower, n) && Moved(before, after, targets[k])
    requires n <= k || Decreases(Recorded(limits)[targets[k].id], targets[k]) != lower
    ensures Reached(limits, targets, after, expiry, lower, n)
  {
  }

  lemma ReachedLowered(limits: seq<Limit>, pending: seq<Limit>, blocked: bool, natives: Natives, expiry: int)
    requires Ledger(limits, pending, AsConfigured(natives))
    requires var targets := Targets(pending, blocked);
             Known(limits, targets) && Reached(limits, targets, natives, expiry, true, |targets|)
    ensures blocked || AllGranted(pending, AsConfigured(natives))
  {
    if !blocked && pending != [] {
      hide Within, Granted, Decreases, Met, Configured;
      var configured := AsConfigured(natives);
      forall i | 0 <= i < |pending| && pending[i].id in configured
          && Decreases(Recorded(limits)[pending[i].id], pending[i])
        ensures Granted(configured[pending[i].id], pending[i])
      {
        MetIsGranted(natives[pending[i].id], pending[i], expiry);
      }
      if AllWithin(limits, pending, configured) {
        SwitchOver(limits, pending, configured);
      }
    }
  }

  lemma {:induction false} RecordedSelf(limits: seq<Limit>, i: int)
    requires Distinct(limits) && 0 <= i < |limits|
    ensures limits[i].id in Recorded(limits) && Recorded(limits)[limits[i].id] == limits[i]
  {
    var front := limits[..|limits| - 1];
    if i < |limits| - 1 {
      assert front[i] == limits[i];
      RecordedSelf(front, i);
      assert limits[i].id != limits[|limits| - 1].id;
    }
  }

  /**
   With unlimited totals, which is what the allocator plans, a plan that is carried out is in force whatever the rows
   say.
   */
  lemma UnlimitedGranted(targets: seq<Limit>, natives: Natives, expiry: int)
    requires Fulfilled(targets, natives, expiry) && forall i :: 0 <= i < |targets| ==> targets[i].total == 0
    ensures AllGranted(targets, natives)
  {
    forall i | 0 <= i < |targets| ensures Granted(natives[targets[i].id], targets[i]) {
      MetGrants(natives[targets[i].id], targets[i], expiry);
    }
  }

  /** All targets confirmed: the plan may be recorded, and it is in force exactly when every row fits. */
  lemma PlanRecorded(limits: seq<Limit>, targets: seq<Limit>, natives: Natives, expiry: int)
    requires Distinct(targets) && Known(limits, targets)
    requires Reached(limits, targets, natives, expiry, true, |targets|)
               && Reached(limits, targets, natives, expiry, false, |targets|)
    ensures Ledger(targets, [], AsConfigured(natives)) && Fulfilled(targets, natives, expiry)
    ensures AllGranted(targets, natives) <==> RowsFit(targets, natives)
  {
    hide Met, Granted, Within, Configured, RowFits;
    forall i | 0 <= i < |targets|
      ensures targets[i].id in natives && AsTargeted(natives[targets[i].id], targets[i], expiry)
      ensures targets[i].id in Recorded(targets) && Recorded(targets)[targets[i].id] == targets[i]
      ensures Granted(Configured(natives[targets[i].id]), targets[i])
      ensures Granted(natives[targets[i].id], targets[i]) <==> RowFits(natives[targets[i].id], targets[i])
    {
      assert Decreases(Recorded(limits)[targets[i].id], targets[i]) == true
          || Decreases(Recorded(limits)[targets[i].id], targets[i]) == false;
      RecordedSelf(targets, i);
      MetIsGranted(natives[targets[i].id], targets[i], expiry);
      MetGrants(natives[targets[i].id], targets[i], expiry);
    }
    GrantedWithin(targets, AsConfigured(natives));
  }

  lemma GrantedWithin(limits: seq<Limit>, natives: Natives)
    requires Known(limits, limits) && AllGranted(limits, natives)
    requires forall i :: 0 <= i < |limits| ==> Recorded(limits)[limits[i].id] == limits[i]
    ensures AllWithin(limits, limits, natives)
  {
  }

  predicate Fulfilled(targets: seq<Limit>, natives: Natives, expiry: int) {
    forall i :: 0 <= i < |targets| ==>
        targets[i].id in natives && AsTargeted(natives[targets[i].id], targets[i], expiry)
  }

  predicate RowsFit(targets: seq<Limit>, natives: Natives) {
    forall i :: 0 <= i < |targets| && targets[i].id in natives ==> RowFits(natives[targets[i].id], targets[i])
  }
}
