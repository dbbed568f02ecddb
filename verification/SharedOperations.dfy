/**
 Operations on a shared account (internal/agent/landing_client_lifecycle.go:19-159) and the
 counters of its members (internal/agent/landing_quota.go:36-81, internal/landing/quota.go:53-71).

 A command is delivered until it is answered, so it may arrive many times and be cut off
 anywhere. The ghost log holds what was done to the account: `Applied` when a plan effect
 was saved, `Completed` when an operation was recorded as finished. A second one holds the
 resets of its traffic, by operations and by the end of a period.
 */
module SharedOperations {
  import opened Prelude

  datatype Action = Update | SetEnabled | ResetTraffic | Delete

  /** A command without its key; the fingerprint covers exactly this. */
  datatype Content = Content(action: Action, parent: string, email: string, newEmail: string, total: int, expiry: int,
                             resetDays: int, enabled: bool, entries: seq<int>, limit: int)

  datatype Command = Command(key: string, content: Content)

  datatype Member = Member(id: string, baseline: int, observed: int)

  datatype Account = Account(id: string, email: string, total: int, expiry: int, resetDays: int, enabled: bool,
      deleted: bool,
                             blocked: bool, members: seq<Member>, pending: string, last: string,
                                 digest: Option<Content>)

  /** What only operations decide; the period's expiry and the counters move on by themselves. */
  datatype Plan = Plan(email: string, total: int, resetDays: int, enabled: bool, deleted: bool)

  function PlanOf(a: Account): Plan {
    Plan(a.email, a.total, a.resetDays, a.enabled, a.deleted)
  }

  function ResetMembers(members: seq<Member>): seq<Member> {
    seq(|members|, i requires 0 <= i < |members| => members[i].(baseline := members[i].observed))
  }

  /** The plan effect of an operation. */
  function Effect(a: Account, c: Content): Account {
    match c.action
    case Update => a.(email := c.newEmail, total := c.total, expiry := c.expiry, resetDays := c.resetDays)
    case SetEnabled => a.(enabled := c.enabled)
    case ResetTraffic => a.(members := ResetMembers(a.members))
    case Delete => a.(enabled := false, deleted := true)
  }

  /** Traffic of the current period: what was observed since each member's baseline. */
  function Used(members: seq<Member>): int {
    if members == [] then 0
    else
      var last := members[|members| - 1];
      Used(members[..|members| - 1]) + (last.observed - last.baseline)
  }

  lemma {:induction false} ResetClears(members: seq<Member>)
    ensures var r := ResetMembers(members);
            && Used(r) == 0 && |r| == |members|
            && forall i :: 0 <= i < |r| ==> r[i].id == members[i].id && r[i].observed == members[i].observed
  {
    if members != [] {
      ResetClears(members[..|members| - 1]);
      assert ResetMembers(members)[..|members| - 1] == ResetMembers(members[..|members| - 1]);
    }
  }

  /** What an operation asked for is what the account says right after its effect. */
  predicate Shows(a: Account, c: Content) {
    && !a.blocked
    && match c.action
       case Update => a.email == c.newEmail && a.total == c.total && a.expiry == c.expiry && a.resetDays == c.resetDays
       case SetEnabled => a.enabled == c.enabled
       case ResetTraffic => Used(a.members) == 0
       case Delete => a.deleted && !a.enabled
  }

  function PlanEffect(p: Plan, c: Content): Plan {
    match c.action
    case Update => p.(email := c.newEmail, total := c.total, resetDays := c.resetDays)
    case SetEnabled => p.(enabled := c.enabled)
    case ResetTraffic => p
    case Delete => p.(enabled := false, deleted := true)
  }

  // ---------------------------------------------------------------- a synchronization

  datatype Counter = Counter(id: string, value: int)

  /** What a synchronization finds: the counters of the account's identities, and the time. */
  datatype Finding = Finding(counters: seq<Counter>, now: int)

  predicate Holds(members: seq<Member>, id: string) {
    exists i :: 0 <= i < |members| && members[i].id == id
  }

  function ValueOf(counters: seq<Counter>, id: string): Option<int> {
    if counters == [] then None
    else if counters[0].id == id then Some(counters[0].value)
    else ValueOf(counters[1..], id)
  }

  /** Identities that are new to the account start at zero. */
  function Joined(members: seq<Member>, counters: seq<Counter>): seq<Member>
    decreases |counters|
  {
    if counters == [] then members
    else Joined(if Holds(members, counters[0].id) then members
        else members + [Member(counters[0].id, 0, 0)], counters[1..])
  }

  /** Every counter is there and none has fallen. */
  predicate Monotone(members: seq<Member>, counters: seq<Counter>) {
    forall i :: 0 <= i < |members| ==>
        ValueOf(counters, members[i].id).Some? && members[i].observed <= ValueOf(counters, members[i].id).value
  }

  function Observed(members: seq<Member>, counters: seq<Counter>): seq<Member>
    requires Monotone(members, counters)
  {
    seq(|members|, i requires 0 <= i < |members| => members[i].(observed := ValueOf(counters, members[i].id).value))
  }

  const DAY := 86_400_000

  predicate PeriodOver(a: Account, now: int) {
    a.enabled && 0 < a.resetDays && 0 < a.expiry <= now
  }

  function Renewal(expiry: int, resetDays: int, now: int): int
    requires 0 < resetDays
  {
    expiry + ((now - expiry) / (resetDays * DAY) + 1) * (resetDays * DAY)
  }

  /**
   The next period is the one that holds the present: whole periods later, over after now, within a period from now.
   */
  lemma RenewalReachesNow(expiry: int, resetDays: int, now: int) returns (n: int)
    requires 0 < resetDays && expiry <= now
    ensures n >= 1 && Renewal(expiry, resetDays, now) == expiry + n * (resetDays * DAY)
    ensures now < Renewal(expiry, resetDays, now) <= now + resetDays * DAY
  {
    var period := resetDays * DAY;
    n := (now - expiry) / period + 1;
    assert now - expiry == (n - 1) * period + (now - expiry) % period;
    assert n * period == (n - 1) * period + period;
  }

  /** What a synchronization saves: the counters moved on, and a period that is over begun anew. */
  function Synchronized(a: Account, f: Finding): Account {
    var members := Joined(a.members, f.counters);
    if !Monotone(members, f.counters) then a.(blocked := true)
    else
      var seen := a.(members := Observed(members, f.counters), blocked := false);
      if PeriodOver(a, f.now) then
          seen.(expiry := Renewal(a.expiry, a.resetDays, f.now), members := ResetMembers(seen.members))
      else seen
  }

  // ---------------------------------------------------------------- the resets

  datatype Cause = ByOperation(key: string) | ByPeriod(expiry: int, now: int)

  /** A reset and the counters it started from. */
  datatype Reset = Reset(cause: Cause, counters: map<string, int>)

  function Counters(members: seq<Member>): map<string, int> {
    if members == [] then map[]
    else Counters(members[..|members| - 1])[members[|members| - 1].id := members[|members| - 1].observed]
  }

  function Baselines(members: seq<Member>): map<string, int> {
    if members == [] then map[]
    else Baselines(members[..|members| - 1])[members[|members| - 1].id := members[|members| - 1].baseline]
  }

  /** The counters that use is counted from. */
  function Since(start: map<string, int>, resets: seq<Reset>): map<string, int> {
    if resets == [] then start else resets[|resets| - 1].counters
  }

  predicate Apart(members: seq<Member>) {
    forall i, j :: 0 <= i < j < |members| ==> members[i].id != members[j].id
  }

  predicate CountedFrom(m: Member, since: map<string, int>) {
    m.baseline == (if m.id in since then since[m.id] else 0)
  }

  /** Every member counts from the last reset, or from zero if it joined since. */
  predicate Metered(members: seq<Member>, since: map<string, int>) {
    && Apart(members)
    && (forall i :: 0 <= i < |members| ==> CountedFrom(members[i], since))
    && (forall id :: id in since ==> Holds(members, id))
  }

  /** The operations that reset the traffic, in order. */
  function ResetsDone(resets: seq<Reset>): seq<string> {
    if resets == [] then []
    else
      var rest, last := ResetsDone(resets[..|resets| - 1]), resets[|resets| - 1];
      if last.cause.ByOperation? then rest + [last.cause.key] else rest
  }

  function ResetsOrdered(log: seq<Entry>): seq<string> {
    if log == [] then []
    else
      var rest, last := ResetsOrdered(log[..|log| - 1]), log[|log| - 1];
      if last.Applied? && last.content.action.ResetTraffic? then rest + [last.key] else rest
  }

  /** Periods are begun anew only when they are over. */
  predicate WhenOver(resets: seq<Reset>) {
    forall i :: 0 <= i < |resets| && resets[i].cause.ByPeriod? ==> 0 < resets[i].cause.expiry <= resets[i].cause.now
  }

  /** What the counters of the account say about its resets. */
  predicate Accounted(members: seq<Member>, start: map<string, int>, resets: seq<Reset>, log: seq<Entry>) {
    Metered(members, Since(start, resets)) && ResetsDone(resets) == ResetsOrdered(log) && WhenOver(resets)
  }

  lemma {:induction false} JoinedKeeps(members: seq<Member>, counters: seq<Counter>, since: map<string, int>)
    requires Metered(members, since)
    ensures Metered(Joined(members, counters), since)
    decreases |counters|
  {
    if counters != [] {
      var id := counters[0].id;
      var next := if Holds(members, id) then members else members + [Member(id, 0, 0)];
      assert Metered(next, since) by {
        forall other | other in since ensures Holds(next, other) {
          var i :| 0 <= i < |members| && members[i].id == other;
          assert next[i].id == other;
        }
      }
      JoinedKeeps(next, counters[1..], since);
    }
  }

  lemma SameIds(members: seq<Member>, next: seq<Member>, since: map<string, int>)
    requires Metered(members, since) && |next| == |members|
    requires forall i :: 0 <= i < |members| ==> next[i].id == members[i].id && next[i].baseline == members[i].baseline
    ensures Metered(next, since)
  {
    forall id | id in since ensures Holds(next, id) {
      var i :| 0 <= i < |members| && members[i].id == id;
      assert next[i].id == id;
    }
  }

  lemma {:induction false} CountersAre(members: seq<Member>)
    requires Apart(members)
    ensures forall i :: 0 <= i < |members| ==>
              members[i].id in Counters(members) && Counters(members)[members[i].id] == members[i].observed
    ensures forall id :: id in Counters(members) ==> Holds(members, id)
  {
    if members != [] {
      var init := members[..|members| - 1];
      CountersAre(init);
      forall id | id in Counters(members) ensures Holds(members, id) {
        if id != members[|members| - 1].id {
          assert id in Counters(init);
          var i :| 0 <= i < |init| && init[i].id == id;
          assert members[i].id == id;
        }
      }
    }
  }

  lemma {:induction false} BaselinesAre(members: seq<Member>)
    requires Apart(members)
    ensures forall i :: 0 <= i < |members| ==>
              members[i].id in Baselines(members) && Baselines(members)[members[i].id] == members[i].baseline
    ensures forall id :: id in Baselines(members) ==> Holds(members, id)
  {
    if members != [] {
      var init := members[..|members| - 1];
      BaselinesAre(init);
      forall id | id in Baselines(members) ensures Holds(members, id) {
        if id != members[|members| - 1].id {
          assert id in Baselines(init);
          var i :| 0 <= i < |init| && init[i].id == id;
          assert members[i].id == id;
        }
      }
    }
  }

  /** A reset starts every member from its counter. */
  lemma ResetKeeps(members: seq<Member>, since: map<string, int>)
    requires Metered(members, since)
    ensures Metered(ResetMembers(members), Counters(members))
  {
    CountersAre(members);
    var r := ResetMembers(members);
    forall id | id in Counters(members) ensures Holds(r, id) {
      var i :| 0 <= i < |members| && members[i].id == id;
      assert r[i].id == id;
    }
  }

  lemma ResetMore(resets: seq<Reset>, r: Reset)
    requires WhenOver(resets) && (r.cause.ByPeriod? ==> 0 < r.cause.expiry <= r.cause.now)
    ensures WhenOver(resets + [r]) && Since(map[], resets + [r]) == r.counters
    ensures ResetsDone(resets + [r]) == if r.cause.ByOperation? then ResetsDone(resets) + [r.cause.key]
              else ResetsDone(resets)
  {
  }

  lemma OrderedMore(log: seq<Entry>, e: Entry)
    ensures ResetsOrdered(log + [e]) ==
            if e.Applied? && e.content.action.ResetTraffic? then ResetsOrdered(log) + [e.key] else ResetsOrdered(log)
  {
  }

  /** The reset, if any, that comes with a synchronization. */
  function Renewed(a: Account, f: Finding): seq<Reset> {
    var members := Joined(a.members, f.counters);
    if Monotone(members, f.counters)
        && PeriodOver(a, f.now) then [Reset(ByPeriod(a.expiry, f.now), Counters(Observed(members, f.counters)))] else []
  }

  lemma SynchronizedKeeps(a: Account, f: Finding, start: map<string, int>, resets: seq<Reset>, log: seq<Entry>)
    requires Accounted(a.members, start, resets, log)
    ensures Accounted(Synchronized(a, f).members, start, resets + Renewed(a, f), log)
  {
    var since := Since(start, resets);
    JoinedKeeps(a.members, f.counters, since);
    var joined := Joined(a.members, f.counters);
    hide Joined, Metered, ResetsOrdered, ResetsDone, WhenOver;
    if Monotone(joined, f.counters) {
      var seen := Observed(joined, f.counters);
      SameIds(joined, seen, since);
      if PeriodOver(a, f.now) {
        ResetKeeps(seen, since);
        ResetMore(resets, Reset(ByPeriod(a.expiry, f.now), Counters(seen)));
      } else {
        assert resets + [] == resets;
      }
    } else {
      assert resets + [] == resets;
    }
  }

  /** The reset, if any, that comes with an operation. */
  function Ordered(a: Account, c: Command): seq<Reset> {
    if c.content.action.ResetTraffic? then [Reset(ByOperation(c.key), Counters(a.members))] else []
  }

  lemma EffectKeeps(a: Account, c: Command, start: map<string, int>, resets: seq<Reset>, log: seq<Entry>)
    requires Accounted(a.members, start, resets, log)
    ensures Accounted(Effect(a, c.content).members, start, resets + Ordered(a, c), log + [Applied(c.key, c.content)])
  {
    OrderedMore(log, Applied(c.key, c.content));
    hide Metered, ResetsOrdered, ResetsDone, WhenOver;
    if c.content.action.ResetTraffic? {
      ResetKeeps(a.members, Since(start, resets));
      ResetMore(resets, Reset(ByOperation(c.key), Counters(a.members)));
    } else {
      assert resets + [] == resets;
    }
  }

  lemma CompletionKeeps(members: seq<Member>, start: map<string, int>, resets: seq<Reset>, log: seq<Entry>, key: string)
    requires Accounted(members, start, resets, log)
    ensures Accounted(members, start, resets, log + [Completed(key)])
  {
    OrderedMore(log, Completed(key));
  }

  /** A renewed period is not over, and nothing is used of it yet. */
  lemma RenewedStarts(a: Account, f: Finding)
    requires Renewed(a, f) != []
    ensures var b := Synchronized(a, f);
            PeriodOver(a, f.now) && f.now < b.expiry <= f.now + b.resetDays * DAY && Used(b.members) == 0
  {
    var _ := RenewalReachesNow(a.expiry, a.resetDays, f.now);
    ResetClears(Observed(Joined(a.members, f.counters), f.counters));
  }

  /** Everything the members were ever seen to transfer. */
  function Seen(members: seq<Member>): int {
    if members == [] then 0 else Seen(members[..|members| - 1]) + members[|members| - 1].observed
  }

  /** Every member has been seen at the counter that was found for it, and every identity that was found is a member. */
  ghost predicate Caught(members: seq<Member>, counters: seq<Counter>) {
    && (forall i :: 0 <= i < |members| ==>
          exists k :: 0 <= k < |counters| && counters[k] == Counter(members[i].id, members[i].observed))
    && (forall k :: 0 <= k < |counters| ==> Holds(members, counters[k].id))
  }

  lemma {:induction false} ValueFound(counters: seq<Counter>, id: string) returns (k: int)
    requires ValueOf(counters, id).Some?
    ensures 0 <= k < |counters| && counters[k] == Counter(id, ValueOf(counters, id).value)
  {
    if counters[0].id == id {
      k := 0;
    } else {
      k := ValueFound(counters[1..], id);
      k := k + 1;
    }
  }

  lemma HoldsMore(members: seq<Member>, next: seq<Member>, id: string)
    requires members <= next && Holds(members, id)
    ensures Holds(next, id)
  {
    var i :| 0 <= i < |members| && members[i].id == id;
    assert next[i].id == id;
  }

  lemma {:induction false} JoinedHolds(members: seq<Member>, counters: seq<Counter>)
    ensures members <= Joined(members, counters)
    ensures forall k :: 0 <= k < |counters| ==> Holds(Joined(members, counters), counters[k].id)
    ensures Seen(Joined(members, counters)) == Seen(members) && Used(Joined(members, counters)) == Used(members)
    decreases |counters|
  {
    if counters != [] {
      var added := members + [Member(counters[0].id, 0, 0)];
      assert added[..|added| - 1] == members && added[|members|].id == counters[0].id;
      var next := if Holds(members, counters[0].id) then members else added;
      var joined, rest := Joined(next, counters[1..]), counters[1..];
      JoinedHolds(next, rest);
      HoldsMore(next, joined, counters[0].id);
      forall k | 0 <= k < |counters| ensures Holds(joined, counters[k].id) {
        if k > 0 {
          assert rest[k - 1] == counters[k];
        }
      }
    }
  }

  /** Use grows by exactly what is seen to grow. */
  lemma {:induction false} UsedGrows(before: seq<Member>, after: seq<Member>)
    requires |before| == |after| && forall i :: 0 <= i < |before| ==> after[i].baseline == before[i].baseline
    ensures Used(after) - Used(before) == Seen(after) - Seen(before)
  {
    if before != [] {
      UsedGrows(before[..|before| - 1], after[..|after| - 1]);
    }
  }

  /** What a sound synchronization makes of the members. */
  lemma SynchronizedCatches(a: Account, f: Finding)
    requires Monotone(Joined(a.members, f.counters), f.counters)
    ensures Caught(Synchronized(a, f).members, f.counters)
    ensures !PeriodOver(a, f.now) ==>
              Used(Synchronized(a, f).members) == Used(a.members) + Seen(Synchronized(a, f).members) - Seen(a.members)
  {
    var joined := Joined(a.members, f.counters);
    var seen := Observed(joined, f.counters);
    JoinedHolds(a.members, f.counters);
    hide Joined, Used, Seen, Caught, Holds;
    UsedGrows(joined, seen);
    CaughtUp(joined, seen, f.counters);
    CaughtUp(joined, ResetMembers(seen), f.counters);
  }

  lemma CaughtUp(joined: seq<Member>, last: seq<Member>, counters: seq<Counter>)
    requires Monotone(joined, counters) && |last| == |joined|
    requires forall i :: 0 <= i < |joined| ==>
               last[i].id == joined[i].id && last[i].observed == ValueOf(counters, joined[i].id).value
    requires forall k :: 0 <= k < |counters| ==> Holds(joined, counters[k].id)
    ensures Caught(last, counters)
  {
    hide ValueOf;
    forall i | 0 <= i < |last|
      ensures exists k :: 0 <= k < |counters| && counters[k] == Counter(last[i].id, last[i].observed)
    {
      assert last[i].id == joined[i].id;
      var k := ValueFound(counters, last[i].id);
      assert counters[k] == Counter(last[i].id, last[i].observed);
    }
    forall k | 0 <= k < |counters| ensures Holds(last, counters[k].id) {
      var i :| 0 <= i < |joined| && joined[i].id == counters[k].id;
      assert last[i].id == counters[k].id;
    }
  }

  lemma SynchronizedPlan(a: Account, f: Finding)
    ensures var b := Synchronized(a, f);
            PlanOf(b) == PlanOf(a) && b.id == a.id && b.pending == a.pending && b.last == a.last && b.digest == a.digest
  {
  }

  // ---------------------------------------------------------------- the log

  datatype Entry = Applied(key: string, content: Content) | Completed(key: string)

  function Replayed(p: Plan, log: seq<Entry>): Plan {
    if log == [] then p
    else
      var rest, e := Replayed(p, log[..|log| - 1]), log[|log| - 1];
      if e.Applied? then PlanEffect(rest, e.content) else rest
  }

  /** Effects and completions alternate, and an effect never follows the completion of its own key. */
  predicate Orderly(log: seq<Entry>) {
    && (forall j :: 0 < j < |log| && log[j].Applied? ==> log[j - 1].Completed? && log[j - 1].key != log[j].key)
    && (forall j :: 0 <= j < |log| && log[j].Completed? ==> 0 < j && log[j - 1].Applied?)
  }

  /** One delivery history takes effect once, until another operation completes. */
  lemma OnceUntilAnother(log: seq<Entry>, i: int, j: int)
    requires Orderly(log) && 0 <= i < j < |log| && log[i].Applied? && log[j].Applied? && log[i].key == log[j].key
    ensures exists k :: i < k < j && log[k].Completed? && log[k].key != log[i].key
  {
    assert log[j - 1].Completed?;
    assert i < j - 1;
  }

  /** What the account's record says about its log. */
  predicate Ledger(a: Account, start: Plan, log: seq<Entry>) {
    && Orderly(log) && PlanOf(a) == Replayed(start, log)
    && (a.pending != "" ==> log != [] && a.digest.Some? && log[|log| - 1] == Applied(a.pending, a.digest.value))
    && (a.pending == "" && log != [] ==> log[|log| - 1] == Completed(a.last))
  }

  lemma EffectOnPlan(a: Account, c: Content)
    ensures PlanOf(Effect(a, c)) == PlanEffect(PlanOf(a), c)
  {
  }

  lemma EffectShows(a: Account, c: Command)
    ensures Shows(Effect(a, c.content).(blocked := false, pending := c.key, digest := Some(c.content)), c.content)
  {
    ResetClears(a.members);
    hide Used, ResetMembers;
  }

  lemma ReplayStep(p: Plan, log: seq<Entry>, e: Entry)
    ensures Replayed(p, log + [e]) == if e.Applied? then PlanEffect(Replayed(p, log), e.content) else Replayed(p, log)
  {
  }

  lemma OrderlyMore(log: seq<Entry>, e: Entry)
    requires Orderly(log)
    requires if e.Applied? then log == [] || (log[|log| - 1].Completed? && log[|log| - 1].key != e.key)
             else log != [] && log[|log| - 1].Applied?
    ensures Orderly(log + [e])
  {
  }

  lemma AppliedKeeps(a: Account, start: Plan, log: seq<Entry>, c: Command)
    requires Ledger(a, start, log) && a.pending == "" && c.key != "" && c.key != a.last
    ensures Ledger(Effect(a, c.content).(blocked := false, pending := c.key, digest := Some(c.content)), start,
              log + [Applied(c.key, c.content)])
  {
    EffectOnPlan(a, c.content);
    ReplayStep(start, log, Applied(c.key, c.content));
    OrderlyMore(log, Applied(c.key, c.content));
    hide Effect, PlanEffect, Replayed, Orderly;
  }

  lemma CompletedKeeps(a: Account, start: Plan, log: seq<Entry>, key: string)
    requires Ledger(a, start, log) && a.pending != ""
    ensures Ledger(a.(pending := "", last := key), start, log + [Completed(key)])
  {
  }

  // ---------------------------------------------------------------- the journal

  /** When a delivery is turned away. */
  predicate TurnsAway(a: Account, c: Command) {
    || c.content.parent == "" || c.key == "" || c.content.parent != a.id
    || (a.last == c.key && a.digest != Some(c.content))
    || (a.last != c.key && a.pending != "" && a.digest != Some(c.content))
    || (a.last != c.key && a.pending == "" && (a.deleted || a.email != c.content.email))
  }

  /** Every identity of the account has its counter and none has fallen. */
  predicate Sane(members: seq<Member>, f: Finding) {
    Monotone(Joined(members, f.counters), f.counters)
  }

  /** The account as an operation finds it. */
  function Before(a: Account, c: Command, f: Finding): Account {
    if c.content.action.Delete? then a else Synchronized(a, f)
  }

  /** Nothing about the counters is wrong during a delivery. */
  predicate Calm(a: Account, c: Command, first: Finding, second: Finding) {
    || c.content.action.Delete?
    || (a.pending != "" && Sane(a.members, second))
    || (a.pending == "" && Sane(a.members, first) && Sane(Effect(Synchronized(a, first), c.content).members, second))
  }

  /** The first counter of its identity. */
  ghost predicate First(counters: seq<Counter>, k: int) {
    0 <= k < |counters| && forall j :: 0 <= j < k ==> counters[j].id != counters[k].id
  }

  /** A counter that has not fallen below what was seen of this identity. */
  ghost predicate Standing(counters: seq<Counter>, id: string, seen: int) {
    exists k :: First(counters, k) && counters[k].id == id && seen <= counters[k].value
  }

  /** Every member still has its counter, and the counters of new identities start above zero. */
  ghost predicate Steady(members: seq<Member>, counters: seq<Counter>) {
    && (forall i :: 0 <= i < |members| ==> Standing(counters, members[i].id, members[i].observed))
    && (forall k :: First(counters, k) && counters[k].value < 0 ==>
          exists i :: 0 <= i < |members| && members[i].id == counters[k].id)
  }

  lemma {:induction false} ValueStands(counters: seq<Counter>, id: string, seen: int)
    ensures Standing(counters, id, seen) <==> ValueOf(counters, id).Some? && seen <= ValueOf(counters, id).value
    ensures forall k :: First(counters, k) && counters[k].id == id ==> ValueOf(counters, id) == Some(counters[k].value)
  {
    if counters != [] {
      var rest := counters[1..];
      ValueStands(rest, id, seen);
      if counters[0].id == id {
        assert First(counters, 0);
      } else {
        forall k | First(counters, k) && counters[k].id == id ensures First(rest, k - 1) {
          assert forall j :: 0 <= j < k - 1 ==> rest[j] == counters[j + 1];
        }
        forall k | First(rest, k) && rest[k].id == id ensures First(counters, k + 1) {
          assert forall j :: 0 < j <= k ==> counters[j] == rest[j - 1];
        }
        if Standing(counters, id, seen) {
          var k :| First(counters, k) && counters[k].id == id && seen <= counters[k].value;
          assert rest[k - 1] == counters[k];
        }
        if Standing(rest, id, seen) {
          var k :| First(rest, k) && rest[k].id == id && seen <= rest[k].value;
          assert counters[k + 1] == rest[k];
        }
      }
    }
  }

  /** The members stay, and every other identity joins at zero. */
  lemma {:induction false} JoinedAdds(members: seq<Member>, counters: seq<Counter>)
    ensures var joined := Joined(members, counters);
            && members <= joined
            && (forall i :: |members| <= i < |joined| ==>
                  joined[i].observed == 0 && !Holds(members, joined[i].id)
                  && exists k :: First(counters, k) && counters[k].id == joined[i].id)
    decreases |counters|
  {
    if counters != [] {
      var id, rest := counters[0].id, counters[1..];
      var next := if Holds(members, id) then members else members + [Member(id, 0, 0)];
      JoinedAdds(next, rest);
      assert Holds(next, id) by {
        assert !Holds(members, id) ==> next[|members|].id == id;
      }
      var joined := Joined(members, counters);
      forall i | |members| <= i < |joined|
        ensures joined[i].observed == 0 && !Holds(members, joined[i].id)
        ensures exists k :: First(counters, k) && counters[k].id == joined[i].id
      {
        if i < |next| {
          assert First(counters, 0);
        } else {
          JoinedLater(members, next, counters, joined[i].id);
        }
      }
    }
  }

  lemma JoinedLater(members: seq<Member>, next: seq<Member>, counters: seq<Counter>, id: string)
    requires counters != [] && members <= next && Holds(next, counters[0].id) && !Holds(next, id)
    requires exists k :: First(counters[1..], k) && counters[1..][k].id == id
    ensures !Holds(members, id)
    ensures exists k :: First(counters, k) && counters[k].id == id
  {
    var k :| First(counters[1..], k) && counters[1..][k].id == id;
    assert forall j :: 0 < j <= k ==> counters[j] == counters[1..][j - 1];
    assert First(counters, k + 1);
  }

  /** The check of a synchronization, counter by counter. */
  lemma SaneExactly(members: seq<Member>, f: Finding)
    ensures Sane(members, f) <==> Steady(members, f.counters)
  {
    hide Joined, ValueOf, First, Seen, Used;
    var joined := Joined(members, f.counters);
    JoinedAdds(members, f.counters);
    JoinedHolds(members, f.counters);
    forall i | 0 <= i < |joined|
      ensures Standing(f.counters, joined[i].id, joined[i].observed) <==>
              ValueOf(f.counters, joined[i].id).Some? && joined[i].observed <= ValueOf(f.counters, joined[i].id).value
    {
      ValueStands(f.counters, joined[i].id, joined[i].observed);
    }
    if Sane(members, f) {
      SaneIsSteady(members, joined, f.counters);
    }
    if Steady(members, f.counters) {
      SteadyIsSane(members, joined, f.counters);
    }
  }

  lemma SaneIsSteady(members: seq<Member>, joined: seq<Member>, counters: seq<Counter>)
    requires members <= joined && Monotone(joined, counters)
    requires forall i :: 0 <= i < |joined| ==> Standing(counters, joined[i].id, joined[i].observed)
    requires forall i :: |members| <= i < |joined| ==> joined[i].observed == 0
    requires forall k :: 0 <= k < |counters| ==> Holds(joined, counters[k].id)
    ensures Steady(members, counters)
  {
    forall i | 0 <= i < |members| ensures Standing(counters, members[i].id, members[i].observed) {
      assert members[i] == joined[i];
    }
    forall k | First(counters, k) && counters[k].value < 0
      ensures exists i :: 0 <= i < |members| && members[i].id == counters[k].id
    {
      var i :| 0 <= i < |joined| && joined[i].id == counters[k].id;
      ValueStands(counters, joined[i].id, joined[i].observed);
      assert i < |members|;
      assert members[i] == joined[i];
    }
  }

  lemma SteadyIsSane(members: seq<Member>, joined: seq<Member>, counters: seq<Counter>)
    requires members <= joined && Steady(members, counters)
    requires forall i :: |members| <= i < |joined| ==>
               joined[i].observed == 0 && !Holds(members, joined[i].id)
               && exists k :: First(counters, k) && counters[k].id == joined[i].id
    ensures Monotone(joined, counters)
  {
    hide ValueOf;
    forall i | 0 <= i < |joined|
      ensures ValueOf(counters, joined[i].id).Some? && joined[i].observed <= ValueOf(counters, joined[i].id).value
    {
      ValueStands(counters, joined[i].id, joined[i].observed);
      if i < |members| {
        assert joined[i] == members[i];
      } else {
        var k :| First(counters, k) && counters[k].id == joined[i].id;
        assert Standing(counters, joined[i].id, 0);
      }
    }
  }

  /** When the period of an account is begun anew. */
  ghost predicate Due(a: Account, now: int) {
    a.enabled && a.resetDays > 0 && a.expiry > 0 && a.expiry <= now
  }

  lemma Found(a: Account, f: Finding)
    ensures Sane(a.members, f) <==> Steady(a.members, f.counters)
    ensures Renewed(a, f) != [] <==> Steady(a.members, f.counters) && Due(a, f.now)
    ensures !Steady(a.members, f.counters) ==>
              Synchronized(a, f).blocked && Synchronized(a, f).members == a.members
              && Synchronized(a, f).expiry == a.expiry
    ensures Sane(a.members, f) ==>
              && !Synchronized(a, f).blocked && Caught(Synchronized(a, f).members, f.counters)
              && (!Due(a, f.now) ==>
                    Used(Synchronized(a, f).members) - Used(a.members)
                    == Seen(Synchronized(a, f).members) - Seen(a.members))
  {
    hide Used, Seen, Caught, Steady, Joined, Monotone, Counters;
    SaneExactly(a.members, f);
    if Sane(a.members, f) {
      SynchronizedCatches(a, f);
    }
  }

  lemma SamePlanKeeps(a: Account, b: Account, start: Plan, log: seq<Entry>)
    requires Ledger(a, start, log) && PlanOf(b) == PlanOf(a)
    requires b.pending == a.pending && b.last == a.last && b.digest == a.digest
    ensures Ledger(b, start, log)
  {
  }

  class Journal {
    var account: Account
    ghost const start: Plan
    ghost const bases: map<string, int>
    ghost var log: seq<Entry>
    ghost var resets: seq<Reset>

    ghost predicate Valid()
      reads this
    {
      Ledger(account, start, log) && Accounted(account.members, bases, resets, log)
    }

    constructor (a: Account)
      requires a.pending == "" && Apart(a.members)
      ensures Valid() && account == a && log == [] && resets == [] && start == PlanOf(a)
                && bases == Baselines(a.members)
    {
      account, start, log, bases, resets := a, PlanOf(a), [], Baselines(a.members), [];
      new;
      BaselinesAre(a.members);
    }

    /** syncLandingAccount as far as the account record goes; an anomaly blocks the account and is an error. */
    method Synchronize(f: Finding, o: Outcome) returns (v: Verdict)
      requires Valid()
      modifies this`account, this`resets
      ensures Valid() && !v.Refused?
      ensures account == if Took(o) then Synchronized(old(account), f) else old(account)
      ensures resets == if Took(o) then old(resets) + Renewed(old(account), f) else old(resets)
      ensures resets != old(resets) <==>
              Took(o) && Steady(old(account).members, f.counters) && Due(old(account), f.now)
      ensures resets != old(resets) ==>
                && f.now < account.expiry <= f.now + account.resetDays * DAY
                && Used(account.members) == 0
      ensures v.Succeeded? <==> o.Done? && Sane(old(account).members, f)
      ensures Sane(old(account).members, f) <==> Steady(old(account).members, f.counters)
      ensures Took(o) && !Steady(old(account).members, f.counters) ==>
                account.blocked && account.members == old(account).members && account.expiry == old(account).expiry
      ensures v.Succeeded? ==> !account.blocked && Caught(account.members, f.counters)
      ensures v.Succeeded? && !Due(old(account), f.now) ==>
                Used(account.members) == Used(old(account).members) + Seen(account.members) - Seen(old(account).members)
    {
      hide Synchronized, Accounted, Renewed, Sane, Steady, PeriodOver, Due, Used, Seen, Caught, Ledger;
      Found(account, f);
      SynchronizedKeeps(account, f, bases, resets, log);
      SynchronizedPlan(account, f);
      SamePlanKeeps(account, Synchronized(account, f), start, log);
      if Renewed(account, f) != [] {
        RenewedStarts(account, f);
      }
      var sound := Sane(account.members, f);
      if Took(o) {
        account, resets := Synchronized(account, f), resets + Renewed(account, f);
      }
      return if o.Done? && !sound then Errored else Ending(o);
    }

    /** One delivery. */
    method Deliver(c: Command, available: bool, first: Finding, second: Finding, env: Environment) returns (v: Verdict)
      requires Valid()
      modifies this`account, this`log, this`resets
      ensures Valid() && old(log) <= log && |log| <= |old(log)| + 2 && old(resets) <= resets
      ensures TurnsAway(old(account), c) ==>
                v.Refused? && account == old(account) && log == old(log) && resets == old(resets)
      ensures old(account).last == c.key && c.key != "" && c.content.parent == old(account).id != ""
                && old(account).digest == Some(c.content) ==>
                v.Succeeded? && account == old(account) && log == old(log) && resets == old(resets)
      ensures old(account).pending != "" && old(account).last != c.key ==> forall i :: |old(log)| <= i < |log| ==>
                log[i] == Completed(c.key)
      ensures v.Succeeded? ==>
                account.last == c.key && account.digest == Some(c.content) && (log == old(log) || account.pending == "")
      ensures v.Succeeded? && log != old(log) && old(account).pending == "" ==>
                log == old(log) + [Applied(c.key, c.content), Completed(c.key)]
      ensures old(account).pending != "" ==> forall i :: |old(resets)| <= i < |resets| ==> resets[i].cause.ByPeriod?
      ensures Healthy(env) && available && !TurnsAway(old(account), c) && Calm(old(account), c, first, second) ==>
                v.Succeeded?
    {
      hide Ledger, Effect, PlanEffect, Replayed, Orderly, Accounted;
      if c.content.parent == "" || c.key == "" || c.content.parent != account.id {
        return Refused;
      }
      if account.last == c.key {
        if account.digest != Some(c.content) {
          return Refused;
        }
        return Succeeded;
      }
      if account.pending != "" {
        if account.digest != Some(c.content) {
          return Refused;
        }
      } else {
        if account.deleted || account.email != c.content.email {
          return Refused;
        }
        v := Undertake(c, available, first, env);
        if !v.Succeeded? {
          return;
        }
      }
      v := Finish(c, second, env);
    }

    /** Synchronizes, then saves the new plan together with the operation that made it. */
    method Undertake(c: Command, available: bool, f: Finding, env: Environment) returns (v: Verdict)
      requires Valid() && account.pending == "" && c.key != "" && c.key != account.last
      modifies this`account, this`log, this`resets
      ensures Valid() && old(resets) <= resets
      ensures log == old(log) || log == old(log) + [Applied(c.key, c.content)]
      ensures account.pending != "" ==>
                log == old(log) + [Applied(c.key, c.content)] && account.pending == c.key
                && account.digest == Some(c.content)
      ensures account.pending == "" ==> log == old(log)
      ensures account.pending != "" ==> Shows(account, c.content)
      ensures v.Succeeded? ==> account.pending == c.key
      ensures PlanOf(account) == if account.pending == "" then old(PlanOf(account))
                else PlanEffect(old(PlanOf(account)), c.content)
      ensures v.Succeeded? ==> account.members == Effect(Before(old(account), c, f), c.content).members
      ensures Healthy(env) && available && (c.content.action.Delete? || Sane(old(account).members, f)) ==> v.Succeeded?
    {
      hide Effect, PlanEffect, Ledger, Shows, Accounted, Synchronized, Sane, Renewed, Ordered;
      if !c.content.action.Delete? {
        SynchronizedPlan(account, f);
        v := Synchronize(f, env(0));
        if !v.Succeeded? {
          return;
        }
      }
      if c.content.action.Update? && !available {
        return Errored;
      }
      AppliedKeeps(account, start, log, c);
      EffectKeeps(account, c, bases, resets, log);
      EffectOnPlan(account, c.content);
      EffectShows(account, c);
      if Took(env(1)) {
        resets, log := resets + Ordered(account, c), log + [Applied(c.key, c.content)];
        account := Effect(account, c.content).(blocked := false, pending := c.key, digest := Some(c.content));
      }
      return Ending(env(1));
    }

    /** Brings the panel in line and records the operation as finished. */
    method Finish(c: Command, f: Finding, env: Environment) returns (v: Verdict)
      requires Valid() && account.pending != "" && account.digest == Some(c.content)
      modifies this`account, this`log, this`resets
      ensures Valid() && old(resets) <= resets
      ensures log == old(log) || log == old(log) + [Completed(c.key)]
      ensures v.Succeeded? ==>
                log == old(log) + [Completed(c.key)] && account.pending == "" && account.last == c.key
                && account.digest == Some(c.content)
      ensures PlanOf(account) == old(PlanOf(account))
      ensures forall i :: |old(resets)| <= i < |resets| ==> resets[i].cause.ByPeriod?
      ensures Healthy(env) && (c.content.action.Delete? || Sane(old(account).members, f)) ==> v.Succeeded?
    {
      hide Ledger, Accounted, Synchronized, Sane;
      if env(2) != Done {
        return Ending(env(2));
      }
      if !c.content.action.Delete? {
        SynchronizedPlan(account, f);
        v := Synchronize(f, env(3));
        if !v.Succeeded? {
          return;
        }
      }
      CompletedKeeps(account, start, log, c.key);
      CompletionKeeps(account.members, bases, resets, log, c.key);
      if Took(env(4)) {
        account := account.(pending := "", last := c.key);
        log := log + [Completed(c.key)];
      }
      return Ending(env(4));
    }
  }

  // ---------------------------------------------------------------- runs

  datatype Delivery = Delivery(command: Command, available: bool, first: Finding, second: Finding, env: Environment)

  /**
   However commands are delivered, repeated and cut off: the plan is the replay of the logged effects; two
   effects of one key have the completion of another key between them; and every member counts from the last
   logged reset, where the operations among the resets are exactly the logged ones.
   */
  method Run(journal: Journal, deliveries: seq<Delivery>)
    requires journal.Valid()
    modifies journal
    ensures journal.Valid() && old(journal.log) <= journal.log && old(journal.resets) <= journal.resets
    ensures PlanOf(journal.account) == Replayed(journal.start, journal.log)
    ensures forall i, j :: 0 <= i < j < |journal.log| && journal.log[i].Applied? && journal.log[j].Applied?
                            && journal.log[i].key == journal.log[j].key ==>
              exists k :: i < k < j && journal.log[k].Completed? && journal.log[k].key != journal.log[i].key
    ensures ResetsDone(journal.resets) == ResetsOrdered(journal.log) && WhenOver(journal.resets)
    ensures forall i :: 0 <= i < |journal.account.members| ==>
              CountedFrom(journal.account.members[i], Since(journal.bases, journal.resets))
  {
    for n := 0 to |deliveries|
      invariant journal.Valid() && old(journal.log) <= journal.log && old(journal.resets) <= journal.resets
    {
      var d := deliveries[n];
      var _ := journal.Deliver(d.command, d.available, d.first, d.second, d.env);
    }
    forall i, j | 0 <= i < j < |journal.log| && journal.log[i].Applied? && journal.log[j].Applied?
        && journal.log[i].key == journal.log[j].key
      ensures exists k :: i < k < j && journal.log[k].Completed? && journal.log[k].key != journal.log[i].key
    {
      OnceUntilAnother(journal.log, i, j);
    }
  }
}
