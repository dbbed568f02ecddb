/**
 Accumulating the counters of a process that restarts
 (internal/agent/docker_executor_xray_worker.go:804-911).

 The Agent keeps, per counter, the last reading and an accumulated total. The ghost side
 is what the process really transferred: `past` in former lives, `cur` in this one.
 */
module TrafficCounters {
  import opened Prelude

  const MAX_INT64 := 0x7FFF_FFFF_FFFF_FFFF
  const MIN_INT64 := -0x8000_0000_0000_0000

  // ---------------------------------------------------------------- readings

  datatype Name = User(email: string, down: bool) | Inbound(tag: string, down: bool) | Other(text: string)

  /** A value as it stands in the response: a number, a text, or neither. */
  datatype Reading = Number(n: int) | Text(text: string) | Unreadable

  datatype Stat = Stat(name: Name, reading: Reading)

  predicate Digits(s: string) {
    s != [] && forall i :: 0 <= i < |s| ==> '0' <= s[i] <= '9'
  }

  function Magnitude(s: string): nat
    requires forall i :: 0 <= i < |s| ==> '0' <= s[i] <= '9'
  {
    if s == [] then 0 else 10 * Magnitude(s[..|s| - 1]) + (s[|s| - 1] - '0') as int
  }

  predicate Signed(s: string) {
    s != [] && (s[0] == '-' || s[0] == '+')
  }

  /** A decimal numeral, with or without a sign. */
  predicate Numeral(s: string) {
    Digits(if Signed(s) then s[1..] else s)
  }

  function NumeralValue(s: string): int
    requires Numeral(s)
  {
    var m: int := Magnitude(if Signed(s) then s[1..] else s);
    if s[0] == '-' then -m else m
  }

  /** strconv.ParseInt with its error ignored: zero without a numeral, the nearest bound out of range. */
  function ParseInt(s: string): (n: int)
    ensures MIN_INT64 <= n <= MAX_INT64
  {
    if !Numeral(s) then 0
    else
      var v := NumeralValue(s);
      if v > MAX_INT64 then MAX_INT64 else if v < MIN_INT64 then MIN_INT64 else v
  }

  /** Which texts are numerals, and what they are parsed to. */
  lemma ParsesExactly(digits: string)
    requires Digits(digits)
    ensures var m: int := Magnitude(digits);
            && ParseInt(digits) == (if m < 0x8000_0000_0000_0000 then m else 0x7FFF_FFFF_FFFF_FFFF)
            && ParseInt("+" + digits) == ParseInt(digits)
            && ParseInt("-" + digits) == (if m <= 0x8000_0000_0000_0000 then -m else -0x8000_0000_0000_0000)
  {
    assert ("+" + digits)[1..] == digits && ("-" + digits)[1..] == digits;
  }

  /** The counter a reading stands for; nothing when it is skipped. */
  function Decode(r: Reading): Option<nat> {
    match r
    case Number(n) => if 0 <= n <= MAX_INT64 then Some(n) else None
    case Text(s) => if ParseInt(s) >= 0 then Some(ParseInt(s)) else None
    case Unreadable => None
  }

  function Values(stats: seq<Stat>): map<Name, nat> {
    if stats == [] then map[]
    else
      var rest, last := Values(stats[..|stats| - 1]), stats[|stats| - 1];
      if Decode(last.reading).Some? then rest[last.name := Decode(last.reading).value] else rest
  }

  // ---------------------------------------------------------------- one counter

  /** A reading below the last one means a new process. */
  function Delta(last: nat, current: nat): nat {
    if current >= last then current - last else current
  }

  function Add(current: int, delta: int): Option<nat> {
    if current < 0 || delta < 0 || delta > MAX_INT64 - current then None else Some(current + delta)
  }

  /** `unbroken`: no restart since this counter was last read; `steady`: no restart at all. */
  datatype Truth = Truth(past: nat, cur: nat, unbroken: bool, steady: bool)

  function Total(t: Truth): nat {
    t.past + t.cur
  }

  /** What an accumulated total and a last reading say about the truth. */
  predicate Sound(acc: int, last: nat, t: Truth) {
    && (t.steady ==> t.unbroken && acc == t.past + last)
    && (if t.unbroken then last <= t.cur && 0 <= acc <= t.past + last else 0 <= acc <= t.past)
  }

  lemma NeverOver(acc: int, last: nat, t: Truth)
    requires Sound(acc, last, t)
    ensures acc <= Total(t)
  {
  }

  lemma ReadSound(acc: int, last: nat, t: Truth)
    requires Sound(acc, last, t)
    ensures Sound(acc + Delta(last, t.cur), t.cur, t.(unbroken := true))
    ensures t.steady ==> acc + Delta(last, t.cur) == Total(t)
  {
  }

  function Restarted(t: Truth): Truth {
    Truth(t.past + t.cur, 0, false, false)
  }

  lemma RestartSound(acc: int, last: nat, t: Truth)
    requires Sound(acc, last, t)
    ensures Sound(acc, last, Restarted(t)) && Total(Restarted(t)) == Total(t)
  {
  }

  /** After a restart the first reading is exact unless the new process has already caught up with the last reading. */
  lemma LossAfterRestart(acc: int, last: nat, t: Truth)
    requires !t.unbroken && acc == t.past
    ensures acc + Delta(last, t.cur) == Total(t) <==> t.cur < last || last == 0
    ensures t.cur >= last ==> acc + Delta(last, t.cur) == Total(t) - last
  {
  }

  /**
   A reading r that is not the counter: from an exact state the next true reading is exact again if and only if
   r lies between the last reading and the counter. Otherwise it counts traffic twice.
   */
  lemma WrongReading(past: nat, last: nat, cur: nat, r: nat)
    requires last <= cur
    ensures var acc := past + last + Delta(last, r) + Delta(r, cur);
            && (acc == past + cur <==> last <= r <= cur)
            && (acc > past + cur <==> r < last || r > cur)
  {
  }

  /**
   A text without a numeral is taken as a reading: the next true one counts exactly the last reading again, so it is
   harmless if and only if nothing had been read.
   */
  lemma TextWithoutNumeral(past: nat, last: nat, cur: nat, s: string)
    requires last <= cur && !Numeral(s)
    ensures Decode(Text(s)).Some?
    ensures var r := Decode(Text(s)).value;
            var acc := past + last + Delta(last, r) + Delta(r, cur);
            acc == past + cur + last && (acc == past + cur <==> last == 0)
  {
    WrongReading(past, last, cur, ParseInt(s));
  }

  /** Digits of a counter, as a process prints it. */
  function Decimal(n: nat): string {
    if n < 10 then [('0' as int + n) as char] else Decimal(n / 10) + [('0' as int + n % 10) as char]
  }

  lemma {:induction false} DecimalDigits(n: nat)
    ensures Digits(Decimal(n)) && Magnitude(Decimal(n)) == n
  {
    if n >= 10 {
      DecimalDigits(n / 10);
      var s := Decimal(n);
      assert s[..|s| - 1] == Decimal(n / 10);
    } else {
      var s := Decimal(n);
      assert s[..|s| - 1] == [];
    }
  }

  /** A printed counter reads back as itself. */
  lemma DecimalReads(n: nat)
    requires n <= MAX_INT64
    ensures Numeral(Decimal(n)) && Decode(Text(Decimal(n))) == Some(n)
  {
    DecimalDigits(n);
  }

  // ---------------------------------------------------------------- all counters

  datatype Usage = Usage(up: int, down: int)

  datatype Row = Row(tag: string, usage: Usage)

  datatype Counters = Counters(runtime: map<Name, nat>, accounts: map<string, Usage>, inbounds: seq<Row>)

  function Of(u: Usage, down: bool): int {
    if down then u.down else u.up
  }

  function AccountOf(accounts: map<string, Usage>, email: string): Usage {
    if email in accounts then accounts[email] else Usage(0, 0)
  }

  function Last(runtime: map<Name, nat>, name: Name): nat {
    if name in runtime then runtime[name] else 0
  }

  function Deltas(runtime: map<Name, nat>, values: map<Name, nat>): map<Name, nat> {
    map name | name in values :: Delta(Last(runtime, name), values[name])
  }

  function AddBoth(u: Usage, up: nat, down: nat): Option<Usage> {
    if Add(u.up, up).None? || Add(u.down, down).None? then None else Some(Usage(u.up + up, u.down + down))
  }

  /** Totals that a signed 64-bit counter can hold. */
  predicate Bounded(u: Usage) {
    0 <= u.up <= MAX_INT64 && 0 <= u.down <= MAX_INT64
  }

  predicate AllBounded(accounts: map<string, Usage>, inbounds: seq<Row>) {
    && (forall email :: email in accounts ==> Bounded(accounts[email]))
    && (forall i :: 0 <= i < |inbounds| ==> Bounded(inbounds[i].usage))
  }

  /** Every accumulated total is sound. */
  ghost predicate AllSound(runtime: map<Name, nat>, accounts: map<string, Usage>, inbounds: seq<Row>,
      truth: Name -> Truth) {
    && (forall email, down ::
        Sound(Of(AccountOf(accounts, email), down), Last(runtime, User(email, down)), truth(User(email, down))))
    && (forall i, down :: 0 <= i < |inbounds| ==>
          Sound(Of(inbounds[i].usage, down), Last(runtime, Inbound(inbounds[i].tag, down)),
              truth(Inbound(inbounds[i].tag, down))))
  }

  /** Every value that is not skipped is the counter of the running process. */
  ghost predicate Truthful(values: map<Name, nat>, truth: Name -> Truth) {
    forall name :: name in values ==> values[name] == truth(name).cur
  }

  /** The process prints its counter as a number or as text, or prints nothing of use. */
  predicate Printed(stat: Stat, n: nat) {
    stat.reading.Unreadable? || (n <= MAX_INT64 && (stat.reading == Number(n) || stat.reading == Text(Decimal(n))))
  }

  /** Responses that print counters are truthful. */
  lemma {:induction false} PrintedIsTruthful(stats: seq<Stat>, truth: Name -> Truth)
    requires AllPrinted(stats, truth)
    ensures Truthful(Values(stats), truth)
  {
    if stats != [] {
      var last := stats[|stats| - 1];
      PrintedIsTruthful(stats[..|stats| - 1], truth);
      if truth(last.name).cur <= MAX_INT64 {
        DecimalReads(truth(last.name).cur);
      }
    }
  }

  /** The response gives a value for this counter. */
  ghost predicate Reported(stats: seq<Stat>, name: Name) {
    exists i :: 0 <= i < |stats| && stats[i].name == name && !stats[i].reading.Unreadable?
  }

  /** The whole response prints the counters of the process. */
  ghost predicate AllPrinted(stats: seq<Stat>, truth: Name -> Truth) {
    forall i :: 0 <= i < |stats| ==> Printed(stats[i], truth(stats[i].name).cur)
  }

  lemma {:induction false} ReadingKept(stats: seq<Stat>, i: int)
    requires 0 <= i < |stats| && Decode(stats[i].reading).Some?
    ensures stats[i].name in Values(stats)
  {
    if i < |stats| - 1 {
      ReadingKept(stats[..|stats| - 1], i);
    }
  }

  /** Every counter that a printed response gives a value for is read, and read as it is. */
  lemma PrintedIsRead(stats: seq<Stat>, truth: Name -> Truth, name: Name)
    requires AllPrinted(stats, truth) && Reported(stats, name)
    ensures name in Values(stats) && Values(stats)[name] == truth(name).cur
  {
    PrintedIsTruthful(stats, truth);
    var i :| 0 <= i < |stats| && stats[i].name == name && !stats[i].reading.Unreadable?;
    assert Printed(stats[i], truth(name).cur);
    DecimalReads(truth(name).cur);
    ReadingKept(stats, i);
  }

  function Observed(truth: Name -> Truth, values: map<Name, nat>): Name -> Truth {
    (name: Name) => if name in values then truth(name).(unbroken := true) else truth(name)
  }

  /** One observation of one counter, read or not. */
  lemma ObservedSound(acc: int, runtime: map<Name, nat>, values: map<Name, nat>, truth: Name -> Truth, name: Name)
    requires Truthful(values, truth) && Sound(acc, Last(runtime, name), truth(name))
    ensures Sound(acc + Last(Deltas(runtime, values), name), Last(runtime + values, name),
              Observed(truth, values)(name))
    ensures name in values && truth(name).steady ==> acc + Last(Deltas(runtime, values), name) == Total(truth(name))
  {
    hide Sound, Delta;
    if name in values {
      ReadSound(acc, Last(runtime, name), truth(name));
    }
  }

  class Worker {
    var runtime: map<Name, nat>
    var accounts: map<string, Usage>
    var inbounds: seq<Row>
    // The process; the Agent sees it only through responses.
    var truth: Name -> Truth

    ghost predicate Valid()
      reads this
    {
      AllSound(runtime, accounts, inbounds, truth) && AllBounded(accounts, inbounds)
    }

    constructor (tags: seq<string>)
      ensures Valid() && accounts == map[] && |inbounds| == |tags|
      ensures forall name :: truth(name) == Truth(0, 0, true, true)
    {
      runtime, accounts := map[], map[];
      inbounds := seq(|tags|, i requires 0 <= i < |tags| => Row(tags[i], Usage(0, 0)));
      truth := _ => Truth(0, 0, true, true);
    }

    // -------------------------------------------------------------- the process

    method Transfer(name: Name, n: nat)
      modifies this`truth
      ensures old(Valid()) ==> Valid()
      ensures truth(name) == old(truth)(name).(cur := old(truth)(name).cur + n)
      ensures forall other :: other != name ==> truth(other) == old(truth)(other)
    {
      var was := truth;
      truth := other => if other == name then was(other).(cur := was(other).cur + n) else was(other);
    }

    method Restart()
      modifies this`truth
      ensures old(Valid()) ==> Valid()
      ensures forall name :: truth(name) == Restarted(old(truth)(name))
    {
      var was := truth;
      truth := name => Restarted(was(name));
      if AllSound(runtime, accounts, inbounds, was) {
        RestartKeeps(runtime, accounts, inbounds, was, truth);
      }
    }

    // -------------------------------------------------------------- the observation

    method Read(stats: seq<Stat>) returns (values: map<Name, nat>)
      ensures values == Values(stats)
    {
      values := map[];
      for i := 0 to |stats|
        invariant values == Values(stats[..i])
      {
        assert stats[..i + 1][..i] == stats[..i];
        var value := Decode(stats[i].reading);
        if value.Some? {
          values := values[stats[i].name := value.value];
        }
      }
      assert stats[..|stats|] == stats;
    }

    method Advance(values: map<Name, nat>) returns (deltas: map<Name, nat>, next: map<Name, nat>)
      ensures deltas == Deltas(runtime, values) && next == runtime + values
    {
      deltas, next := map[], runtime;
      var todo := values.Keys;
      while todo != {}
        invariant todo <= values.Keys
        invariant deltas.Keys == values.Keys - todo && forall name :: name in deltas ==>
                    deltas[name] == Delta(Last(runtime, name), values[name])
        invariant next.Keys == runtime.Keys + (values.Keys - todo)
        invariant forall name :: name in next ==>
                    next[name] == if name in values && name !in todo then values[name] else runtime[name]
      {
        var name :| name in todo;
        deltas := deltas[name := Delta(Last(runtime, name), values[name])];
        next := next[name := values[name]];
        todo := todo - {name};
      }
    }

    /** Credits every account that was seen; fails instead of leaving the range of a counter. */
    method CreditAccounts(deltas: map<Name, nat>) returns (r: Option<map<string, Usage>>)
      requires forall email :: email in accounts ==> Bounded(accounts[email])
      ensures r.Some? ==> forall email :: AccountOf(r.value, email) == Charged(accounts, deltas, email)
      ensures r.Some? ==> forall email :: email in r.value ==> Bounded(r.value[email])
      ensures r.None? ==> exists email :: AccountOverflows(accounts, deltas, email)
    {
      var next := accounts;
      var todo := set name | name in deltas && name.User? :: name.email;
      ghost var seen := todo;
      Unseen(accounts, deltas, seen);
      while todo != {}
        invariant todo <= seen
        invariant forall email :: email in todo ==> AccountOf(next, email) == AccountOf(accounts, email)
        invariant forall email :: email !in todo ==> AccountOf(next, email) == Charged(accounts, deltas, email)
        invariant forall email :: email in next ==> Bounded(next[email])
      {
        var email :| email in todo;
        var sum := AddBoth(AccountOf(next, email), Last(deltas, User(email, false)), Last(deltas, User(email, true)));
        if sum.None? {
          assert AccountOverflows(accounts, deltas, email);
          return None;
        }
        next := next[email := sum.value];
        todo := todo - {email};
      }
      return Some(next);
    }

    method CreditInbounds(deltas: map<Name, nat>) returns (r: Option<seq<Row>>)
      ensures r.Some? ==> |r.value| == |inbounds| && forall i :: 0 <= i < |inbounds| ==>
                Credited(inbounds[i], r.value[i], deltas) && Bounded(r.value[i].usage)
      ensures r.None? ==> exists i :: 0 <= i < |inbounds| && RowOverflows(inbounds[i], deltas)
    {
      var next: seq<Row> := [];
      for i := 0 to |inbounds|
        invariant |next| == i
        invariant forall k :: 0 <= k < i ==> Credited(inbounds[k], next[k], deltas) && Bounded(next[k].usage)
      {
        var row := inbounds[i];
        var sum := AddBoth(row.usage, Last(deltas, Inbound(row.tag, false)), Last(deltas, Inbound(row.tag, true)));
        if sum.None? {
          return None;
        }
        next := next + [Row(row.tag, sum.value)];
      }
      return Some(next);
    }

    /** What a response makes of the totals, whatever it says. */
    method Charge(stats: seq<Stat>) returns (r: Option<Counters>)
      requires AllBounded(accounts, inbounds)
      ensures r.None? <==> Exhausted(accounts, inbounds, Deltas(runtime, Values(stats)))
      ensures r.Some? ==> AllBounded(r.value.accounts, r.value.inbounds)
                          && AllCharged(Counters(runtime, accounts, inbounds), Values(stats), r.value)
    {
      hide Exhausted, Values, Deltas, Charged, Credited;
      var values := Read(stats);
      var deltas, next := Advance(values);
      var credited := CreditAccounts(deltas);
      if credited.None? {
        SomeExhausted(accounts, inbounds, deltas);
        return None;
      }
      var rows := CreditInbounds(deltas);
      if rows.None? {
        SomeExhausted(accounts, inbounds, deltas);
        return None;
      }
      NotExhausted(accounts, credited.value, inbounds, rows.value, deltas);
      return Some(Counters(next, credited.value, rows.value));
    }

    /** A response and the save of its result: what is charged for any response, and what that means for a true one. */
    method Observe(stats: seq<Stat>, saved: Outcome) returns (v: Verdict)
      requires AllBounded(accounts, inbounds)
      modifies this
      ensures AllBounded(accounts, inbounds)
      ensures forall name :: truth(name).cur == old(truth)(name).cur && truth(name).past == old(truth)(name).past
      ensures v.Refused? <==> Exhausted(old(accounts), old(inbounds), Deltas(old(runtime), Values(stats)))
      ensures v.Refused? || !Took(saved) ==>
                accounts == old(accounts) && inbounds == old(inbounds) && runtime == old(runtime)
      ensures !v.Refused? && Took(saved) ==>
                AllCharged(old(Counters(runtime, accounts, inbounds)), Values(stats),
                    Counters(runtime, accounts, inbounds))
      ensures old(Valid()) && Truthful(Values(stats), old(truth)) ==> Valid()
      ensures old(Valid()) && Truthful(Values(stats), old(truth)) && v.Succeeded? ==>
                ExactFor(Values(stats), accounts, inbounds, truth)
      ensures old(Valid()) && AllPrinted(stats, old(truth)) ==> Valid()
      ensures old(Valid()) && AllPrinted(stats, old(truth)) && v.Succeeded? ==>
                AllExact(stats, accounts, inbounds, truth)
    {
      hide AllSound, Truthful, Exhausted, AllExact, ExactFor, AllCharged, AllBounded, Values, Deltas, AllPrinted;
      if AllPrinted(stats, truth) {
        PrintedIsTruthful(stats, truth);
      }
      var charged := Charge(stats);
      if charged.None? {
        return Refused;
      }
      if Took(saved) {
        ghost var before, was := Counters(runtime, accounts, inbounds), truth;
        var values := Read(stats);
        runtime, accounts, inbounds := charged.value.runtime, charged.value.accounts, charged.value.inbounds;
        truth := Observed(truth, values);
        if AllSound(before.runtime, before.accounts, before.inbounds, was) && Truthful(values, was) {
          AllObserved(before, values, charged.value, was);
          if AllPrinted(stats, was) {
            PrintedIsExact(stats, accounts, inbounds, was, truth);
          }
        }
      }
      return Ending(saved);
    }
  }

  /**
   Every total has grown by what its counter grew, or by the whole counter where that fell; every reading is
   remembered.
   */
  ghost predicate AllCharged(before: Counters, values: map<Name, nat>, after: Counters) {
    && (forall email :: AccountOf(after.accounts, email) ==
                        Charged(before.accounts, Deltas(before.runtime, values), email))
    && |after.inbounds| == |before.inbounds|
    && (forall i :: 0 <= i < |before.inbounds| ==>
        Credited(before.inbounds[i], after.inbounds[i], Deltas(before.runtime, values)))
    && after.runtime == before.runtime + values
  }

  /** Totals of counters that were read and never restarted are what was transferred. */
  ghost predicate ExactFor(values: map<Name, nat>, accounts: map<string, Usage>, inbounds: seq<Row>,
      truth: Name -> Truth) {
    && (forall email, down :: User(email, down) in values && truth(User(email, down)).steady ==>
          Of(AccountOf(accounts, email), down) == Total(truth(User(email, down))))
    && (forall i, down :: 0 <= i < |inbounds| && Inbound(inbounds[i].tag, down) in values
                           && truth(Inbound(inbounds[i].tag, down)).steady ==>
          Of(inbounds[i].usage, down) == Total(truth(Inbound(inbounds[i].tag, down))))
  }

  /** Totals of counters that the response gives a value for and that never restarted are what was transferred. */
  ghost predicate AllExact(stats: seq<Stat>, accounts: map<string, Usage>, inbounds: seq<Row>, truth: Name -> Truth) {
    && (forall email, down :: Reported(stats, User(email, down)) && truth(User(email, down)).steady ==>
          Of(AccountOf(accounts, email), down) == Total(truth(User(email, down))))
    && (forall i, down :: 0 <= i < |inbounds| && Reported(stats, Inbound(inbounds[i].tag, down))
                           && truth(Inbound(inbounds[i].tag, down)).steady ==>
          Of(inbounds[i].usage, down) == Total(truth(Inbound(inbounds[i].tag, down))))
  }

  lemma PrintedIsExact(stats: seq<Stat>, accounts: map<string, Usage>, inbounds: seq<Row>, was: Name -> Truth,
                       truth: Name -> Truth)
    requires AllPrinted(stats, was) && ExactFor(Values(stats), accounts, inbounds, truth)
    ensures AllExact(stats, accounts, inbounds, truth)
  {
    hide Values, AllPrinted, Reported;
    forall name | Reported(stats, name) ensures name in Values(stats) {
      PrintedIsRead(stats, was, name);
    }
  }

  lemma SomeExhausted(accounts: map<string, Usage>, inbounds: seq<Row>, deltas: map<Name, nat>)
    requires (exists email :: AccountOverflows(accounts, deltas, email))
               || (exists i :: 0 <= i < |inbounds| && RowOverflows(inbounds[i], deltas))
    ensures Exhausted(accounts, inbounds, deltas)
  {
  }

  lemma AllObserved(before: Counters, values: map<Name, nat>, after: Counters, truth: Name -> Truth)
    requires AllCharged(before, values, after)
    requires AllSound(before.runtime, before.accounts, before.inbounds, truth) && Truthful(values, truth)
    ensures AllSound(after.runtime, after.accounts, after.inbounds, Observed(truth, values))
    ensures ExactFor(values, after.accounts, after.inbounds, Observed(truth, values))
  {
    AccountsObserved(before.accounts, after.accounts, before.runtime, values, truth);
    InboundsObserved(before.inbounds, after.inbounds, before.runtime, values, truth);
  }

  /** Credits that stay in range mean that nothing was exhausted. */
  lemma NotExhausted(accounts: map<string, Usage>, credited: map<string, Usage>, inbounds: seq<Row>, rows: seq<Row>,
      deltas: map<Name, nat>)
    requires AllBounded(accounts, inbounds) && AllBounded(credited, rows) && |rows| == |inbounds|
    requires forall email :: AccountOf(credited, email) == Charged(accounts, deltas, email)
    requires forall i :: 0 <= i < |inbounds| ==> Credited(inbounds[i], rows[i], deltas)
    ensures !Exhausted(accounts, inbounds, deltas)
  {
    forall email ensures !AccountOverflows(accounts, deltas, email) {
      assert AccountOf(credited, email) == Charged(accounts, deltas, email);
    }
    forall i | 0 <= i < |inbounds| ensures !RowOverflows(inbounds[i], deltas) {
      assert Credited(inbounds[i], rows[i], deltas);
    }
  }

  /** An account with its share of an observation. */
  function Charged(accounts: map<string, Usage>, deltas: map<Name, nat>, email: string): Usage {
    var u := AccountOf(accounts, email);
    Usage(u.up + Last(deltas, User(email, false)), u.down + Last(deltas, User(email, true)))
  }

  predicate AccountOverflows(accounts: map<string, Usage>, deltas: map<Name, nat>, email: string) {
    AddBoth(AccountOf(accounts, email), Last(deltas, User(email, false)), Last(deltas, User(email, true))).None?
  }

  lemma Unseen(accounts: map<string, Usage>, deltas: map<Name, nat>, seen: set<string>)
    requires seen == set name | name in deltas && name.User? :: name.email
    ensures forall email :: email !in seen ==> Charged(accounts, deltas, email) == AccountOf(accounts, email)
  {
  }

  predicate Credited(before: Row, after: Row, deltas: map<Name, nat>) {
    && after.tag == before.tag
    && after.usage.up == before.usage.up + Last(deltas, Inbound(before.tag, false))
    && after.usage.down == before.usage.down + Last(deltas, Inbound(before.tag, true))
  }

  predicate RowOverflows(row: Row, deltas: map<Name, nat>) {
    AddBoth(row.usage, Last(deltas, Inbound(row.tag, false)), Last(deltas, Inbound(row.tag, true))).None?
  }

  lemma RestartKeeps(runtime: map<Name, nat>, accounts: map<string, Usage>, inbounds: seq<Row>, was: Name -> Truth,
      now: Name -> Truth)
    requires AllSound(runtime, accounts, inbounds, was) && forall name :: now(name) == Restarted(was(name))
    ensures AllSound(runtime, accounts, inbounds, now)
  {
    forall email, down ensures Sound(Of(AccountOf(accounts, email), down), Last(runtime, User(email, down)),
        now(User(email, down))) {
      RestartSound(Of(AccountOf(accounts, email), down), Last(runtime, User(email, down)), was(User(email, down)));
    }
    forall i, down | 0 <= i < |inbounds|
      ensures Sound(Of(inbounds[i].usage, down), Last(runtime, Inbound(inbounds[i].tag, down)),
                now(Inbound(inbounds[i].tag, down)))
    {
      RestartSound(Of(inbounds[i].usage, down), Last(runtime, Inbound(inbounds[i].tag, down)),
          was(Inbound(inbounds[i].tag, down)));
    }
  }

  lemma AccountsObserved(before: map<string, Usage>, after: map<string, Usage>, runtime: map<Name, nat>,
      values: map<Name, nat>, truth: Name -> Truth)
    requires Truthful(values, truth)
    requires forall email, down ::
               Sound(Of(AccountOf(before, email), down), Last(runtime, User(email, down)), truth(User(email, down)))
    requires forall email :: AccountOf(after, email) == Charged(before, Deltas(runtime, values), email)
    ensures forall email, down ::
              && Sound(Of(AccountOf(after, email), down), Last(runtime + values, User(email, down)),
                  Observed(truth, values)(User(email, down)))
              && (User(email, down) in values && truth(User(email, down)).steady ==>
                  Of(AccountOf(after, email), down) == Total(truth(User(email, down))))
  {
    forall email, down
      ensures Sound(Of(AccountOf(after, email), down), Last(runtime + values, User(email, down)),
                Observed(truth, values)(User(email, down)))
      ensures User(email, down) in values && truth(User(email, down)).steady ==>
                Of(AccountOf(after, email), down) == Total(truth(User(email, down)))
    {
      assert AccountOf(after, email) == Charged(before, Deltas(runtime, values), email);
      ObservedSound(Of(AccountOf(before, email), down), runtime, values, truth, User(email, down));
    }
  }

  lemma InboundsObserved(before: seq<Row>, after: seq<Row>, runtime: map<Name, nat>, values: map<Name, nat>,
      truth: Name -> Truth)
    requires Truthful(values, truth) && |before| == |after|
    requires forall i, down :: 0 <= i < |before| ==>
               Sound(Of(before[i].usage, down), Last(runtime, Inbound(before[i].tag, down)),
               truth(Inbound(before[i].tag, down)))
    requires forall i :: 0 <= i < |before| ==> Credited(before[i], after[i], Deltas(runtime, values))
    ensures forall i, down :: 0 <= i < |after| ==>
              && Sound(Of(after[i].usage, down), Last(runtime + values, Inbound(after[i].tag, down)),
                  Observed(truth, values)(Inbound(after[i].tag, down)))
              && (Inbound(after[i].tag, down) in values && truth(Inbound(after[i].tag, down)).steady ==>
                  Of(after[i].usage, down) == Total(truth(Inbound(after[i].tag, down))))
  {
    forall i, down | 0 <= i < |after|
      ensures Sound(Of(after[i].usage, down), Last(runtime + values, Inbound(after[i].tag, down)),
                Observed(truth, values)(Inbound(after[i].tag, down)))
      ensures Inbound(after[i].tag, down) in values && truth(Inbound(after[i].tag, down)).steady ==>
                Of(after[i].usage, down) == Total(truth(Inbound(after[i].tag, down)))
    {
      assert Credited(before[i], after[i], Deltas(runtime, values));
      ObservedSound(Of(before[i].usage, down), runtime, values, truth, Inbound(before[i].tag, down));
    }
  }

  /** Some total would leave the range of a counter. */
  ghost predicate Exhausted(accounts: map<string, Usage>, inbounds: seq<Row>, deltas: map<Name, nat>) {
    || (exists email :: AccountOverflows(accounts, deltas, email))
    || (exists i :: 0 <= i < |inbounds| && RowOverflows(inbounds[i], deltas))
  }

  // ---------------------------------------------------------------- runs

  datatype Event = Traffic(name: Name, n: nat) | ProcessRestart | Observation(stats: seq<Stat>, saved: Outcome)

  /** The counter of the running process after the events, from `start`. */
  function CounterAfter(start: nat, events: seq<Event>, name: Name): nat {
    if events == [] then start
    else
      var before := CounterAfter(start, events[..|events| - 1], name);
      match events[|events| - 1]
      case Traffic(other, n) => if other == name then before + n else before
      case ProcessRestart => 0
      case Observation(_, _) => before
  }

  /** Every response prints the counters as they are at that point of the run. */
  ghost predicate PrintedThroughout(start: Name -> Truth, events: seq<Event>) {
    forall i :: 0 <= i < |events| && events[i].Observation? ==> PrintedThen(start, events[..i], events[i].stats)
  }

  ghost predicate PrintedThen(start: Name -> Truth, events: seq<Event>, stats: seq<Stat>) {
    forall k :: 0 <= k < |stats| ==> Printed(stats[k], CounterAfter(start(stats[k].name).cur, events, stats[k].name))
  }

  /**
   Every run keeps the totals in range. When every response printed the counters of the process,
   no account and no entry is charged more than was transferred.
   */
  method Run(worker: Worker, events: seq<Event>)
    requires worker.Valid()
    modifies worker
    ensures AllBounded(worker.accounts, worker.inbounds)
    ensures forall name :: worker.truth(name).cur == CounterAfter(old(worker.truth)(name).cur, events, name)
    ensures PrintedThroughout(old(worker.truth), events) ==> worker.Valid()
    ensures PrintedThroughout(old(worker.truth), events) ==>
              && (forall email, down ::
                  Of(AccountOf(worker.accounts, email), down) <= Total(worker.truth(User(email, down))))
              && (forall i, down :: 0 <= i < |worker.inbounds| ==>
                    Of(worker.inbounds[i].usage, down) <= Total(worker.truth(Inbound(worker.inbounds[i].tag, down))))
  {
    ghost var start := worker.truth;
    for i := 0 to |events|
      invariant AllBounded(worker.accounts, worker.inbounds)
      invariant forall name :: worker.truth(name).cur == CounterAfter(start(name).cur, events[..i], name)
      invariant PrintedThroughout(start, events) ==> worker.Valid()
    {
      assert events[..i + 1][..i] == events[..i];
      Step(worker, events[i], start, events[..i]);
    }
    assert events[..|events|] == events;
    if worker.Valid() {
      NeverCharged(worker.runtime, worker.accounts, worker.inbounds, worker.truth);
    }
  }

  method Step(worker: Worker, event: Event, ghost start: Name -> Truth, ghost past: seq<Event>)
    requires AllBounded(worker.accounts, worker.inbounds)
    requires forall name :: worker.truth(name).cur == CounterAfter(start(name).cur, past, name)
    modifies worker
    ensures AllBounded(worker.accounts, worker.inbounds)
    ensures forall name :: worker.truth(name).cur == CounterAfter(start(name).cur, past + [event], name)
    ensures old(worker.Valid()) && (event.Observation? ==> PrintedThen(start, past, event.stats)) ==> worker.Valid()
  {
    assert (past + [event])[..|past|] == past;
    match event {
      case Traffic(name, n) =>
        worker.Transfer(name, n);
      case ProcessRestart =>
        worker.Restart();
      case Observation(stats, saved) =>
        if PrintedThen(start, past, stats) {
          PrintedIsTruthful(stats, worker.truth);
        }
        var _ := worker.Observe(stats, saved);
    }
  }

  lemma NeverCharged(runtime: map<Name, nat>, accounts: map<string, Usage>, inbounds: seq<Row>, truth: Name -> Truth)
    requires AllSound(runtime, accounts, inbounds, truth)
    ensures forall email, down :: Of(AccountOf(accounts, email), down) <= Total(truth(User(email, down)))
    ensures forall i, down :: 0 <= i < |inbounds| ==>
              Of(inbounds[i].usage, down) <= Total(truth(Inbound(inbounds[i].tag, down)))
  {
    hide Sound;
    forall email, down ensures Of(AccountOf(accounts, email), down) <= Total(truth(User(email, down))) {
      NeverOver(Of(AccountOf(accounts, email), down), Last(runtime, User(email, down)), truth(User(email, down)));
    }
    forall i, down | 0 <= i < |inbounds|
      ensures Of(inbounds[i].usage, down) <= Total(truth(Inbound(inbounds[i].tag, down)))
    {
      NeverOver(Of(inbounds[i].usage, down), Last(runtime, Inbound(inbounds[i].tag, down)),
          truth(Inbound(inbounds[i].tag, down)));
    }
  }
}
