/**
 Resuming a service installation from its stored phase
 (cmd/vastora/agent_cmd.go:1000-1092, internal/agent/enrollment_operation.go:235-266).

 The log holds the host effects since the operation began. `Progress` is how far the
 prescribed order occurs in it; a stored phase never claims more.
 */
module InstallResume {
  import opened Prelude
  import opened Enrollment

  datatype Effect = WriteUnit | Reload | Enable | Start | Verify

  datatype UnitFile = Absent | Ours | Unrelated

  /** The effect that is due after n of them. */
  function Due(n: nat): Option<Effect> {
    match n
    case 0 => Some(WriteUnit)
    case 1 => Some(Reload)
    case 2 => Some(Enable)
    case 3 => Some(Start)
    case 4 => Some(Verify)
    case _ => None
  }

  /** How many of the effects occur in the log in their order. */
  function Progress(log: seq<Effect>): (n: nat)
    ensures n <= 5
  {
    if log == [] then 0
    else
      var n := Progress(log[..|log| - 1]);
      if Due(n) == Some(log[|log| - 1]) then n + 1 else n
  }

  lemma ProgressGrows(log: seq<Effect>, e: Effect)
    ensures Progress(log) <= Progress(log + [e])
    ensures Due(Progress(log)) == Some(e) ==> Progress(log + [e]) == Progress(log) + 1
  {
  }

  /** Five effects in order: there are positions for all of them, increasing. */
  ghost predicate InOrder(log: seq<Effect>, n: nat) {
    exists at: seq<nat> :: Positions(log, n, at)
  }

  ghost predicate Positions(log: seq<Effect>, n: nat, at: seq<nat>) {
    && |at| == n
    && (forall i :: 0 <= i < n ==> at[i] < |log| && Due(i) == Some(log[at[i]]))
    && (forall i, j :: 0 <= i < j < n ==> at[i] < at[j])
  }

  /** Progress means what it says. */
  lemma {:induction false} ProgressInOrder(log: seq<Effect>)
    ensures InOrder(log, Progress(log))
  {
    if log == [] {
      assert Positions(log, 0, []);
    } else {
      var front := log[..|log| - 1];
      ProgressInOrder(front);
      var n := Progress(front);
      var at: seq<nat> :| Positions(front, n, at);
      if Due(n) == Some(log[|log| - 1]) {
        assert Positions(log, n + 1, at + [|log| - 1]);
      } else {
        assert Positions(log, n, at);
      }
    }
  }

  class Installer {
    const store: Store
    var unit: UnitFile
    ghost var log: seq<Effect>

    ghost predicate Valid()
      reads this, store
    {
      && store.Valid()
      && (store.operation.Some? ==> Index(store.operation.value.phase) <= Progress(log) + 1)
    }

    constructor (s: Store, found: UnitFile)
      requires s.Valid() && s.operation.None?
      ensures Valid() && store == s && unit == found
    {
      store, unit, log := s, found, [];
    }

    /** A new operation starts a new log. */
    method Begin(options: Options, token: string, id: string, key: string, o: Outcome) returns (v: Verdict)
      requires Valid()
      modifies store, this`log
      ensures Valid()
      ensures old(store.operation).Some? ==> log == old(log) && store.operation == old(store.operation)
      ensures old(store.operation).None? ==> log == []
    {
      ghost var was := store.operation;
      v := store.Begin(options, token, id, key, o);
      if was.None? {
        log := [];
      }
    }

    method CompleteEnrollment(response: Response, tidy: Tidying, o: Outcome) returns (v: Verdict)
      requires Valid() && store.operation.Some?
      modifies store
      ensures Valid() && log == old(log)
    {
      v := store.CompleteEnrollment(store.operation.value, response, tidy, o);
    }

    /** One host effect, then one advance. */
    method Turn(e: Effect, from: Phase, to: Phase, done: Outcome, saved: Outcome) returns (v: Verdict)
      requires Valid() && store.operation.Some? && store.operation.value.phase == from
      requires Index(to) == Index(from) + 1 && 1 <= Index(from) && Due(Index(from) - 1) == Some(e)
      modifies store`operation, this`log, this`unit
      ensures Valid() && store.operation.Some? && !v.Refused?
      ensures store.operation.value.phase == from || store.operation.value.phase == to
      ensures v.Succeeded? ==> store.operation.value.phase == to
      ensures v.Succeeded? <==> done.Done? && saved.Done?
      ensures log == if Took(done) then old(log) + [e] else old(log)
      ensures unit == if Took(done) && e == WriteUnit then Ours else old(unit)
    {
      if Took(done) {
        ProgressGrows(log, e);
        log := log + [e];
        if e == WriteUnit {
          unit := Ours;
        }
      }
      if done != Done {
        return Ending(done);
      }
      v := store.Advance(from, to, saved);
    }

    /** Goes on from wherever an earlier attempt stopped; the phases that remain bound the loop. */
    method Resume(replace: bool, env: Environment) returns (v: Verdict)
      requires Valid()
      modifies store`operation, this`log, this`unit
      ensures Valid()
      ensures v.Refused? <==>
                || old(store.operation).None?
                || !Readable(old(store.operation).value)
                || old(store.operation).value.phase == EnrollmentPending
                || (old(store.operation).value.phase == Enrolled && old(unit) == Unrelated)
      ensures v.Refused? ==> store.operation == old(store.operation) && log == old(log) && unit == old(unit)
      ensures old(store.operation).Some? && store.operation.Some? ==>
                Index(old(store.operation).value.phase) <= Index(store.operation.value.phase)
      ensures old(store.operation).Some? && store.operation.None? ==> !replace && InOrder(log, 5)
      ensures v.Succeeded? ==> InOrder(log, 5)
      ensures v.Succeeded? ==> unit == if old(store.operation).value.phase == Enrolled then Ours else old(unit)
      ensures v.Succeeded? && replace ==> store.operation.Some? && store.operation.value.phase == Healthful
      ensures v.Succeeded? && !replace ==> store.operation.None?
      ensures Healthy(env) && !v.Refused? ==> v.Succeeded?
    {
      hide Ledger, Progress, InOrder;
      ghost var start := store.operation;
      if store.operation.None? || !Readable(store.operation.value) {
        return Refused;
      }
      while store.operation.value.phase != Healthful
        invariant Valid() && store.operation.Some? && start.Some? && Readable(start.value)
        invariant Index(start.value.phase) <= Index(store.operation.value.phase)
        invariant store.operation.value.phase.EnrollmentPending? ==>
                    store.operation == start && log == old(log) && unit == old(unit)
        invariant store.operation.value.phase.Enrolled? ==>
                    store.operation == start && log == old(log) && unit == old(unit)
        invariant Index(store.operation.value.phase) >= 2 ==>
                    unit == if start.value.phase.Enrolled? then Ours else old(unit)
        invariant !store.operation.value.phase.EnrollmentPending? ==> !start.value.phase.EnrollmentPending?
        invariant Index(store.operation.value.phase) >= 2 ==> !(start.value.phase.Enrolled? && old(unit) == Unrelated)
        decreases 6 - Index(store.operation.value.phase)
      {
        var from := store.operation.value.phase;
        var k := 2 * Index(from);
        match from {
          case EnrollmentPending =>
            return Refused;
          case Enrolled =>
            if unit == Unrelated {
              return Refused;
            }
            v := Turn(WriteUnit, Enrolled, UnitWritten, env(k), env(k + 1));
          case UnitWritten => v := Turn(Reload, UnitWritten, Reloaded, env(k), env(k + 1));
          case Reloaded => v := Turn(Enable, Reloaded, Enabled, env(k), env(k + 1));
          case Enabled => v := Turn(Start, Enabled, Started, env(k), env(k + 1));
          case Started => v := Turn(Verify, Started, Healthful, env(k), env(k + 1));
        }
        if !v.Succeeded? {
          return;
        }
      }
      ProgressInOrder(log);
      if replace {
        return Succeeded;
      }
      v := store.CompleteInstall(env(0));
    }
  }
}
