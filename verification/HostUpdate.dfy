/**
 The Agent replacing itself (cmd/vastora/agent_update_host.go,
 cmd/vastora/agent_update_recovery.go, cmd/vastora/agent_update_staging.go).

 Result and completion marker carry no identity on disk. The ghost fields remember for
 which operation they were written, how often the candidate was installed since the
 operation was staged, and which database it was installed over; `Ledger` says what the
 bare files always imply about them. The helper is the staged executable. Its unit is
 started by the Agent once per staged request, or by hand. A request is staged by the
 running Agent, for its own version. The context is never cancelled.
 */
module HostUpdate {
  import opened Prelude

  datatype Operation = Operation(execution: string, session: string, task: string, attempt: nat, agent: string,
      source: string, target: string)

  /** What Center asks for; the running Agent adds its own version. */
  datatype Request = Request(execution: string, session: string, task: string, attempt: nat, agent: string,
      target: string)

  function OperationFor(r: Request, running: string): Operation {
    Operation(r.execution, r.session, r.task, r.attempt, r.agent, running, r.target)
  }

  const TASK_PREFIX := "agent-update-"

  predicate Sound(op: Operation) {
    TASK_PREFIX <= op.task && 0 < op.attempt && op.target != "" && op.source != "" && op.agent != ""
  }

  /** Center names the execution an update is staged for. */
  predicate Authorized(op: Operation) {
    Sound(op) && op.execution != "" && op.session != ""
  }

  /** A request leaves nothing out that an update is identified by. */
  ghost predicate Named(r: Request, running: string) {
    TASK_PREFIX <= r.task && r.attempt >= 1 && "" !in {r.execution, r.session, r.agent, r.target, running}
  }

  /** Recovery directories are named after one attempt. */
  datatype Key = Key(task: string, attempt: nat, agent: string, target: string)

  function KeyOf(op: Operation): Key {
    Key(op.task, op.attempt, op.agent, op.target)
  }

  datatype Binary = Binary(version: string, content: string)

  /** A published recovery point: its manifest and the copied database and key. */
  datatype Point = Point(key: Key, source: string, candidate: Binary, database: string)

  /** verifyHostUpdateRecovery */
  predicate Verified(p: Point, op: Operation, candidate: Binary) {
    p.key == KeyOf(op) && p.source == op.source && p.candidate == candidate
  }

  datatype Staging = Staging(operation: Option<Operation>, result: Option<bool>, completed: bool,
      binary: Option<Binary>)

  /**
   `cleaned`: a cleanup has begun since the candidate was installed; `manual`: the helper was started
   by hand since the operation was staged.
   */
  datatype History = History(resultOf: Option<Operation>, completedOf: Option<Operation>, installs: nat,
      installedOver: string,
                             acknowledged: bool, cleaned: bool, manual: bool)

  const FRESH := History(None, None, 0, "", false, false, false)

  /** The invariant. */
  predicate Ledger(s: Staging, queued: bool, points: map<Key, Point>, installed: Binary, h: History) {
    s.operation.Some? ==>
      var op := s.operation.value;
      && h.installs <= 1
      && (s.result.Some? ==> h.resultOf == Some(op))
      && (s.completed ==> h.completedOf == Some(op) && h.acknowledged)
      && (h.installs == 1 ==> installed.version == op.target != op.source && !queued)
      && (h.installs == 1 && !h.cleaned ==> Recoverable(points, op, installed, h.installedOver))
      && (s.result == Some(true) ==> h.installs == 1)
      && (s.result == Some(false) ==> h.installs == 0 || (h.cleaned && h.manual))
  }

  /** The state before the migration can still be recovered. */
  predicate Recoverable(points: map<Key, Point>, op: Operation, installed: Binary, database: string) {
    KeyOf(op) in points && Verified(points[KeyOf(op)], op, installed) && points[KeyOf(op)].database == database
  }

  /** What removals that do not all succeed leave behind. */
  function Remaining(s: Staging, env: Environment): Staging {
    Staging(if Took(env(3)) then None else s.operation, if Took(env(4)) then None else s.result,
            s.completed && !Took(env(5)), if Took(env(6)) then None else s.binary)
  }

  /** The caller goes on after an error. */
  predicate Stops(o: Outcome) {
    o.Failed? || o.Lost?
  }

  ghost predicate MayDie(env: Environment) {
    exists k :: env(k).Killed?
  }

  /** How an activation ends. */
  datatype Activation = Activated | Rejected | Pending | Died

  class Host {
    // The staging directory.
    var staging: Staging
    var points: map<Key, Point>
    var partial: set<Key>
    // The unit file of the helper, and whether its start is due.
    var unit: bool
    var queued: bool
    // The host.
    var installed: Binary
    var former: Option<Binary>
    var database: string
    var serving: bool
    ghost var history: History

    ghost predicate Valid()
      reads this
    {
      Ledger(staging, queued, points, installed, history)
    }

    constructor (current: Binary, data: string)
      ensures Valid() && staging == Staging(None, None, false, None) && points == map[] && partial == {}
                && installed == current && serving
    {
      staging, points, partial, unit, queued := Staging(None, None, false, None), map[], {}, false, false;
      installed, former, database, serving := current, None, data, true;
      history := FRESH;
    }

    // -------------------------------------------------------------- staging

    /** clearStoppedHostUpdateStaging: everything is checked before anything goes; the operation goes last. */
    method ClearStaging(env: Environment) returns (v: Verdict)
      requires Valid()
      modifies this`staging
      ensures Valid()
      ensures v.Refused? <==> points != map[] || partial != {}
      ensures v.Refused? ==> staging == old(staging)
      ensures v.Succeeded? ==> staging == Staging(None, None, false, None)
      ensures staging.operation.Some? ==> staging.operation == old(staging.operation)
      ensures Healthy(env) && !v.Refused? ==> v.Succeeded?
      ensures env(0).Done? && env(1).Done? && env(2).Failed? && old(staging.binary).Some? && !v.Refused? ==>
                v.Errored? && staging == old(staging).(result := None, completed := false)
    {
      if points != map[] || partial != {} {
        return Refused;
      }
      if staging.completed {
        if Took(env(0)) {
          staging := staging.(completed := false);
        }
        if env(0) != Done {
          return Ending(env(0));
        }
      }
      if staging.result.Some? {
        if Took(env(1)) {
          staging := staging.(result := None);
        }
        if env(1) != Done {
          return Ending(env(1));
        }
      }
      if staging.binary.Some? {
        if Took(env(2)) {
          staging := staging.(binary := None);
        }
        if env(2) != Done {
          return Ending(env(2));
        }
      }
      if Took(env(3)) {
        staging := staging.(operation := None);
      }
      return Ending(env(3));
    }

    /** prepareHostUpdateDirectory: a new execution may take over only an obsolete one. */
    method PrepareDirectory(op: Operation, env: Environment) returns (v: Verdict)
      requires Valid()
      modifies this`staging
      ensures Valid()
      ensures v.Succeeded? ==> staging.operation.None? || (staging.operation == Some(op) && staging == old(staging))
      ensures v.Refused? ==> staging == old(staging)
      ensures v.Succeeded? ==> Authorized(op)
      ensures staging.operation.Some? ==> staging.operation == old(staging.operation)
      ensures v.Succeeded? && old(staging.operation).Some? && old(staging.operation).value != op ==>
                points == map[] && partial == {} && installed.version == op.source
                && old(staging.operation).value.execution != op.execution
      ensures Healthy(env) && Authorized(op) && old(staging.operation).None? ==> v.Succeeded? && staging == old(staging)
      ensures old(Obsolete(op)) && points == map[] && partial == {} && env(4).Done?
              && env(0).Done? && env(1).Done? && env(2).Failed? && old(staging.binary).Some? ==>
                v.Errored? && staging == old(staging).(result := None, completed := false)
      ensures Healthy(env) && old(staging.operation).Some? && old(staging.operation).value.execution == op.execution ==>
                (v.Refused? <==> !Authorized(op) || old(staging.operation).value != op)
    {
      if !Authorized(op) {
        return Refused;
      }
      if env(4) != Done {
        return Ending(env(4));
      }
      if staging.operation.Some? && staging.operation.value != op {
        var previous := staging.operation.value;
        if previous.execution == op.execution || previous.agent != op.agent {
          return Refused;
        }
        if installed.version != op.source {
          return Refused;
        }
        v := ClearStaging(env);
        return;
      }
      return Succeeded;
    }

    /** persistHostUpdate: what a former operation left is gone before the new one is named. */
    method Persist(op: Operation, candidate: Binary, env: Environment) returns (v: Verdict)
      requires Valid()
      modifies this`staging, this`unit, this`history
      ensures Valid()
      ensures old(staging.operation).Some? ==> staging == old(staging) && history == old(history)
      ensures v.Succeeded? ==> unit
      ensures old(staging.operation).Some? ==>
                (v.Refused? <==> !Sound(op) || old(staging.operation) != Some(op)
                                 || old(staging.binary) != Some(candidate))
      ensures old(staging.operation).None? ==> (v.Refused? <==> !Sound(op))
      ensures v.Succeeded? ==> staging.operation == Some(op) && staging.binary == Some(candidate)
      ensures v.Succeeded? && old(staging.operation).None? ==>
                staging == Staging(Some(op), None, false, Some(candidate)) && history == FRESH
      ensures staging.operation.Some? && old(staging.operation).None? ==>
                staging.operation == Some(op) && staging.result.None? && !staging.completed
      ensures history == old(history) || history == FRESH
      ensures Healthy(env) && !v.Refused? ==> v.Succeeded?
    {
      if !Sound(op) {
        return Refused;
      }
      if staging.operation.Some? {
        if staging.operation.value != op || staging.binary != Some(candidate) {
          return Refused;
        }
        if Took(env(9)) {
          unit := true;
        }
        return Ending(env(9));
      }
      if Took(env(5)) {
        staging := staging.(binary := Some(candidate));
      }
      if env(5) != Done {
        return Ending(env(5));
      }
      if Took(env(6)) {
        staging := staging.(result := None);
      }
      if env(6) != Done {
        return Ending(env(6));
      }
      if Took(env(7)) {
        staging := staging.(completed := false);
      }
      if env(7) != Done {
        return Ending(env(7));
      }
      if Took(env(8)) {
        staging := staging.(operation := Some(op));
        history := FRESH;
      }
      if env(8) != Done {
        return Ending(env(8));
      }
      if Took(env(9)) {
        unit := true;
      }
      return Ending(env(9));
    }

    /** ScheduleUpdate: the Agent that serves stages the request for its own version and starts the helper. */
    method Schedule(request: Request, candidate: Binary, env: Environment) returns (v: Verdict)
      requires Valid()
      modifies this`staging, this`unit, this`queued, this`history
      ensures Valid()
      ensures !serving ==> v.Refused? && staging == old(staging)
      ensures v.Succeeded? ==>
                && staging.operation == Some(OperationFor(request, installed.version))
                && staging.binary == Some(candidate)
                && candidate.version == request.target && unit && queued && history.installs == 0
      ensures v.Succeeded? ==> serving && Named(request, installed.version)
      ensures Healthy(env) && serving && Named(request, installed.version)
                && candidate.version == request.target && old(staging.operation).None? ==>
                v.Succeeded? && staging ==
                    Staging(Some(OperationFor(request, installed.version)), None, false, Some(candidate))
                    && history == FRESH
      ensures Healthy(env) && old(staging.operation).Some?
                && old(staging.operation).value.execution == request.execution
              && old(staging.operation).value.source != installed.version ==>
                v.Refused? && staging == old(staging) && unit == old(unit) && queued == old(queued)
      ensures serving && old(Obsolete(OperationFor(request, installed.version))) && points == map[] && partial == {}
                && env(4).Done?
              && env(0).Done? && env(1).Done? && env(2).Failed? && old(staging.binary).Some? ==>
                staging == old(staging).(result := None, completed := false) && unit == old(unit)
                && history == old(history)
      ensures history == old(history) || history == FRESH
    {
      if !serving {
        return Refused;
      }
      var op := OperationFor(request, installed.version);
      v := PrepareDirectory(op, env);
      if !v.Succeeded? {
        return;
      }
      if candidate.version != op.target {
        return Refused;
      }
      v := Persist(op, candidate, env);
      if !v.Succeeded? {
        return;
      }
      if Took(env(10)) {
        queued := true;
      }
      return Ending(env(10));
    }

    /** What is staged belongs to another execution for the same Agent, which ended on the installed version. */
    ghost predicate Obsolete(op: Operation)
      reads this
    {
      && Authorized(op) && staging.operation.Some? && staging.operation.value.execution != op.execution
      && staging.operation.value.agent == op.agent && installed.version == op.source
    }

    // -------------------------------------------------------------- activation

    /** prepareHostUpdateRecovery for a directory that does not exist: built aside, verified, published by a rename. */
    method PublishRecovery(op: Operation, env: Environment) returns (v: Verdict)
      requires Valid() && KeyOf(op) !in points && staging.binary.Some?
      modifies this`points, this`partial
      ensures Valid() && !v.Refused?
      ensures points == old(points)
                || points == old(points)[KeyOf(op) := Point(KeyOf(op), op.source, staging.binary.value, database)]
      ensures v.Succeeded? ==>
                points == old(points)[KeyOf(op) := Point(KeyOf(op), op.source, staging.binary.value, database)]
      ensures partial - {KeyOf(op)} == old(partial) - {KeyOf(op)}
      ensures env(10).Done? && KeyOf(op) in partial ==> env(11).Lost? || v.Crashed?
      ensures !env(10).Done? ==> partial == if env(10).Lost? then old(partial) - {KeyOf(op)} else old(partial)
      ensures env(10).Done? && env(11).Done? && env(12).Killed? ==> KeyOf(op) in partial
      ensures v.Succeeded? ==> partial == old(partial) - {KeyOf(op)}
      ensures v.Crashed? ==> MayDie(env)
      ensures Healthy(env) ==> v.Succeeded?
    {
      if Took(env(10)) {
        partial := partial - {KeyOf(op)};
      }
      if env(10) != Done {
        return Ending(env(10));
      }
      if Took(env(11)) {
        partial := partial + {KeyOf(op)};
      }
      if env(11) != Done {
        return Ending(env(11));
      }
      // The copies and the verification of the partial directory; from here on an error removes it again.
      if env(12) != Done {
        if !env(12).Killed? {
          partial := partial - {KeyOf(op)};
        }
        return Ending(env(12));
      }
      if Took(env(13)) {
        points := points[KeyOf(op) := Point(KeyOf(op), op.source, staging.binary.value, database)];
        partial := partial - {KeyOf(op)};
      }
      if env(13) != Done {
        if !env(13).Killed? {
          partial := partial - {KeyOf(op)};
        }
        return Ending(env(13));
      }
      return Ending(env(14));
    }

    /** A staged candidate for the installed version, not tried before. */
    ghost predicate Ready(op: Operation)
      reads this
    {
      KeyOf(op) !in points && installed.version == op.source != op.target && staging.binary.Some?
      && staging.binary.value.version == op.target
    }

    /** A first activation that ends before anything was backed up or installed. */
    ghost predicate Refuses(op: Operation, env: Environment)
      requires staging.binary.Some?
      reads this
    {
      KeyOf(op) !in points &&
      (|| Stops(env(15))
       || (env(15).Done? && installed.version != op.target && installed.version != op.source)
       || (env(15).Done? && installed.version == op.source != op.target
           && (|| Stops(env(25))
               || (env(25).Done? && staging.binary.value.version != op.target)
               || (env(25).Done? && staging.binary.value.version == op.target && env(16).Done? && Stops(env(17))))))
    }

    /** activateHostUpdate */
    method Activate(op: Operation, env: Environment, active: nat -> bool) returns (a: Activation)
      requires Valid() && staging.operation == Some(op) && staging.result.None? && !staging.completed
                 && staging.binary.Some? && !queued
      modifies this`points, this`partial, this`installed, this`former, this`serving, this`history
      ensures Valid()
      ensures history == old(history).(installs := history.installs, installedOver := history.installedOver,
          cleaned := history.cleaned)
      ensures a.Activated? ==> history.installs == 1 && old(history).installs == 0
      ensures a.Rejected? <==> old(Refuses(op, env))
      ensures a.Died? ==> MayDie(env)
      ensures a.Rejected? ==>
                installed == old(installed) && points == old(points) && history == old(history)
                && (history.installs == 0 || history.cleaned)
      ensures KeyOf(op) in old(points) ==> a.Pending? && installed == old(installed) && points == old(points)
      ensures installed != old(installed) ==>
                old(installed).version == op.source && installed.version == op.target && history.installs == 1
                && old(history).installs == 0
      ensures Healthy(env) && Steady(active) && old(Ready(op)) ==> a.Activated?
      ensures a.Activated? ==>
                installed == staging.binary.value && serving && points.Keys == old(points).Keys + {KeyOf(op)}
                && partial == old(partial) - {KeyOf(op)}
    {
      if KeyOf(op) in points {
        return Pending;
      }
      if env(15) != Done {
        return if env(15).Killed? then Died else Rejected;
      }
      if installed.version == op.target {
        return Pending;
      }
      if installed.version != op.source {
        return Rejected;
      }
      if env(25) != Done {
        return if env(25).Killed? then Died else Rejected;
      }
      if staging.binary.value.version != op.target {
        return Rejected;
      }
      a := StopAndBackUp(op, env);
      if !a.Activated? {
        return;
      }
      a := InstallAndStart(op, env, active);
    }

    /** Every step is authorized first; only a failing stop is a plain failure. */
    method StopAndBackUp(op: Operation, env: Environment) returns (a: Activation)
      requires Valid() && staging.operation == Some(op) && KeyOf(op) !in points && staging.binary.Some?
                 && history.installs == 0
      modifies this`points, this`partial, this`serving
      ensures Valid()
      ensures a.Rejected? <==> env(16).Done? && Stops(env(17))
      ensures a.Died? ==> MayDie(env)
      ensures a.Rejected? ==> points == old(points)
      ensures a.Activated? ==>
                !serving && points ==
                    old(points)[KeyOf(op) := Point(KeyOf(op), op.source, staging.binary.value, database)]
                    && partial == old(partial) - {KeyOf(op)}
      ensures Healthy(env) ==> a.Activated?
    {
      if env(16) != Done {
        return if env(16).Killed? then Died else Pending;
      }
      if Took(env(17)) {
        serving := false;
      }
      if env(17) != Done {
        return if env(17).Killed? then Died else Rejected;
      }
      if env(18) != Done {
        return if env(18).Killed? then Died else Pending;
      }
      var v := PublishRecovery(op, env);
      if !v.Succeeded? {
        return if v.Crashed? then Died else Pending;
      }
      return Activated;
    }

    /** From here on nothing is a plain failure: the candidate may have migrated the database. */
    method InstallAndStart(op: Operation, env: Environment, active: nat -> bool) returns (a: Activation)
      requires Valid() && staging.operation == Some(op) && staging.result.None? && history.installs == 0
                 && installed.version == op.source && !queued
      requires staging.binary.Some? && staging.binary.value.version == op.target != op.source && !serving
      requires KeyOf(op) in points && points[KeyOf(op)] == Point(KeyOf(op), op.source, staging.binary.value, database)
      modifies this`installed, this`former, this`serving, this`history
      ensures Valid() && !a.Rejected?
      ensures history == old(history).(installs := history.installs, installedOver := history.installedOver,
          cleaned := history.cleaned)
      ensures a.Activated? ==> history.installs == 1 && installed == staging.binary.value && serving
      ensures a.Died? ==> MayDie(env)
      ensures history.installs == 1 ==>
                && installed == staging.binary.value && former == Some(old(installed))
                && history.installedOver == database && !history.cleaned
      ensures history.installs == 0 ==> installed == old(installed)
      ensures Healthy(env) && Steady(active) ==> a.Activated?
    {
      if env(19) != Done {
        return if env(19).Killed? then Died else Pending;
      }
      if Took(env(20)) {
        former := Some(installed);
      }
      if env(20) != Done {
        return if env(20).Killed? then Died else Pending;
      }
      if env(21) != Done {
        return if env(21).Killed? then Died else Pending;
      }
      if Took(env(22)) {
        installed := staging.binary.value;
        history := history.(installs := history.installs + 1, installedOver := database, cleaned := false);
      }
      if env(22) != Done {
        return if env(22).Killed? then Died else Pending;
      }
      if env(23) != Done {
        return if env(23).Killed? then Died else Pending;
      }
      if Took(env(24)) {
        serving := true;
      }
      if env(24) != Done {
        return if env(24).Killed? then Died else Pending;
      }
      var stable := BecomesStable(active);
      return if stable then Activated else Pending;
    }

    // -------------------------------------------------------------- the helper

    /** runPersistentHostUpdate: at most one activation, one result, one completion. */
    method Helper(byHand: bool, env: Environment, active: nat -> bool, observed: nat -> bool) returns (v: Verdict)
      requires Valid()
      modifies this
      ensures Valid() && unit == old(unit) && staging.operation == old(staging.operation)
                && staging.binary == old(staging.binary)
      ensures v.Refused? <==> !old(Starts(byHand)) || (old(staging.operation).None? && !old(staging.completed))
      ensures v.Refused? || old(staging.completed) ==>
                staging == old(staging) && installed == old(installed) && points == old(points)
      ensures old(staging.completed) ==> v.Refused? || v.Succeeded?
      ensures old(staging.result).Some? ==>
                staging.result == old(staging.result) && installed == old(installed) && points == old(points)
      ensures v.Succeeded? && !old(staging.completed) ==>
                staging.completed && staging.result.Some? && history.acknowledged
      ensures staging.completed && !old(staging.completed) && staging.result == Some(true) ==>
                exists i :: 0 <= i < 30 && observed(i)
      ensures database == old(database) && (history.manual ==> old(history).manual || byHand)
      ensures Healthy(env) && Steady(active) && observed(0) && old(Undecided(byHand))
                && old(Ready(staging.operation.value)) ==>
                v.Succeeded? && staging.result == Some(true) && staging.completed
      ensures old(Undecided(byHand)) ==> Decided(staging.operation.value, env)
    {
      hide Ledger, Recoverable, Stops, Steady;
      if !unit || staging.binary.None? || (!byHand && !queued) {
        return Refused;
      }
      Begin(byHand);
      if staging.completed {
        return Succeeded;
      }
      if staging.operation.None? {
        return Refused;
      }
      var op := staging.operation.value;
      if staging.result.None? {
        v := Decide(op, env, active);
        if !v.Succeeded? {
          return;
        }
      }
      v := Complete(op, env, observed);
    }

    /** The helper has its unit and its executable, and somebody starts it. */
    ghost predicate Starts(byHand: bool)
      reads this
    {
      unit && staging.binary.Some? && (byHand || queued)
    }

    /** The helper starts on an operation that has no result yet. */
    ghost predicate Undecided(byHand: bool)
      reads this
    {
      Starts(byHand) && staging.operation.Some? && staging.result.None? && !staging.completed
    }

    /**
     What a result says about the host. A failure is recorded exactly when the activation ended before
     anything was backed up; over an installed candidate, exactly when its recovery point is gone and its
     version cannot be inspected. A success means that the candidate runs and that its recovery point is there.
     */
    twostate predicate Decided(op: Operation, env: Environment)
      requires old(staging.binary).Some?
      reads this
    {
      && (staging.result == Some(false) <==> env(0).Done? && old(Refuses(op, env)) && Took(env(2)))
      && (old(history).installs == 1 ==>
            (staging.result == Some(false) <==>
                env(0).Done? && KeyOf(op) !in old(points) && Stops(env(15)) && Took(env(2))))
      && (staging.result == Some(false) ==>
          installed == old(installed) && points == old(points) && history.installs == old(history).installs)
      && (staging.result == Some(true) ==>
            && Some(installed) == old(staging.binary) && serving && history.installs == 1
            && partial == old(partial) - {KeyOf(op)}
            && points.Keys == old(points).Keys + {KeyOf(op)})
    }

    method Begin(byHand: bool)
      requires Valid() && (byHand || queued)
      modifies this`queued, this`history
      ensures Valid() && !queued && history == old(history).(manual := old(history).manual || byHand)
      ensures staging.operation.Some? ==> history.installs == 0 || history.manual
    {
      queued, history := false, history.(manual := history.manual || byHand);
    }

    /** Takes over from Center, activates and writes the result of an activation that has one. */
    method Decide(op: Operation, env: Environment, active: nat -> bool) returns (v: Verdict)
      requires Valid() && staging.operation == Some(op) && staging.result.None? && !staging.completed
                 && staging.binary.Some? && !queued
      requires history.installs == 0 || history.manual
      modifies this`staging, this`points, this`partial, this`installed, this`former, this`serving, this`history
      ensures Valid() && !v.Refused?
      ensures staging == old(staging).(result := staging.result) && history.manual == old(history).manual
      ensures v.Succeeded? ==> staging.result.Some?
      ensures v.Crashed? ==> MayDie(env)
      ensures Decided(op, env)
      ensures Healthy(env) && Steady(active) && old(Ready(op)) ==> v.Succeeded? && staging.result == Some(true)
    {
      if env(0) != Done {
        return Ending(env(0));
      }
      var a := Activate(op, env, active);
      if a.Died? {
        return Crashed;
      }
      if a.Pending? {
        // Only Center hears of it; no local result is published.
        return if env(1).Killed? then Crashed else Errored;
      }
      if Took(env(2)) {
        staging := staging.(result := Some(a.Activated?));
        history := history.(resultOf := Some(op));
      }
      return Ending(env(2));
    }

    /** Waits until Center has seen the new Agent, reports, and only then marks the update completed. */
    method Complete(op: Operation, env: Environment, observed: nat -> bool) returns (v: Verdict)
      requires Valid() && staging.operation == Some(op) && staging.result.Some?
      modifies this`staging, this`history
      ensures Valid() && !v.Refused?
      ensures staging == old(staging).(completed := staging.completed) && history.installs == old(history).installs
      ensures v.Succeeded? ==> staging.completed && history.acknowledged
      ensures staging.completed && !old(staging.completed) && staging.result == Some(true) ==>
                exists i :: 0 <= i < 30 && observed(i)
      ensures history.manual == old(history).manual
      ensures Healthy(env) && observed(0) ==> v.Succeeded?
    {
      if staging.result.value {
        var seen := false;
        for i := 0 to 30
          invariant observed(0) ==> i == 0
        {
          if env(40 + i) != Done {
            return Ending(env(40 + i));
          }
          if observed(i) {
            seen := true;
            break;
          }
        }
        if !seen {
          return Errored;
        }
      }
      if Took(env(3)) {
        history := history.(acknowledged := true);
      }
      if env(3) != Done {
        return Ending(env(3));
      }
      if Took(env(4)) {
        staging := staging.(completed := true);
        history := history.(completedOf := Some(op));
      }
      return Ending(env(4));
    }

    // -------------------------------------------------------------- cleanup

    /** cleanPersistentHostUpdate: only a completed update is removed, and only its own recovery point. */
    method Cleanup(env: Environment) returns (v: Verdict)
      requires Valid()
      modifies this`staging, this`points, this`partial, this`former, this`unit, this`history
      ensures Valid() && history == old(history).(cleaned := history.cleaned) && partial <= old(partial)
      ensures old(staging.operation).None? || !old(staging.completed) ==>
                staging == old(staging) && points == old(points) && unit == old(unit) && history == old(history)
      ensures forall key :: key in old(points) && old(staging.operation) != None
                             && key != KeyOf(old(staging.operation).value) ==>
                key in points && points[key] == old(points)[key]
      ensures staging.operation.Some? ==> staging.operation == old(staging.operation)
      ensures v.Succeeded? && old(staging.operation).Some? && old(staging.completed) ==>
                staging == Staging(None, None, false, None) && KeyOf(old(staging.operation).value) !in points
                && KeyOf(old(staging.operation).value) !in partial
      ensures Healthy(env) && old(staging.operation).Some? ==> v.Succeeded?
      ensures old(staging.operation).Some? && old(staging.completed) && (forall k :: 0 <= k < 3 ==> env(k).Done?)
                && (forall k :: 3 <= k < 8 ==> !env(k).Killed?) ==>
                staging == Remaining(old(staging), env)
                && points == old(points) - {KeyOf(old(staging.operation).value)} && !unit
      ensures old(staging.operation).Some? && old(staging.completed) && env(0).Done? && env(1).Done?
                && env(2).Failed? ==>
                staging == old(staging) && points == old(points) - {KeyOf(old(staging.operation).value)}
                && unit == old(unit)
    {
      if staging.operation.None? {
        return Refused;
      }
      if !staging.completed {
        return Succeeded;
      }
      var op := staging.operation.value;
      history := history.(cleaned := true);
      if Took(env(0)) {
        points := points - {KeyOf(op)};
      }
      if env(0) != Done {
        return Ending(env(0));
      }
      if Took(env(1)) {
        partial := partial - {KeyOf(op)};
      }
      if env(1) != Done {
        return Ending(env(1));
      }
      if Took(env(2)) {
        unit := false;
      }
      if env(2) != Done {
        return Ending(env(2));
      }
      v := RemoveStaging(env);
    }

    /** The removals go on after an error; a dying process stops them. */
    method RemoveStaging(env: Environment) returns (v: Verdict)
      requires Valid() && history.cleaned
      modifies this`staging, this`former
      ensures Valid() && !v.Refused?
      ensures staging.operation.Some? ==> staging.operation == old(staging.operation)
      ensures v.Succeeded? ==> staging == Staging(None, None, false, None)
      ensures (forall k :: 3 <= k < 8 ==> !env(k).Killed?) ==> staging == Remaining(old(staging), env)
      ensures Healthy(env) ==> v.Succeeded?
    {
      v := Succeeded;
      for i := 0 to 5
        invariant Valid()
        invariant v.Succeeded? || v.Errored?
        invariant v.Succeeded? ==>
                    && (i > 0 ==> staging.operation.None?) && (i > 1 ==> staging.result.None?)
                    && (i > 2 ==> !staging.completed) && (i > 3 ==> staging.binary.None?)
        invariant Healthy(env) ==> v.Succeeded?
        invariant staging.operation == if i > 0 && Took(env(3)) then None else old(staging).operation
        invariant staging.result == if i > 1 && Took(env(4)) then None else old(staging).result
        invariant staging.completed == if i > 2 && Took(env(5)) then false else old(staging).completed
        invariant staging.binary == if i > 3 && Took(env(6)) then None else old(staging).binary
      {
        if env(3 + i).Killed? {
          return Crashed;
        }
        if Took(env(3 + i)) {
          match i
          case 0 => staging := staging.(operation := None);
          case 1 => staging := staging.(result := None);
          case 2 => staging := staging.(completed := false);
          case 3 => staging := staging.(binary := None);
          case _ => former := None;
        }
        if env(3 + i) != Done {
          v := Errored;
        }
      }
    }

    // -------------------------------------------------------------- in between

    /** A serving Agent works on its database. */
    method Work(data: string)
      requires Valid()
      modifies this`database
      ensures Valid() && (!serving ==> database == old(database))
    {
      if serving {
        database := data;
      }
    }

    /** The host restarts and with it the Agent service. */
    method Reboot()
      requires Valid()
      modifies this`serving, this`queued
      ensures Valid() && serving && !queued
    {
      serving, queued := true, false;
    }
  }

  // ---------------------------------------------------------------- stability

  /** Three observations in a row, within ten. */
  ghost predicate Steady(active: nat -> bool) {
    exists i :: 0 <= i <= 7 && Thrice(active, i)
  }

  predicate Thrice(active: nat -> bool, i: nat) {
    active(i) && active(i + 1) && active(i + 2)
  }

  method BecomesStable(active: nat -> bool) returns (stable: bool)
    ensures stable <==> Steady(active)
  {
    var count := 0;
    for i := 0 to 10
      invariant 0 <= count <= 2 && count <= i
      invariant forall k :: i - count <= k < i ==> active(k)
      invariant count < 2 && count < i ==> !active(i - count - 1)
      invariant forall k :: 0 <= k && k + 2 < i ==> !Thrice(active, k)
    {
      if active(i) {
        count := count + 1;
        if count == 3 {
          assert Thrice(active, i - 2);
          return true;
        }
      } else {
        count := 0;
      }
    }
    return false;
  }

  // ---------------------------------------------------------------- interrupted cleanups

  /** Calls that succeed except for those in the set. */
  function Failing(calls: set<nat>): Environment {
    (n: nat) => if n in calls then Failed else Done
  }

  /** A host on which one update went through. */
  method UpdatedHost(request: Request, current: Binary, candidate: Binary, data: string) returns (host: Host)
    requires Authorized(OperationFor(request, current.version))
               && current.version != request.target == candidate.version
    ensures fresh(host) && host.Valid()
    ensures host.staging == Staging(Some(OperationFor(request, current.version)), Some(true), true, Some(candidate))
    ensures host.installed == candidate && host.history.installs == 1 && host.unit && host.serving
    ensures host.points.Keys == {KeyOf(OperationFor(request, current.version))} && host.partial == {}
  {
    host := new Host(current, data);
    var _ := host.Schedule(request, candidate, k => Done);
    assert Thrice(k => true, 0);
    var _ := host.Helper(false, k => Done, k => true, k => true);
  }

  /**
   A cleanup that cannot remove the operation and the executable leaves an operation without result,
   marker and recovery point beside an installed candidate. Nothing takes it up again: the helper has no
   unit, and the updated Agent cannot stage it again because it stages requests for its own version.
   */
  method HalfCleaned(request: Request, current: Binary, candidate: Binary, data: string)
      returns (host: Host, again: Verdict, helped: Verdict)
    requires Authorized(OperationFor(request, current.version))
               && current.version != request.target == candidate.version
    ensures fresh(host) && host.Valid()
    ensures host.staging == Staging(Some(OperationFor(request, current.version)), None, false, Some(candidate))
    ensures host.installed == candidate && KeyOf(host.staging.operation.value) !in host.points
    ensures again.Refused? && helped.Refused?
  {
    host := UpdatedHost(request, current, candidate, data);
    Leftover(host);
    again := host.Schedule(request, candidate, k => Done);
    helped := host.Helper(true, k => Done, k => true, k => true);
  }

  method Leftover(host: Host)
    requires host.Valid() && host.staging.operation.Some? && host.staging.completed
    modifies host`staging, host`points, host`partial, host`former, host`unit, host`history
    ensures host.Valid() && host.staging == old(host.staging).(result := None, completed := false) && !host.unit
    ensures KeyOf(host.staging.operation.value) !in host.points
  {
    var env := Failing({3, 6});
    assert !Took(env(3)) && Took(env(4)) && Took(env(5)) && !Took(env(6));
    var _ := host.Cleanup(env);
  }

  /**
   A recorded failure does not mean that the source executable is still installed once the helper is started
   by hand: the cleanup of a completed update removes the recovery point but not the unit, the updated Agent
   begins to clear the staging for a later request and stops before the executable, and the helper, started
   by hand, cannot inspect the installed version.
   */
  method FailureAfterSuccess(request: Request, later: Request, current: Binary, candidate: Binary, next: Binary,
      data: string) returns (host: Host)
    requires Authorized(OperationFor(request, current.version))
               && current.version != request.target == candidate.version
    requires Authorized(OperationFor(later, candidate.version)) && later.execution != request.execution
               && later.agent == request.agent
    ensures fresh(host) && host.Valid()
    ensures host.staging.operation == Some(OperationFor(request, current.version)) && host.staging.result == Some(false)
    ensures host.installed == candidate && host.history.installs == 1
  {
    hide Ledger, Recoverable, Remaining;
    host := UpdatedHost(request, current, candidate, data);
    var cleaning, clearing, inspecting := Failing({2}), Failing({2}), Failing({15});
    assert cleaning(0).Done? && cleaning(1).Done? && cleaning(2).Failed?;
    var _ := host.Cleanup(cleaning);
    assert host.points == map[];
    assert clearing(0).Done? && clearing(1).Done? && clearing(2).Failed? && clearing(4).Done?;
    assert host.Obsolete(OperationFor(later, candidate.version));
    var _ := host.Schedule(later, next, clearing);
    assert inspecting(0).Done? && inspecting(2).Done? && inspecting(15).Failed?;
    var _ := host.Helper(true, inspecting, k => true, k => true);
  }

  // ---------------------------------------------------------------- runs

  datatype Event =
    | Order(request: Request, candidate: Binary, env: Environment)
    | Finish(byHand: bool, env: Environment, active: nat -> bool, observed: nat -> bool)
    | Clean(env: Environment)
    | Serve(data: string)
    | PowerCycle

  /**
   Over every run: while an operation is staged its candidate has been installed at most once; from then
   until the cleanup of the completed update, the recovery point of this very operation holds the database
   it was installed over; unless the helper was started by hand, a recorded failure means that nothing was
   installed; a recorded success means that the candidate was; result and completion marker are the
   operation's own.
   */
  method Run(host: Host, events: seq<Event>)
    requires host.Valid()
    modifies host
    ensures host.Valid()
    ensures host.staging.operation.Some? ==>
              var op, h := host.staging.operation.value, host.history;
              && h.installs <= 1
              && (h.installs == 1 && !h.cleaned ==> Recoverable(host.points, op, host.installed, h.installedOver))
              && (host.staging.result == Some(false) ==> h.installs == 0 || (h.cleaned && h.manual))
              && (host.staging.result == Some(true) ==> h.installs == 1 && host.installed.version == op.target)
              && (host.staging.result.Some? ==> h.resultOf == Some(op))
              && (host.staging.completed ==> h.completedOf == Some(op) && h.acknowledged)
    ensures !old(host.history).manual && (forall i :: 0 <= i < |events| && events[i].Finish? ==> !events[i].byHand) ==>
              !host.history.manual
  {
    for i := 0 to |events|
      invariant host.Valid()
      invariant !old(host.history).manual && (forall k :: 0 <= k < i && events[k].Finish? ==> !events[k].byHand) ==>
                  !host.history.manual
    {
      match events[i]
      case Order(request, candidate, env) => var _ := host.Schedule(request, candidate, env);
      case Finish(byHand, env, active, observed) => var _ := host.Helper(byHand, env, active, observed);
      case Clean(env) => var _ := host.Cleanup(env);
      case Serve(data) => host.Work(data);
      case PowerCycle => host.Reboot();
    }
  }
}
