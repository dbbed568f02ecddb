/**
 The enrollment operation and its rollback (internal/agent/enrollment_operation.go).

 One operation row and one connection row, changed in transactions. The ghost field
 remembers the connection as it was when the operation began.
 */
module Enrollment {
  import opened Prelude

  /** The stored connection; credential and key are the sealed bytes. */
  datatype Connection = Connection(agent: string, name: string, center: string, credential: string, key: string,
                                   ca: string, pem: string, landingOnly: bool)

  /** What an operation remembers of the connection it replaces. */
  datatype Snapshot = Snapshot(agent: string, name: string, center: string, credential: string, key: string,
      ca: string, pem: string)

  const NOTHING := Snapshot("", "", "", "", "", "", "")

  function SnapshotOf(c: Connection): Snapshot {
    Snapshot(c.agent, c.name, c.center, c.credential, c.key, c.ca, c.pem)
  }

  predicate Intact(s: Snapshot) {
    s.agent != "" && s.name != "" && s.center != "" && s.credential != "" && s.key != ""
  }

  /** enrollment_pending, enrolled, unit_written, reloaded, enabled, started, healthy */
  datatype Phase = EnrollmentPending | Enrolled | UnitWritten | Reloaded | Enabled | Started | Healthful

  function Index(p: Phase): (n: nat)
    ensures n <= 6
  {
    match p
    case EnrollmentPending => 0
    case Enrolled => 1
    case UnitWritten => 2
    case Reloaded => 3
    case Enabled => 4
    case Started => 5
    case Healthful => 6
  }

  datatype Options = Options(center: string, ca: string, pem: string, replace: bool)

  datatype Operation = Operation(id: string, options: Options, token: string, key: string, phase: Phase, agent: string,
      name: string, previous: Snapshot)

  datatype Response = Response(id: string, credential: string, name: string, roles: seq<string>, landingOnly: bool)

  /** Normalization of the fingerprint and trimming of the certificate, whatever they are. */
  datatype Tidying = Tidying(ca: string -> string, pem: string -> string)

  /** A stored operation past its enrollment must name the Agent it enrolled. */
  predicate Readable(op: Operation) {
    op.phase == EnrollmentPending || (op.agent != "" && op.name != "")
  }

  /** What an operation owns of the connection row. */
  ghost predicate Ledger(connection: Option<Connection>, operation: Option<Operation>, atBegin: Option<Connection>,
      completed: bool) {
    operation.Some? ==>
      var op := operation.value;
      && (completed ==> op.phase != EnrollmentPending && Readable(op) && connection.Some?
                        && connection.value.agent == op.agent)
      && (!completed ==> connection == atBegin && op.agent == "")
      && (if op.options.replace then
            && atBegin.Some? && op.previous == SnapshotOf(atBegin.value)
            && connection.Some? && connection.value.landingOnly == atBegin.value.landingOnly
          else atBegin.None? && op.previous == NOTHING)
  }

  /** When a rollback goes through: the snapshot is intact, and a fresh operation has done what its phase says. */
  predicate CanRollBack(op: Operation) {
    if op.options.replace then Intact(op.previous) else op.phase == EnrollmentPending || op.agent != ""
  }

  class Store {
    var connection: Option<Connection>
    var operation: Option<Operation>
    ghost var atBegin: Option<Connection>
    ghost var completed: bool

    ghost predicate Valid()
      reads this
    {
      Ledger(connection, operation, atBegin, completed)
    }

    constructor (c: Option<Connection>)
      ensures Valid() && connection == c && operation.None?
    {
      connection, operation, atBegin, completed := c, None, c, false;
    }

    /** A repeated begin with the same options and token finds its operation unchanged. */
    method Begin(options: Options, token: string, id: string, key: string, o: Outcome) returns (v: Verdict)
      requires Valid()
      modifies this`operation, this`atBegin, this`completed
      ensures Valid()
      ensures v.Refused? <==>
                || token == ""
                || (old(operation).Some? && !Readable(old(operation).value))
                || (old(operation).Some?
                    && (old(operation).value.options != options || old(operation).value.token != token))
                || (old(operation).None? && connection.Some? != options.replace)
      ensures v.Refused? || old(operation).Some? ==>
                operation == old(operation) && atBegin == old(atBegin) && completed == old(completed)
      ensures old(operation).Some? && !v.Refused? ==> v.Succeeded?
      ensures operation.Some? && old(operation).None? ==>
                atBegin == connection && operation.value.phase == EnrollmentPending
                && operation.value.options == options && operation.value.key == key
                && operation.value.agent == "" && operation.value.name == "" && !completed
      ensures v.Succeeded? ==> operation.Some? && operation.value.options == options && operation.value.token == token
      ensures v.Succeeded? && old(operation).None? ==> operation.value.id == id
      ensures !v.Refused? && old(operation).None? ==> v == Ending(o) && (operation.Some? <==> Took(o))
    {
      if token == "" {
        return Refused;
      }
      if operation.Some? {
        if !Readable(operation.value) || operation.value.options != options || operation.value.token != token {
          return Refused;
        }
        return Succeeded;
      }
      if connection.Some? != options.replace {
        return Refused;
      }
      if Took(o) {
        var previous := if connection.Some? then SnapshotOf(connection.value) else NOTHING;
        operation := Some(Operation(id, options, token, key, EnrollmentPending, "", "", previous));
        atBegin, completed := connection, false;
      }
      return Ending(o);
    }

    /** Writes the new connection and the phase in one transaction; `op` is what the caller read. */
    method CompleteEnrollment(op: Operation, response: Response, tidy: Tidying, o: Outcome) returns (v: Verdict)
      requires Valid() && (operation.Some? && operation.value.id == op.id ==> operation.value.options == op.options)
      modifies this`connection, this`operation, this`completed
      ensures Valid()
      ensures v.Refused? ==> connection == old(connection) && operation == old(operation)
      ensures operation.Some? <==> old(operation).Some?
      ensures v.Refused? <==>
                || op.phase != EnrollmentPending || "" in {response.id, response.credential, response.name}
                || response.roles == []
                || (op.options.replace && old(connection).None?)
                || (op.options.replace && old(connection).value.landingOnly != response.landingOnly)
                || (!op.options.replace && old(connection).Some?)
                || old(operation).None? || old(operation).value.id != op.id
                || old(operation).value.phase != EnrollmentPending
      ensures !v.Refused? ==> v == Ending(o)
      ensures !v.Refused? ==>
                old(operation).Some? && old(operation).value.id == op.id
                && old(operation).value.phase == EnrollmentPending
      ensures v.Succeeded? ==>
                && operation == Some(old(operation).value.(phase := Enrolled, agent := response.id,
                                                           name := response.name, key := ""))
                && connection == Some(Connection(response.id, response.name, op.options.center,
                                                 response.credential, op.key, tidy.ca(op.options.ca),
                                                 tidy.pem(op.options.pem), response.landingOnly))
      ensures connection != old(connection) && old(connection).Some? ==>
                connection.Some? && connection.value.landingOnly == old(connection).value.landingOnly
      ensures operation == old(operation) || (operation.Some? && operation.value.phase == Enrolled)
      ensures operation.Some? ==> operation.value.options == old(operation).value.options
    {
      if op.phase != EnrollmentPending || response.id == "" || response.credential == "" || response.name == ""
          || response.roles == [] {
        return Refused;
      }
      if op.options.replace {
        if connection.None? || connection.value.landingOnly != response.landingOnly {
          return Refused;
        }
      } else if connection.Some? {
        return Refused;
      }
      if operation.None? || operation.value.id != op.id || operation.value.phase != EnrollmentPending {
        return Refused;
      }
      if Took(o) {
        connection := Some(Connection(response.id, response.name, op.options.center, response.credential, op.key,
                                      tidy.ca(op.options.ca), tidy.pem(op.options.pem), response.landingOnly));
        operation := Some(operation.value.(phase := Enrolled, agent := response.id, name := response.name, key := ""));
        completed := true;
      }
      return Ending(o);
    }

    method Advance(expected: Phase, next: Phase, o: Outcome) returns (v: Verdict)
      requires Valid()
      modifies this`operation
      ensures Valid()
      ensures v.Refused? <==>
                Index(next) != Index(expected) + 1 || old(operation).None? || old(operation).value.phase != expected
      ensures v.Refused? ==> operation == old(operation)
      ensures !v.Refused? ==>
                operation == if Took(o) then Some(old(operation).value.(phase := next)) else old(operation)
      ensures !v.Refused? ==> v == Ending(o)
    {
      if Index(next) != Index(expected) + 1 || operation.None? || operation.value.phase != expected {
        return Refused;
      }
      if Took(o) {
        operation := Some(operation.value.(phase := next));
      }
      return Ending(o);
    }

    method CompleteInstall(o: Outcome) returns (v: Verdict)
      requires Valid()
      modifies this`operation
      ensures Valid()
      ensures v.Refused? <==> old(operation).None? || old(operation).value.phase != Healthful
      ensures operation == if !v.Refused? && Took(o) then None else old(operation)
      ensures !v.Refused? ==> v == Ending(o)
    {
      if operation.None? || operation.value.phase != Healthful {
        return Refused;
      }
      if Took(o) {
        operation := None;
      }
      return Ending(o);
    }

    /** The exact inverse of everything since the operation began. */
    method Rollback(o: Outcome) returns (v: Verdict)
      requires Valid()
      modifies this`connection, this`operation
      ensures Valid()
      ensures v.Refused? <==> old(operation).Some? && !CanRollBack(old(operation).value)
      ensures old(operation).Some? && old(operation).value.options.replace ==>
                var p := old(operation).value.previous;
                v.Refused? <==> "" in {p.agent, p.name, p.center, p.credential, p.key}
      ensures old(operation).None? ==> v.Succeeded?
      ensures v.Refused? || old(operation).None? ==> connection == old(connection) && operation == old(operation)
      ensures v.Succeeded? && old(operation).Some? ==> connection == atBegin && operation.None?
      ensures !v.Succeeded? ==>
                (connection == old(connection) && operation == old(operation))
                || (connection == atBegin && operation.None?)
      ensures old(operation).Some? && !v.Refused? ==> v == Ending(o)
    {
      if operation.None? {
        return Succeeded;
      }
      var op := operation.value;
      var next := connection;
      if op.options.replace {
        var p := op.previous;
        if !Intact(p) {
          return Refused;
        }
        var purpose := connection.Some? && connection.value.landingOnly;
        next := Some(Connection(p.agent, p.name, p.center, p.credential, p.key, p.ca, p.pem, purpose));
      } else if op.phase != EnrollmentPending {
        if connection.None? || connection.value.agent != op.agent {
          return Refused;
        }
        next := None;
      }
      if Took(o) {
        connection, operation := next, None;
      }
      return Ending(o);
    }
  }

  // ---------------------------------------------------------------- everything between a begin and its rollback

  datatype Event =
    | Rebegin(options: Options, token: string, id: string, key: string)
    | Complete(response: Response, tidy: Tidying)
    | Move(expected: Phase, next: Phase)

  /** Whatever an operation did in between, its rollback leaves the connection as it was and no operation. */
  method RollbackIsInverse(store: Store, options: Options, token: string, id: string, key: string, first: Outcome,
                           events: seq<Event>, outcomes: nat -> Outcome, last: Outcome)
                               returns (began: Verdict, v: Verdict)
    requires store.Valid() && store.operation.None?
    modifies store
    ensures store.Valid()
    ensures store.operation.None? ==> store.connection == old(store.connection)
    ensures v.Succeeded? ==> store.operation.None?
    ensures v.Refused? ==> store.operation.Some? && !CanRollBack(store.operation.value)
    ensures last.Done? && !v.Refused? ==> v.Succeeded?
  {
    began := store.Begin(options, token, id, key, first);
    for i := 0 to |events|
      invariant store.Valid() && (store.operation.Some? ==> store.atBegin == old(store.connection))
      invariant store.operation.None? ==> store.connection == old(store.connection)
    {
      match events[i]
      case Rebegin(opts, tok, newId, newKey) =>
        if store.operation.Some? {
          var _ := store.Begin(opts, tok, newId, newKey, outcomes(i));
        }
      case Complete(response, tidy) =>
        if store.operation.Some? {
          var _ := store.CompleteEnrollment(store.operation.value, response, tidy, outcomes(i));
        }
      case Move(expected, next) =>
        var _ := store.Advance(expected, next, outcomes(i));
    }
    v := store.Rollback(last);
  }

  /**
   A fresh operation that is moved out of the pending phase without a completed enrollment can neither be
   rolled back nor be taken up again by its own options and token: the phase machine accepts that move.
   */
  method StuckAfterEarlyMove(options: Options, token: string, id: string, key: string)
      returns (store: Store, again: Verdict)
    requires !options.replace && token != ""
    ensures fresh(store) && store.Valid() && store.operation.Some? && !CanRollBack(store.operation.value)
    ensures store.operation.value.options == options && store.operation.value.token == token && again.Refused?
  {
    store := new Store(None);
    var v := store.Begin(options, token, id, key, Done);
    v := store.Advance(EnrollmentPending, Enrolled, Done);
    again := store.Begin(options, token, id, key, Done);
  }
}
