/**
 Vocabulary shared by the journal models.

 Every effect on the world outside the Agent's memory (a file, a database row, a
 kernel table, a container, a remote write) is one numbered call. An `Environment`
 says how each call ends, so a contract that holds for every environment holds for
 every pattern of failures, lost replies and crashes.
 */
module Prelude {

  datatype Option<+T> = None | Some(value: T)

  datatype Outcome =
    | Done    // the effect happened and success was reported
    | Failed  // nothing happened and an error was reported
    | Lost    // the effect happened but an error was reported
    | Killed  // the process died before the effect

  type Environment = nat -> Outcome

  /** The effect of a call reached the outside world. */
  predicate Took(o: Outcome) {
    o.Done? || o.Lost?
  }

  /** No call fails and the process survives. */
  ghost predicate Healthy(env: Environment) {
    forall k :: env(k) == Done
  }

  /** How an operation ended, as its caller sees it (`Crashed` has no caller left). */
  datatype Verdict = Succeeded | Refused | Errored | Crashed

  function Ending(o: Outcome): (v: Verdict)
    ensures v.Crashed? <==> o.Killed?
    ensures v.Succeeded? <==> o.Done?
  {
    if o.Done? then Succeeded else if o.Killed? then Crashed else Errored
  }
}
