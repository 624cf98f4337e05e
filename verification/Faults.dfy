/** Errors, replies and the fault oracle behind which every external call is made. */
module Faults {

  /** The part of an error text the code ever looks at: one of the substrings it tests for, or none of them. */
  datatype Text = NoMatch | Duplicate | NoLbRule | UnknownUuid | InProgress | Other

  /** A Go `error` value. Wrapping an error keeps its text. */
  datatype GoError = Nil | Error(text: Text)

  /** A Go `(value, error)` pair. */
  datatype Reply<+T> = Reply(value: T) | Failed(text: Text)

  datatype Option<+T> = None | Some(value: T)

  /** What happens to one external call. A faulted call reports an error; a faulted change may still have been
      applied. */
  datatype Outcome = Normal | Fault(text: Text, applied: bool)

  /** The outcome of the call made at each point in time. Theorems quantify over it. */
  type Env = nat -> Outcome

  ghost predicate FaultFree(env: Env) {
    forall t: nat :: env(t).Normal?
  }

  /** Faults whose text does not imitate an answer the code acts upon. */
  ghost predicate Honest(env: Env) {
    forall t: nat :: env(t).Fault? ==> env(t).text.Other?
  }

  /** One call that changes a world: the world after it, and its error. A call that is not accepted is refused. */
  function Attempt<W>(outcome: Outcome, accepted: bool, refusal: Text, before: W, done: W): (W, GoError) {
    match outcome
    case Fault(text, applied) => (if applied && accepted then done else before, Error(text))
    case Normal => if accepted then (done, Nil) else (before, Error(refusal))
  }

  /** One call that reads. */
  function Answer<T>(outcome: Outcome, reply: Reply<T>): Reply<T> {
    match outcome
    case Fault(text, _) => Failed(text)
    case Normal => reply
  }
}
