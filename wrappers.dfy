/** Option and the outcome of a step that may end the whole process. */
module Wrappers {

  datatype Option<+T> = None | Some(value: T)

  /** `Exit` stands for every way the programs stop the process early: Ruby's
      `exit 1`, Python's `sys.exit()` (status 0) and an uncaught exception
      (status 1). It is failure-compatible, so methods can use `:-`. */
  datatype Outcome<+T> = Ok(value: T) | Exit(code: int, reason: string) {
    predicate IsFailure() {
      Exit?
    }

    function PropagateFailure<U>(): Outcome<U>
      requires Exit?
    {
      Exit(code, reason)
    }

    function Extract(): T
      requires Ok?
    {
      value
    }
  }

  /** A successful outcome with no value is the one such outcome. */
  lemma OkIsUnit(o: Outcome<()>)
    requires o.Ok?
    ensures o == Ok(())
  {
    match o.value {
      case () =>
    }
  }
}
