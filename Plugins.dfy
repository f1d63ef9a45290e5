/**
 * What the engine needs to know about a loaded command, event or job object besides its
 * readonly fields: the name of the class that built it, whether it defines the optional
 * `validate` method, and what its `validate` and `execute` methods do on a given call.
 * The bodies of those methods are user code outside this model, so each call's outcome
 * is an argument of the operation that makes the call.
 */
module Plugins {

  /** What one call of `validate` does. */
  datatype Verdict = Accept | Reject | Throw

  /** What one call of `execute` does: the replies it sends, then whether it throws. */
  datatype ExecOutcome = ExecOutcome(replies: seq<string>, throws: bool)

  /** A constructed unit: its fields, `instance.constructor.name`, and whether `validate` exists. */
  datatype Plugin<+T> = Plugin(unit: T, className: string, hasValidator: bool)

  /**
   * The gate `if (unit.validate && !unit.validate(context)) return;`, where a throwing
   * `validate` also stops the call: execution goes ahead exactly when there is no
   * validator or it accepts.
   */
  predicate Passes(hasValidator: bool, v: Verdict) {
    !hasValidator || v == Accept
  }
}
