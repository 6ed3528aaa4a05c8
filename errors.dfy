/** What a step of an action can throw, and how a step completes. */
module Errors {
  import opened Values

  /** One issue of a failed schema parse: its message and the path of the field. */
  datatype Issue = Issue(message: string, path: seq<string>)

  /** The kinds of thrown values the catch block tells apart. */
  datatype Cause =
      /** a schema parse failure (`z.ZodError`) carrying its issues */
    | ValidationError(issues: seq<Issue>)
      /** `new ActionError(message)`: a failure the action raises on purpose */
    | ActionError(message: string)
      /** the host framework's navigation signal, which must keep propagating */
    | Redirect(destination: string)
      /** any other thrown value, described by its message */
    | Unknown(message: string)

  /** The host framework's `unstable_rethrow` test: is this a navigation signal? */
  predicate IsRedirect(c: Cause) {
    c.Redirect?
  }

  /** How a call into code the wrapper does not own finishes: it returns a
      value, or it throws (an awaited promise that rejects counts as a throw). */
  datatype Completion = Normal(value: Value) | Abrupt(cause: Cause)

  /** `new Error('Invalid arguments')`, thrown for an argument list of no known shape. */
  const InvalidArguments: Cause := Unknown("Invalid arguments")
}
