/** The shapes the action pipeline works with: its configuration
    (`ActionOptions`, `MiddlewareActionOptions`), the props handed to the
    middleware and to the action, the collaborators it calls, and the result
    shape of src/server/types.ts. */
module ActionTypes {
  import opened Values
  import opened Errors

  /** One entry of the configured `inputs` record: a field name and its
      validator, which the wrapper never looks into. */
  datatype Validator = Validator(field: string, id: nat)
  type Schema = seq<Validator>

  /** What parsing a candidate against `z.object({...inputs})` gives: the
      validated object, the issues of a `ZodError`, or whatever else the
      schema's own refinements and transforms throw. */
  datatype ParseOutcome =
    | Parsed(record: seq<Field>)
    | Invalid(issues: seq<Issue>)
    | Threw(cause: Cause)

  /** The validation library: schema parsing, and `fromZodError(...).toString()`
      taking the issues, `includePath` and `maxIssuesInMessage`. */
  datatype Zod = Zod(
    parse: (Schema, Value) -> ParseOutcome,
    format: (seq<Issue>, bool, int) -> string)

  datatype ReportKind = ActionErrorReport | UnknownReport

  /** The argument `{type, cause}` of the `onServerError` hook. */
  datatype ServerErrorReport = ServerErrorReport(kind: ReportKind, cause: Cause)

  /** `options.validation` and `options.error`; an absent setting is `None`. */
  datatype Options = Options(
    includePath: Option<bool>,
    maxIssuesInMessage: Option<int>,
    onServerError: Option<ServerErrorReport -> Completion>,
    defaultMessage: Option<string>)

  /** What the middleware receives: `{inputs, metadata}`, or `{metadata}` alone
      when no inputs are configured (`inputs` is then `None`). */
  datatype MiddlewareProps = MiddlewareProps(inputs: Option<seq<Field>>, metadata: Value)

  /** What the action receives: `{inputs, middlewareData}`, or only
      `{middlewareData}` when no inputs are configured. */
  datatype ActionProps =
    | WithInputs(inputs: seq<Field>, middlewareData: Value)
    | WithoutInputs(middlewareData: Value)

  /** A middleware made by `createMiddleware`. */
  type Middleware = MiddlewareProps -> Completion

  /** The options object of `createAction` / of an action made by a
      middleware: `meta` is `Undefined` when not given. */
  datatype ActionConfig = ActionConfig(
    inputs: Option<Schema>,
    meta: Value,
    options: Options,
    action: ActionProps -> Completion)

  datatype ErrorType = Validation | Server

  /** `{status: 'success', data}` or `{status: 'error', type, message}`. */
  datatype ActionResult =
    | Success(data: Value)
    | Error(kind: ErrorType, message: string)

  /** How the promise an action returns settles. */
  datatype CallOutcome = Resolved(result: ActionResult) | Rejected(cause: Cause)

  /** The observable calls an action makes, in the order it makes them. */
  datatype Step =
    | ParseCalled(candidate: Value)
    | MiddlewareCalled(props: MiddlewareProps)
    | ActionCalled(actionProps: ActionProps)
    | ErrorReported(report: ServerErrorReport)
    | CauseLogged(cause: Cause)

  type Trace = seq<Step>

  datatype Call = Call(outcome: CallOutcome, trace: Trace)

  const FallbackMessage: string := "An unexpected error occurred."

  /** `options.validation.includePath ?? false` */
  function IncludePath(cfg: ActionConfig): bool {
    cfg.options.includePath.GetOr(false)
  }

  /** `options.validation.maxIssuesInMessage ?? 1` */
  function MaxIssues(cfg: ActionConfig): int {
    cfg.options.maxIssuesInMessage.GetOr(1)
  }

  /** `options.error.defaultMessage ?? 'An unexpected error occurred.'` */
  function DefaultMessage(cfg: ActionConfig): string {
    cfg.options.defaultMessage.GetOr(FallbackMessage)
  }

  /** `meta ?? {}` */
  function Metadata(cfg: ActionConfig): Value {
    Coalesce(cfg.meta, Obj([]))
  }

  /** An `onServerError` hook, when configured, settles without throwing. */
  ghost predicate HookNeverThrows(cfg: ActionConfig) {
    cfg.options.onServerError.Some? ==>
      forall report :: cfg.options.onServerError.value(report).Normal?
  }
}
