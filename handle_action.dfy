/** `handleAction` and its inner `action` (src/server/handleAction.ts): argument
    dispatch, FormData flattening, validate -> middleware -> action, and the
    catch block that maps every outcome to a result. */
module ActionHandler {
  import opened Values
  import opened Errors
  import opened FormData
  import opened ActionTypes

  /** The argument lists the action accepts when inputs are configured. */
  datatype ArgShape =
    | StateUpdaterCall(previousState: Value, form: seq<Field>)   // (anything, FormData)
    | FormSubmission(form: seq<Field>)                          // (FormData)
    | DirectObject(candidate: Value)                            // (object), null included
    | Unrecognised

  /** The tests of lines 45, 65 and 85, in that order. */
  function Classify(args: seq<Value>): (shape: ArgShape)
    ensures shape.StateUpdaterCall? <==> |args| == 2 && args[1].Form?
    ensures shape.FormSubmission? <==> |args| == 1 && args[0].Form?
    ensures shape.DirectObject? <==> |args| == 1 && !args[0].Form? && TypeOf(args[0]) == "object"
    ensures shape.StateUpdaterCall? ==> shape.previousState == args[0] && shape.form == args[1].entries
    ensures shape.FormSubmission? ==> shape.form == args[0].entries
    ensures shape.DirectObject? ==> shape.candidate == args[0]
  {
    if |args| == 2 && args[1].Form? then StateUpdaterCall(args[0], args[1].entries)
    else if |args| == 1 && args[0].Form? then FormSubmission(args[0].entries)
    else if |args| == 1 && TypeOf(args[0]) == "object" then DirectObject(args[0])
    else Unrecognised
  }

  /** The object handed to the parser, or the `Invalid arguments` throw. */
  function Candidate(args: seq<Value>): (c: Completion)
    ensures c.Abrupt? <==> Classify(args).Unrecognised?
    ensures c.Abrupt? ==> c.cause == InvalidArguments
    ensures c.Normal? && |args| == 1 && !args[0].Form? ==> c.value == args[0]
    ensures (Classify(args).StateUpdaterCall? || Classify(args).FormSubmission?) ==>
      c == Normal(Obj(Flatten(Classify(args).form)))
  {
    match Classify(args)
    case StateUpdaterCall(_, form) => Normal(Obj(Flatten(form)))
    case FormSubmission(form) => Normal(Obj(Flatten(form)))
    case DirectObject(v) => Normal(v)
    case Unrecognised => Abrupt(InvalidArguments)
  }

  /** How the try block ends, and the calls it made on the way. */
  datatype Attempt = Attempt(completion: Completion, trace: Trace)

  /** Lines 107-115 and 138-140: the action gets the inputs only when they are configured. */
  function CallAction(cfg: ActionConfig, inputs: Option<seq<Field>>, middlewareData: Value, trace: Trace): Attempt {
    var props := if inputs.Some? then WithInputs(inputs.value, middlewareData) else WithoutInputs(middlewareData);
    Attempt(cfg.action(props), trace + [ActionCalled(props)])
  }

  /** Lines 92-115 and 123-140: the optional middleware, then the action. */
  function AfterValidation(cfg: ActionConfig, mw: Option<Middleware>, inputs: Option<seq<Field>>, trace: Trace): Attempt {
    if mw.Some? then
      var props := MiddlewareProps(inputs, Metadata(cfg));
      var t := trace + [MiddlewareCalled(props)];
      match mw.value(props)
      case Abrupt(c) => Attempt(Abrupt(c), t)
      case Normal(data) => CallAction(cfg, inputs, data, t)
    else
      CallAction(cfg, inputs, Undefined, trace)
  }

  /** The try block, lines 41-145. */
  function TryBlock(env: Zod, cfg: ActionConfig, mw: Option<Middleware>, args: seq<Value>): (a: Attempt)
    // an unrecognised argument list throws before anything is called
    ensures cfg.inputs.Some? && Candidate(args).Abrupt? ==> a == Attempt(Candidate(args), [])
    // with inputs, the candidate is parsed before anything else runs
    ensures cfg.inputs.Some? && Candidate(args).Normal? ==>
      a.trace != [] && a.trace[0] == ParseCalled(Candidate(args).value)
    // the block completes normally only with what the action returned, the action being the last call
    ensures a.completion.Normal? ==>
      a.trace != [] && a.trace[|a.trace| - 1].ActionCalled? &&
      a.completion == cfg.action(a.trace[|a.trace| - 1].actionProps)
    ensures |a.trace| <= 3
  {
    if cfg.inputs.Some? then
      match Candidate(args)
      case Abrupt(c) => Attempt(Abrupt(c), [])
      case Normal(candidate) =>
        match env.parse(cfg.inputs.value, candidate)
        case Threw(c) => Attempt(Abrupt(c), [ParseCalled(candidate)])
        case Invalid(issues) => Attempt(Abrupt(ValidationError(issues)), [ParseCalled(candidate)])
        case Parsed(record) => AfterValidation(cfg, mw, Some(record), [ParseCalled(candidate)])
    else
      AfterValidation(cfg, mw, None, [])
  }

  /** Awaiting `onServerError(report)` before answering `result`; a hook that
      throws makes the whole call reject. */
  function Notify(hook: ServerErrorReport -> Completion, report: ServerErrorReport, result: ActionResult): Call {
    match hook(report)
    case Normal(_) => Call(Resolved(result), [ErrorReported(report)])
    case Abrupt(c) => Call(Rejected(c), [ErrorReported(report)])
  }

  /** The catch block, lines 146-183. */
  function Recover(env: Zod, cfg: ActionConfig, cause: Cause): (call: Call)
    // the catch block never produces a success
    ensures call.outcome.Resolved? ==> call.outcome.result.Error?
    // a validation result exactly for a parse failure
    ensures call.outcome.Resolved? ==> (call.outcome.result.kind == Validation <==> cause.ValidationError?)
    // the navigation signal is rethrown unchanged, and only it escapes when the hook does not throw
    ensures IsRedirect(cause) ==> call == Call(Rejected(cause), [])
    ensures call.outcome.Rejected? && !IsRedirect(cause) ==>
      cfg.options.onServerError.Some? && !cause.ValidationError? &&
      |call.trace| == 1 && call.trace[0].ErrorReported? &&
      cfg.options.onServerError.value(call.trace[0].report) == Abrupt(call.outcome.cause)
    // the messages
    ensures cause.ValidationError? ==>
      call.outcome == Resolved(Error(Validation, env.format(cause.issues, IncludePath(cfg), MaxIssues(cfg))))
    ensures cause.ActionError? && call.outcome.Resolved? ==> call.outcome.result == Error(Server, cause.message)
    ensures cause.Unknown? && call.outcome.Resolved? ==> call.outcome.result == Error(Server, DefaultMessage(cfg))
    // the hook hears of server errors only, once, with the kind of cause; otherwise an unknown cause is logged
    ensures |call.trace| <= 1
    ensures cause.ActionError? ==>
      call.trace == if cfg.options.onServerError.Some? then [ErrorReported(ServerErrorReport(ActionErrorReport, cause))] else []
    ensures cause.Unknown? ==>
      call.trace == if cfg.options.onServerError.Some? then [ErrorReported(ServerErrorReport(UnknownReport, cause))] else [CauseLogged(cause)]
  {
    if IsRedirect(cause) then
      Call(Rejected(cause), [])
    else if cause.ValidationError? then
      Call(Resolved(Error(Validation, env.format(cause.issues, IncludePath(cfg), MaxIssues(cfg)))), [])
    else if cause.ActionError? then
      if cfg.options.onServerError.Some? then
        Notify(cfg.options.onServerError.value, ServerErrorReport(ActionErrorReport, cause), Error(Server, cause.message))
      else
        Call(Resolved(Error(Server, cause.message)), [])
    else if cfg.options.onServerError.Some? then
      Notify(cfg.options.onServerError.value, ServerErrorReport(UnknownReport, cause), Error(Server, DefaultMessage(cfg)))
    else
      Call(Resolved(Error(Server, DefaultMessage(cfg))), [CauseLogged(cause)])
  }

  /** One call of the inner `action`: the try block, then the catch block on a throw. */
  function Run(env: Zod, cfg: ActionConfig, mw: Option<Middleware>, args: seq<Value>): (call: Call)
    // the calls of the try block happen first, and the catch block only adds to them
    ensures TryBlock(env, cfg, mw, args).trace <= call.trace
    // a call rejects only with the navigation signal, or with what the hook threw as its last step
    ensures call.outcome.Rejected? ==>
      IsRedirect(call.outcome.cause) ||
      (&& cfg.options.onServerError.Some?
       && |call.trace| > 0 && call.trace[|call.trace| - 1].ErrorReported?
       && cfg.options.onServerError.value(call.trace[|call.trace| - 1].report) == Abrupt(call.outcome.cause))
  {
    var attempt := TryBlock(env, cfg, mw, args);
    match attempt.completion
    case Normal(data) => Call(Resolved(Success(data)), attempt.trace)
    case Abrupt(cause) =>
      var recovered := Recover(env, cfg, cause);
      Call(recovered.outcome, attempt.trace + recovered.trace)
  }

  /** `handleAction(options, middleware)`: the action it returns. */
  function HandleAction(env: Zod, cfg: ActionConfig, mw: Option<Middleware>): (action: seq<Value> -> Call)
    ensures forall args :: action(args) == Run(env, cfg, mw, args)
  {
    args => Run(env, cfg, mw, args)
  }

  /** The try block as handleAction.ts writes it: locals `inputs` and
      `middlewareData` assigned step by step, a throw ending it early. */
  method TryPath(env: Zod, cfg: ActionConfig, mw: Option<Middleware>, args: seq<Value>) returns (attempt: Attempt)
    ensures attempt == TryBlock(env, cfg, mw, args)
  {
    var trace: Trace := [];
    var inputs: Option<seq<Field>> := None;
    if cfg.inputs.Some? {
      var candidate: Value;
      if |args| == 2 && args[1].Form? {
        var values := FlattenForm(args[1].entries);
        candidate := Obj(values);
      } else if |args| == 1 && args[0].Form? {
        var values := FlattenForm(args[0].entries);
        candidate := Obj(values);
      } else if |args| == 1 && TypeOf(args[0]) == "object" {
        candidate := args[0];
      } else {
        return Attempt(Abrupt(InvalidArguments), trace);
      }
      trace := trace + [ParseCalled(candidate)];
      var parsed := env.parse(cfg.inputs.value, candidate);
      if parsed.Threw? {
        return Attempt(Abrupt(parsed.cause), trace);
      }
      if parsed.Invalid? {
        return Attempt(Abrupt(ValidationError(parsed.issues)), trace);
      }
      inputs := Some(parsed.record);
    }
    var middlewareData := Undefined;
    if mw.Some? {
      var props := MiddlewareProps(inputs, Metadata(cfg));
      trace := trace + [MiddlewareCalled(props)];
      var done := mw.value(props);
      if done.Abrupt? {
        return Attempt(done, trace);
      }
      middlewareData := done.value;
    }
    var props := if inputs.Some? then WithInputs(inputs.value, middlewareData) else WithoutInputs(middlewareData);
    trace := trace + [ActionCalled(props)];
    attempt := Attempt(cfg.action(props), trace);
  }

  /** The inner `action`: the try block, then the catch block's result mapping. */
  method Action(env: Zod, cfg: ActionConfig, mw: Option<Middleware>, args: seq<Value>) returns (call: Call)
    ensures call == Run(env, cfg, mw, args)
  {
    var attempt := TryPath(env, cfg, mw, args);
    if attempt.completion.Normal? {
      return Call(Resolved(Success(attempt.completion.value)), attempt.trace);
    }
    var recovered := Recover(env, cfg, attempt.completion.cause);
    call := Call(recovered.outcome, attempt.trace + recovered.trace);
  }

  // ---------------------------------------------------------------------------
  // Properties of one call

  /** With inputs configured, `(x, form)`, `(form)` and a direct call with the
      flattened form all build the same candidate and so give the same call;
      the first argument of the two-argument form is never read. Without
      inputs no argument is read at all. */
  lemma FormShapesAgree(env: Zod, cfg: ActionConfig, mw: Option<Middleware>, previous: Value, form: seq<Field>)
    ensures Run(env, cfg, mw, [previous, Form(form)]) == Run(env, cfg, mw, [Form(form)])
    ensures Run(env, cfg, mw, [Form(form)]) == Run(env, cfg, mw, [Obj(Flatten(form))])
  {
    assert Candidate([previous, Form(form)]) == Candidate([Form(form)]) == Candidate([Obj(Flatten(form))]);
  }

  /** Without inputs configured the arguments are ignored. */
  lemma ArgumentsIgnoredWithoutInputs(env: Zod, cfg: ActionConfig, mw: Option<Middleware>, args: seq<Value>, other: seq<Value>)
    requires cfg.inputs.None?
    ensures Run(env, cfg, mw, args) == Run(env, cfg, mw, other)
  {
  }

  /** With inputs configured, an argument list of no known shape throws
      `Invalid arguments`, which the catch block treats as an unknown cause:
      a server error with the default message, reported or logged. */
  lemma InvalidArgumentsIsServerError(env: Zod, cfg: ActionConfig, mw: Option<Middleware>, args: seq<Value>)
    requires cfg.inputs.Some? && Classify(args).Unrecognised?
    ensures var call := Run(env, cfg, mw, args);
      var report := ServerErrorReport(UnknownReport, InvalidArguments);
      && (cfg.options.onServerError.None? ==>
            call == Call(Resolved(Error(Server, DefaultMessage(cfg))), [CauseLogged(InvalidArguments)]))
      && (cfg.options.onServerError.Some? ==>
            && call.trace == [ErrorReported(report)]
            && call.outcome == match cfg.options.onServerError.value(report)
                               case Normal(_) => Resolved(Error(Server, DefaultMessage(cfg)))
                               case Abrupt(c) => Rejected(c))
  {
  }

  /** A candidate that fails to parse stops the call: neither the middleware
      nor the action runs, and the result is a validation error whose message
      the formatter builds with `includePath ?? false` and `maxIssuesInMessage ?? 1`. */
  lemma ValidationFailureStopsPipeline(env: Zod, cfg: ActionConfig, mw: Option<Middleware>, args: seq<Value>,
                                       candidate: Value, issues: seq<Issue>)
    requires cfg.inputs.Some? && Candidate(args) == Normal(candidate)
    requires env.parse(cfg.inputs.value, candidate) == Invalid(issues)
    ensures Run(env, cfg, mw, args) ==
      Call(Resolved(Error(Validation, env.format(issues, cfg.options.includePath.GetOr(false),
                                                 cfg.options.maxIssuesInMessage.GetOr(1)))),
           [ParseCalled(candidate)])
  {
  }

  /** A schema whose own code throws (a refinement or transform raising an
      `ActionError`, a navigation signal or a plain error) stops the call
      after the parse step, and its cause goes through the catch block. */
  lemma ParseThrowIsRecovered(env: Zod, cfg: ActionConfig, mw: Option<Middleware>, args: seq<Value>,
                              candidate: Value, cause: Cause)
    requires cfg.inputs.Some? && Candidate(args) == Normal(candidate)
    requires env.parse(cfg.inputs.value, candidate) == Threw(cause)
    ensures Run(env, cfg, mw, args).outcome == Recover(env, cfg, cause).outcome
    ensures Run(env, cfg, mw, args).trace == [ParseCalled(candidate)] + Recover(env, cfg, cause).trace
  {
  }

  /** With inputs configured and a candidate that parses, the parse comes
      first, then the middleware with the validated inputs and `meta ?? {}`,
      then the action with the validated inputs and the middleware's result
      (`undefined` when there is no middleware). */
  lemma ValidatedInputsFlow(env: Zod, cfg: ActionConfig, mw: Option<Middleware>, args: seq<Value>,
                            candidate: Value, record: seq<Field>)
    requires cfg.inputs.Some? && Candidate(args) == Normal(candidate)
    requires env.parse(cfg.inputs.value, candidate) == Parsed(record)
    ensures var t := Run(env, cfg, mw, args).trace;
      && |t| >= 2 && t[0] == ParseCalled(candidate)
      && (mw.None? ==> t[1] == ActionCalled(WithInputs(record, Undefined)))
      && (mw.Some? ==>
            && t[1] == MiddlewareCalled(MiddlewareProps(Some(record), Coalesce(cfg.meta, Obj([]))))
            && (mw.value(t[1].props).Normal? ==>
                  |t| >= 3 && t[2] == ActionCalled(WithInputs(record, mw.value(t[1].props).value))))
  {
  }

  /** Without inputs configured the middleware gets only `{metadata}` and the
      action only `{middlewareData}`. */
  lemma NoInputsFlow(env: Zod, cfg: ActionConfig, mw: Option<Middleware>, args: seq<Value>)
    requires cfg.inputs.None?
    ensures var t := Run(env, cfg, mw, args).trace;
      && |t| >= 1
      && (mw.None? ==> t[0] == ActionCalled(WithoutInputs(Undefined)))
      && (mw.Some? ==>
            && t[0] == MiddlewareCalled(MiddlewareProps(None, Coalesce(cfg.meta, Obj([]))))
            && (mw.value(t[0].props).Normal? ==>
                  |t| >= 2 && t[1] == ActionCalled(WithoutInputs(mw.value(t[0].props).value))))
  {
  }

  /** The order of the steps: parse, middleware, action, then at most one
      report or log; none happens twice. */
  function Rank(s: Step): nat {
    match s
    case ParseCalled(_) => 0
    case MiddlewareCalled(_) => 1
    case ActionCalled(_) => 2
    case _ => 3
  }

  lemma StepsInOrder(env: Zod, cfg: ActionConfig, mw: Option<Middleware>, args: seq<Value>)
    ensures var t := Run(env, cfg, mw, args).trace;
      forall i, j :: 0 <= i < j < |t| ==> Rank(t[i]) < Rank(t[j])
  {
    var attempt := TryBlock(env, cfg, mw, args);
    var t := attempt.trace;
    assert forall i, j :: 0 <= i < j < |t| ==> Rank(t[i]) < Rank(t[j]);
    assert forall i :: 0 <= i < |t| ==> Rank(t[i]) < 3;
    if attempt.completion.Abrupt? {
      var recovered := Recover(env, cfg, attempt.completion.cause);
      assert forall s :: s in recovered.trace ==> Rank(s) == 3;
      var all := t + recovered.trace;
      forall i, j | 0 <= i < j < |all| ensures Rank(all[i]) < Rank(all[j]) {
        if j >= |t| {
          assert all[j] in recovered.trace;
        }
      }
    }
  }

  /** The result is a success exactly when the action ran and returned; its
      data is the action's return value, unchanged. */
  lemma SuccessIsActionReturn(env: Zod, cfg: ActionConfig, mw: Option<Middleware>, args: seq<Value>)
    ensures var call := Run(env, cfg, mw, args);
      call.outcome.Resolved? && call.outcome.result.Success? <==>
        |call.trace| > 0 && call.trace[|call.trace| - 1].ActionCalled? &&
        cfg.action(call.trace[|call.trace| - 1].actionProps).Normal?
    ensures var call := Run(env, cfg, mw, args);
      call.outcome.Resolved? && call.outcome.result.Success? ==>
        call.outcome.result.data == cfg.action(call.trace[|call.trace| - 1].actionProps).value
  {
  }

  /** Whatever the action throws goes through the catch block. */
  lemma ActionThrowIsRecovered(env: Zod, cfg: ActionConfig, mw: Option<Middleware>, args: seq<Value>, props: ActionProps)
    requires ActionCalled(props) in Run(env, cfg, mw, args).trace
    requires cfg.action(props).Abrupt?
    ensures Run(env, cfg, mw, args).outcome == Recover(env, cfg, cfg.action(props).cause).outcome
  {
  }

  /** A middleware that throws skips the action; its cause goes through the
      catch block like any other. */
  lemma MiddlewareThrowSkipsAction(env: Zod, cfg: ActionConfig, mw: Option<Middleware>, args: seq<Value>, props: MiddlewareProps)
    requires mw.Some? && MiddlewareCalled(props) in Run(env, cfg, mw, args).trace
    requires mw.value(props).Abrupt?
    ensures forall s :: s in Run(env, cfg, mw, args).trace ==> !s.ActionCalled?
    ensures Run(env, cfg, mw, args).outcome == Recover(env, cfg, mw.value(props).cause).outcome
  {
  }

  /** The call settles to a result; the only thing that escapes is the
      navigation signal, unless the `onServerError` hook itself throws. */
  lemma NeverRejectsExceptRedirect(env: Zod, cfg: ActionConfig, mw: Option<Middleware>, args: seq<Value>)
    requires HookNeverThrows(cfg)
    ensures Run(env, cfg, mw, args).outcome.Rejected? ==> IsRedirect(Run(env, cfg, mw, args).outcome.cause)
  {
  }

  /** A navigation signal thrown by any step escapes unchanged, without a
      report or a log. */
  lemma RedirectEscapes(env: Zod, cfg: ActionConfig, mw: Option<Middleware>, args: seq<Value>)
    requires TryBlock(env, cfg, mw, args).completion.Abrupt?
    requires IsRedirect(TryBlock(env, cfg, mw, args).completion.cause)
    ensures Run(env, cfg, mw, args) ==
      Call(Rejected(TryBlock(env, cfg, mw, args).completion.cause), TryBlock(env, cfg, mw, args).trace)
  {
  }
}
