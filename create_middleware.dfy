/** `createMiddleware` (src/server/createMiddleware.ts): capture a middleware,
    then build actions that run it between validation and the action. */
module MiddlewareFactory {
  import opened Values
  import opened ActionTypes
  import opened ActionHandler

  /** `createMiddleware(middleware)` returns a factory: every action it makes
      answers every argument list as the inner action does with that
      middleware captured. */
  function CreateMiddleware(env: Zod, mw: Middleware): (factory: ActionConfig -> (seq<Value> -> Call))
    ensures forall cfg, args :: factory(cfg)(args) == Run(env, cfg, Some(mw), args)
  {
    cfg => HandleAction(env, cfg, Some(mw))
  }

  /** The middleware sees the per-action `meta` as `metadata` (`{}` when
      absent) and, when inputs are configured, the validated inputs; what it
      returns reaches the action as `middlewareData`. */
  lemma MiddlewareFeedsAction(env: Zod, mw: Middleware, cfg: ActionConfig, args: seq<Value>)
    requires cfg.inputs.Some? ==>
      Candidate(args).Normal? && env.parse(cfg.inputs.value, Candidate(args).value).Parsed?
    ensures var t := CreateMiddleware(env, mw)(cfg)(args).trace;
      var inputs := if cfg.inputs.Some? then Some(env.parse(cfg.inputs.value, Candidate(args).value).record) else None;
      var props := MiddlewareProps(inputs, Coalesce(cfg.meta, Obj([])));
      && MiddlewareCalled(props) in t
      && (mw(props).Normal? ==>
            ActionCalled(if inputs.Some? then WithInputs(inputs.value, mw(props).value)
                         else WithoutInputs(mw(props).value)) in t)
  {
    assert CreateMiddleware(env, mw)(cfg)(args) == Run(env, cfg, Some(mw), args);
    if cfg.inputs.Some? {
      ValidatedInputsFlow(env, cfg, Some(mw), args, Candidate(args).value, env.parse(cfg.inputs.value, Candidate(args).value).record);
    } else {
      NoInputsFlow(env, cfg, Some(mw), args);
    }
  }

  /** Validation under a middleware behaves as under `createAction`: a failed
      parse gives the same validation error, and the middleware does not run. */
  lemma ValidationSameAsCreateAction(env: Zod, mw: Middleware, cfg: ActionConfig, args: seq<Value>)
    requires cfg.inputs.Some? && Candidate(args).Normal?
    requires env.parse(cfg.inputs.value, Candidate(args).value).Invalid?
    ensures CreateMiddleware(env, mw)(cfg)(args) == HandleAction(env, cfg, None)(args)
    ensures CreateMiddleware(env, mw)(cfg)(args).outcome.result.kind == Validation
  {
    var c := Candidate(args).value;
    var issues := env.parse(cfg.inputs.value, c).issues;
    ValidationFailureStopsPipeline(env, cfg, Some(mw), args, c, issues);
    ValidationFailureStopsPipeline(env, cfg, None, args, c, issues);
  }
}
