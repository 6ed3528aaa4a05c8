/** `createAction` (src/server/createAction.ts): `handleAction` without a middleware. */
module ActionFactory {
  import opened Values
  import opened ActionTypes
  import opened ActionHandler

  /** The action `createAction(options)` returns answers every argument list
      as the inner action does with no middleware. */
  function CreateAction(env: Zod, cfg: ActionConfig): (action: seq<Value> -> Call)
    ensures forall args :: action(args) == Run(env, cfg, None, args)
  {
    HandleAction(env, cfg, None)
  }

  /** An action made by `createAction` never runs a middleware step, and the
      action always sees `middlewareData` undefined. */
  lemma CreateActionRunsNoMiddleware(env: Zod, cfg: ActionConfig, args: seq<Value>)
    ensures forall s :: s in CreateAction(env, cfg)(args).trace ==>
      !s.MiddlewareCalled? && (s.ActionCalled? ==> s.actionProps.middlewareData == Undefined)
  {
    assert CreateAction(env, cfg)(args) == Run(env, cfg, None, args);
  }
}
