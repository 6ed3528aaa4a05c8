# server-action: the action pipeline, modelled and proved in Dafny

This project models the core of the `server-action` library: the server-side
wrapper that turns a configuration (`inputs` validators, options, an optional
middleware, a business `action`) into a callable server action. One call of
such an action:

1. classifies its argument list as `(anything, FormData)`, `(FormData)` or
   `(object)` (`null` included, since `typeof null === 'object'`), and throws
   `Invalid arguments` for anything else;
2. flattens a FormData into an object: the keys are collected once each, in
   order of first appearance, and each becomes one field; a key entered once
   maps to its value, a key entered several times to the ordered list of its
   values;
3. parses that candidate against `z.object({...inputs})`, which either
   validates it, fails with the issues of a `ZodError`, or throws whatever
   the schema's own refinements and transforms throw;
4. runs the optional middleware with `{inputs, metadata: meta ?? {}}`;
5. runs the action with `{inputs, middlewareData}`;
6. maps the outcome to `{status: 'success', data}` or
   `{status: 'error', type: 'validation' | 'server', message}`, rethrowing
   only the host framework's navigation signal.

Without `inputs` the arguments are ignored, the middleware gets only
`{metadata}` and the action only `{middlewareData}`. `createAction` is the
pipeline without a middleware; `createMiddleware` captures a middleware and
builds actions that run it.

## Files and modules

- `values.dfy` (`Values`): JavaScript values (`typeof`, `??`, truthiness, property access) and `Option`.
- `errors.dfy` (`Errors`): the kinds of thrown causes (`ValidationError` for a `ZodError`, `ActionError`, `Redirect`, `Unknown`) and `Completion` (a call into foreign code returns or throws).
- `form_data.dfy` (`FormData`): FormData `getAll`/`get`, key de-duplication, `Flatten` (the specification) and `FlattenForm` (the loop as written), with their properties.
- `action_types.dfy` (`ActionTypes`): configuration, middleware and action props, the `Zod` collaborator, the result shape, and the `Step` trace of observable calls.
- `handle_action.dfy` (`ActionHandler`): `handleAction` and the inner `action`: `Classify`, `Candidate`, `TryBlock`, `Recover` (the catch block), `Run` (one call), `HandleAction` (the closure), and the imperative `TryPath`/`Action`; the properties of one call.
- `create_action.dfy` (`ActionFactory`), `create_middleware.dfy` (`MiddlewareFactory`): the two public constructors.
- `scenarios.dfy` (`Scenarios`): the cases the repository's tests describe.

Code the wrapper does not own is a parameter: the validation library is a
`Zod` value with `parse` and `format` functions, the action, the middleware
and the `onServerError` hook are functions in the configuration. Each returns
a `Completion`, so any of them may throw any cause. A call's observable
effects (parse, middleware, action, hook, `console.log`) are recorded, in
order, in the `trace` of the resulting `Call`.

## Model

| member | source | states |
|---|---|---|
| `FormData.FlattenForm` | src/server/handleAction.ts:48-62 | The key-collecting loop (each key pushed unless already collected) and the per-key mapping produce exactly the flattened object `Flatten(form)`. |
| `FormData.FlattenKeysOnceInOrder` | src/server/handleAction.ts:49-53 | The collected key list, and so the list of fields handed to `Object.fromEntries`, has exactly the form's keys, each once, ordered by the position of their first entry. |
| `FormData.FlattenValues` | src/server/handleAction.ts:56-61 | A key entered once maps to that entry's value; a key entered n > 1 times maps to the list of its values, in insertion order, of length n. |
| `FormData.DedupMembers` | src/server/handleAction.ts:51-53 | The collected keys are exactly the keys the form iterates over. |
| `FormData.DedupDistinct` | src/server/handleAction.ts:52 | The `includes` check keeps every collected key unique. |
| `FormData.DedupFirstAppearance` | src/server/handleAction.ts:51-53 | Collected keys are ordered by the index of their first occurrence. |
| `FormData.GetAllCountsEntries` | src/server/handleAction.ts:57 | `getAll(key)` returns as many values as there are entries under the key. |
| `FormData.GetIsFirstEntry` | src/server/handleAction.ts:60 | For a key present in the form, `get(key)` is the first of `getAll(key)`, the value of its first entry. |
| `FormData.FirstIndex` | src/server/handleAction.ts:52 | The index returned holds the key, and no earlier index does. |
| `FormData.FirstIndexOfPrefix` | src/server/handleAction.ts:51-53 | The first occurrence of a key seen so far does not move as more keys are read. |
| `ActionHandler.Classify` | src/server/handleAction.ts:45-90 | The three accepted shapes, tested in the source's order, with both directions of each test; everything else is unrecognised. |
| `ActionHandler.Candidate` | src/server/handleAction.ts:45-90 | The candidate is the flattened form for both form shapes, the argument itself for a direct call, and the `Invalid arguments` throw exactly for an unrecognised shape. |
| `ActionHandler.Recover` | src/server/handleAction.ts:146-183 | The catch block never yields success; it yields `validation` exactly for a parse failure, with the formatter's message; an `ActionError` yields its own message, any other cause the default message; the navigation signal is rethrown unchanged; the hook hears of server errors once, with the kind of cause, and an unknown cause is logged when there is no hook; only a throwing hook makes anything else escape. |
| `ActionHandler.TryBlock` | src/server/handleAction.ts:41-145 | The try block: an unrecognised argument list throws before anything is called; with inputs the parse is the first call; the block completes normally only with the value the action returned, the action being its last call; at most three calls (parse, middleware, action). |
| `ActionHandler.Run` | src/server/handleAction.ts:36-184 | One call of the inner `action`: the try block's calls come first and the catch block only appends to them; the call rejects only with the navigation signal or with the cause the `onServerError` hook threw as the last step. |
| `ActionHandler.HandleAction` | src/server/handleAction.ts:9-187 | `handleAction(options, middleware)` returns the inner `action`, which answers every argument list by one `Run` with the captured options and middleware. |
| `ActionHandler.TryPath` | src/server/handleAction.ts:41-145 | The try block written with reassigned locals and early exits computes exactly `TryBlock`. |
| `ActionHandler.Action` | src/server/handleAction.ts:36-184 | The inner `action` (try block, then catch block) computes exactly `Run`. |
| `ActionHandler.FormShapesAgree` | src/server/handleAction.ts:45-87 | `(x, form)`, `(form)` and a direct call with the flattened form give the same call; the first argument is never read. |
| `ActionHandler.ArgumentsIgnoredWithoutInputs` | src/server/handleAction.ts:123-145 | Without inputs configured, any two argument lists give the same call. |
| `ActionHandler.InvalidArgumentsIsServerError` | src/server/handleAction.ts:88-90 | With inputs configured, an unrecognised argument list gives a server error with `defaultMessage ?? 'An unexpected error occurred.'`, logged, or reported as `unknown` to the hook (whose own throw would escape). |
| `ActionHandler.ValidationFailureStopsPipeline` | src/server/handleAction.ts:148-160 | A failed parse stops the call after the parse step: no middleware, no action, and a `validation` error formatted with `includePath ?? false` and `maxIssuesInMessage ?? 1`. |
| `ActionHandler.ParseThrowIsRecovered` | src/server/handleAction.ts:64-87 | A schema that throws something other than a `ZodError` stops the call after the parse step, and its cause is mapped by the catch block (a server error, or the navigation signal rethrown). |
| `ActionHandler.ValidatedInputsFlow` | src/server/handleAction.ts:92-115 | With inputs, the parse comes first, then the middleware with the validated inputs and `meta ?? {}`, then the action with the validated inputs and the middleware's result (`undefined` without a middleware). |
| `ActionHandler.NoInputsFlow` | src/server/handleAction.ts:123-140 | Without inputs, the middleware gets only `{metadata: meta ?? {}}` and the action only `{middlewareData}`. |
| `ActionHandler.StepsInOrder` | src/server/handleAction.ts:41-183 | Parse, middleware, action and report/log happen in that order, each at most once. |
| `ActionHandler.SuccessIsActionReturn` | src/server/handleAction.ts:117-120 | The result is a success exactly when the last step is the action and it returned; the data is its return value unchanged. |
| `ActionHandler.ActionThrowIsRecovered` | src/server/handleAction.ts:146-183 | Whatever the action throws is mapped by the catch block. |
| `ActionHandler.MiddlewareThrowSkipsAction` | src/server/handleAction.ts:94-107 | A throwing middleware skips the action; its cause is mapped by the catch block. |
| `ActionHandler.NeverRejectsExceptRedirect` | src/server/handleAction.ts:146-183 | When the `onServerError` hook does not throw, the only thing a call can throw is the navigation signal. |
| `ActionHandler.RedirectEscapes` | src/server/handleAction.ts:147 | A navigation signal thrown by any step escapes unchanged, with no report and no log. |
| `ActionFactory.CreateAction` | src/server/createAction.ts:15 | The action `createAction(options)` returns answers every argument list as `handleAction(options)` does with no middleware. |
| `ActionFactory.CreateActionRunsNoMiddleware` | src/server/createAction.ts:15 | An action made by `createAction` never runs a middleware step, and its action sees `middlewareData` undefined. |
| `MiddlewareFactory.CreateMiddleware` | src/server/createMiddleware.ts:27-34 | `createMiddleware(middleware)` returns a factory whose every action answers every argument list as `handleAction(options, middleware)` does. |
| `MiddlewareFactory.MiddlewareFeedsAction` | src/server/createMiddleware.ts:27-34 | The captured middleware runs with the per-action `meta ?? {}` and the validated inputs (when configured), and its return value reaches the action as `middlewareData`. |
| `MiddlewareFactory.ValidationSameAsCreateAction` | test/createMiddleware.test.ts:110-232 | A failed parse under a middleware gives the same call as under `createAction`: a validation error, middleware not run. |
| `Scenarios.DirectCallReturnsName` | test/createAction.test.ts:7-25 | `{name: 'Mohammed'}` returns `{status: 'success', data: 'Mohammed'}`. |
| `Scenarios.FormCallReturnsName` | test/createAction.test.ts:27-49 | A FormData with the same single field gives the same call and result. |
| `Scenarios.NoInputsCallReturnsValue` | test/createAction.test.ts:51-66 | Without inputs, a zero-argument call succeeds with the action's return value. |
| `Scenarios.FirstIssueOnlyByDefault` | test/createAction.test.ts:112-133 | With default options, two bad fields give the formatter's one-issue message `InvalidName`. |
| `Scenarios.TwoIssuesWhenAllowed` | test/createAction.test.ts:135-161 | With `maxIssuesInMessage: 2` the message is `InvalidName; InvalidAge`. |
| `Scenarios.IssuesWithPaths` | test/createAction.test.ts:163-190 | With `includePath: true` the message is `InvalidName at "name"; InvalidAge at "age"`. |
| `Scenarios.PlainErrorGivesDefaultMessage` | test/createAction.test.ts:192-206 | A plain `Error` gives a server error with the fallback message, and the cause is logged. |
| `Scenarios.ActionErrorGivesItsMessage` | test/createAction.test.ts:208-232 | `ActionError('Not Authorized')` gives a server error `Not Authorized` after the hook has been called with type `ActionError`. |
| `Scenarios.TwoEntriesFlatten` | src/server/handleAction.ts:75-82 | Two form entries under one key flatten to one field holding both values in entry order. |
| `Scenarios.FilesKeepOrder` | test/createAction.test.ts:234-263 | Two files come back as two elements in the same order, passed as an array or as two form entries under one key. |
| `Scenarios.MetaReachesMiddleware` | test/createMiddleware.test.ts:26-54 | `meta: {disabled: true}` reaches the middleware, whose signed-out result appears in `data`. |
| `Scenarios.FormCallSeesSession` | test/createMiddleware.test.ts:57-87 | A FormData call without `meta` sees the validated name and the signed-in session. |
| `Scenarios.MiddlewareRunsWithoutInputs` | test/createMiddleware.test.ts:89-108 | Without inputs or meta, the middleware runs first with `{}` and the action sees its result. |
| `Scenarios.ActionErrorUnderMiddleware` | test/createMiddleware.test.ts:250-274 | An `ActionError` under a middleware gives a server error with its own message. |

## Left out

- Zod parsing and `fromZodError` are code of other libraries: they are the `parse` and `format` functions of the `Zod` parameter. The messages the tests expect (`InvalidName`, `InvalidName; InvalidAge`, the `at "name"` form) are requirements on `format` in the scenario lemmas, not proved facts.
- `unstable_rethrow` is host-framework code: it is the `IsRedirect` test on a `Redirect` cause. The framework's other control-flow signals (not-found, dynamic-usage bail-outs) are folded into that one kind.
- Promises, `await` and scheduling: every asynchronous step is a sequential call; a rejected promise is a thrown cause. Concurrent calls share nothing, so there is nothing more to model.
- `console.log` is a `CauseLogged` step in the trace; what it prints is not modelled.
- JavaScript numbers are integers here; floating point is not modelled.
- The key order of a JavaScript object is not modelled: an object is a list of fields in insertion order. `Object.fromEntries` (src/server/handleAction.ts:55-62) lists integer-like keys (`"0"`, `"1"`, ...) first, in ascending order, so for a form whose keys are `"1"` then `"0"` the object's own order differs from the field list `Flatten` gives. `z.object` reads fields by name, so the parse result does not depend on this order.
- FormData converts appended non-file values to strings; entries here may carry any value, and the flattening does not look at them.
- The `inputs ? {...} : {}` fallback (src/server/handleAction.ts:110-114) is not a separate branch: a parsed `z.object` result is always an object, hence truthy, so the action always gets `{inputs, middlewareData}` when inputs are configured.
- The nested optional settings `options.validation.*` and `options.error.*` are flattened into one `Options` record of optional fields; `?.` on an absent level gives the same default.
- The type-level overload signatures (src/server/handleAction.ts:21-33) and the compile-time assertions under test/type are types only; the argument list is a `seq<Value>` classified at run time.
- src/client.ts (a React hook over the framework's state primitive), the earlier revisions src/server.ts and src/server/index.ts, and the demo pages under docs are not part of this model. src/server/types.ts contributes only the result shape.
- The idempotence of a call is not stated as a lemma: `Run` is a function, so equal inputs give equal calls by construction.
- NeverRejectsExceptRedirect: requires that the `onServerError` hook does not throw. The source awaits the hook inside the catch block, so a hook that throws makes the call reject with the hook's cause; `Recover` states that case.

## Code and specification

The library's design promises that a call never throws except for the
navigation signal. The code awaits `onServerError` inside the catch block
without a guard (src/server/handleAction.ts:162-164, 173-175), so a hook that
throws rejects the call. The model follows the code.
