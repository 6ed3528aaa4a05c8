/** The behaviour the repository's tests describe (test/createAction.test.ts,
    test/createMiddleware.test.ts), stated for every validation library that
    parses and formats as those tests observe. */
module Scenarios {
  import opened Values
  import opened Errors
  import opened FormData
  import opened ActionTypes
  import opened ActionHandler
  import opened ActionFactory
  import opened MiddlewareFactory

  const NoOptions: Options := Options(None, None, None, None)
  const NameField: seq<Field> := [Field("name", Str("Mohammed"))]

  /** `props.inputs[key]` */
  function InputOf(props: ActionProps, key: string): Value {
    if props.WithInputs? then Lookup(props.inputs, key) else Undefined
  }

  /** `createAction({inputs: {name: z.string()}, action: ({inputs}) => inputs.name})` */
  function ReturnName(schema: Schema): ActionConfig {
    ActionConfig(Some(schema), Undefined, NoOptions, props => Normal(InputOf(props, "name")))
  }

  lemma DirectCallReturnsName(env: Zod, schema: Schema)
    requires env.parse(schema, Obj(NameField)) == Parsed(NameField)
    ensures CreateAction(env, ReturnName(schema))([Obj(NameField)]).outcome == Resolved(Success(Str("Mohammed")))
  {
  }

  /** A FormData carrying the same single field gives the same result. */
  lemma FormCallReturnsName(env: Zod, schema: Schema)
    requires env.parse(schema, Obj(NameField)) == Parsed(NameField)
    ensures CreateAction(env, ReturnName(schema))([Form(NameField)]) == CreateAction(env, ReturnName(schema))([Obj(NameField)])
    ensures CreateAction(env, ReturnName(schema))([Form(NameField)]).outcome == Resolved(Success(Str("Mohammed")))
  {
    assert Dedup(KeysOf(NameField)) == ["name"];
    assert Flatten(NameField) == NameField;
    FormShapesAgree(env, ReturnName(schema), None, Undefined, NameField);
  }

  lemma NoInputsCallReturnsValue(env: Zod, v: Value)
    ensures CreateAction(env, ActionConfig(None, Undefined, NoOptions, _ => Normal(v)))([]).outcome == Resolved(Success(v))
  {
  }

  const BadNameAge: seq<Field> := [Field("name", Num(123)), Field("age", Str("test"))]
  const NameAgeIssues: seq<Issue> := [Issue("InvalidName", ["name"]), Issue("InvalidAge", ["age"])]

  /** Inputs `{name: z.string(...), age: z.number(...)}` and an action that never runs. */
  function NameAge(schema: Schema, options: Options): ActionConfig {
    ActionConfig(Some(schema), Undefined, options, _ => Normal(Str("test")))
  }

  lemma FirstIssueOnlyByDefault(env: Zod, schema: Schema)
    requires env.parse(schema, Obj(BadNameAge)) == Invalid(NameAgeIssues)
    requires env.format(NameAgeIssues, false, 1) == "InvalidName"
    ensures CreateAction(env, NameAge(schema, NoOptions))([Obj(BadNameAge)]).outcome ==
      Resolved(Error(Validation, "InvalidName"))
  {
  }

  lemma TwoIssuesWhenAllowed(env: Zod, schema: Schema)
    requires env.parse(schema, Obj(BadNameAge)) == Invalid(NameAgeIssues)
    requires env.format(NameAgeIssues, false, 2) == "InvalidName; InvalidAge"
    ensures CreateAction(env, NameAge(schema, Options(None, Some(2), None, None)))([Obj(BadNameAge)]).outcome ==
      Resolved(Error(Validation, "InvalidName; InvalidAge"))
  {
  }

  lemma IssuesWithPaths(env: Zod, schema: Schema)
    requires env.parse(schema, Obj(BadNameAge)) == Invalid(NameAgeIssues)
    requires env.format(NameAgeIssues, true, 2) == "InvalidName at \"name\"; InvalidAge at \"age\""
    ensures CreateAction(env, NameAge(schema, Options(Some(true), Some(2), None, None)))([Obj(BadNameAge)]).outcome ==
      Resolved(Error(Validation, "InvalidName at \"name\"; InvalidAge at \"age\""))
  {
  }

  /** A plain `Error` thrown by the action: a server error with the default message. */
  lemma PlainErrorGivesDefaultMessage(env: Zod, message: string)
    ensures var call := CreateAction(env, ActionConfig(None, Undefined, NoOptions, _ => Abrupt(Unknown(message))))([]);
      call.outcome == Resolved(Error(Server, FallbackMessage)) &&
      call.trace == [ActionCalled(WithoutInputs(Undefined)), CauseLogged(Unknown(message))]
  {
  }

  const NotAuthorized: Cause := ActionError("Not Authorized")

  function ThrowsActionError(hook: ServerErrorReport -> Completion): ActionConfig {
    ActionConfig(None, Undefined, Options(None, None, Some(hook), None), _ => Abrupt(NotAuthorized))
  }

  /** `ActionError('Not Authorized')`: a server error with its own message,
      after the hook has heard of it. */
  lemma ActionErrorGivesItsMessage(env: Zod, hook: ServerErrorReport -> Completion)
    requires hook(ServerErrorReport(ActionErrorReport, NotAuthorized)).Normal?
    ensures var call := CreateAction(env, ThrowsActionError(hook))([]);
      call.outcome == Resolved(Error(Server, "Not Authorized")) &&
      call.trace == [ActionCalled(WithoutInputs(Undefined)), ErrorReported(ServerErrorReport(ActionErrorReport, NotAuthorized))]
  {
  }

  /** `({inputs}) => inputs` */
  function ReturnInputs(schema: Schema): ActionConfig {
    ActionConfig(Some(schema), Undefined, NoOptions, (props: ActionProps) => Normal(if props.WithInputs? then Obj(props.inputs) else Undefined))
  }

  /** Two entries under one key flatten to one field holding both values, in order. */
  lemma TwoEntriesFlatten(key: string, first: Value, second: Value)
    ensures Flatten([Field(key, first), Field(key, second)]) == [Field(key, Arr([first, second]))]
  {
    var form := [Field(key, first), Field(key, second)];
    assert KeysOf(form) == [key, key];
    assert [key, key][..1] == [key] && [key][..0] == [];
    assert Dedup([key]) == [key];
    assert Dedup([key, key]) == [key];
    assert form[1..] == [Field(key, second)] && form[1..][1..] == [];
    assert GetAll(form[1..], key) == [second] + GetAll([], key);
    assert GetAll(form, key) == [first, second];
  }

  /** Two files under one field come back as two elements in the same order,
      whether passed as an array or as two form entries under one key. */
  lemma FilesKeepOrder(env: Zod, schema: Schema, first: Value, second: Value)
    requires env.parse(schema, Obj([Field("file", Arr([first, second]))])) == Parsed([Field("file", Arr([first, second]))])
    ensures CreateAction(env, ReturnInputs(schema))([Obj([Field("file", Arr([first, second]))])]).outcome ==
      Resolved(Success(Obj([Field("file", Arr([first, second]))])))
    ensures CreateAction(env, ReturnInputs(schema))([Form([Field("file", first), Field("file", second)])]).outcome ==
      Resolved(Success(Obj([Field("file", Arr([first, second]))])))
  {
    TwoEntriesFlatten("file", first, second);
    FormShapesAgree(env, ReturnInputs(schema), None, Undefined, [Field("file", first), Field("file", second)]);
  }

  const SignedOut: Value := Obj([Field("isSignedIn", Bool(false)), Field("session", Null)])
  const Session: Value := Obj([Field("username", Str("Ayterx"))])
  const SignedIn: Value := Obj([Field("isSignedIn", Bool(true)), Field("session", Session)])

  /** The tests' session middleware: signed out when `metadata.disabled`. */
  function AuthMiddleware(props: MiddlewareProps): Completion {
    if Truthy(Property(props.metadata, "disabled")) then Normal(SignedOut) else Normal(SignedIn)
  }

  /** `meta: {disabled: true}` reaches the middleware, whose result the action returns. */
  lemma MetaReachesMiddleware(env: Zod, schema: Schema)
    requires env.parse(schema, Obj(NameField)) == Parsed(NameField)
    ensures var cfg := ActionConfig(Some(schema), Obj([Field("disabled", Bool(true))]), NoOptions,
                                    props => Normal(Obj([Field("username", InputOf(props, "name")),
                                                         Field("middlewareData", props.middlewareData)])));
      CreateMiddleware(env, AuthMiddleware)(cfg)([Obj(NameField)]).outcome ==
        Resolved(Success(Obj([Field("username", Str("Mohammed")), Field("middlewareData", SignedOut)])))
  {
  }

  /** `({inputs, middlewareData}) => ({username: inputs.name, session: middlewareData.session})` */
  function SessionAction(schema: Schema): ActionConfig {
    ActionConfig(Some(schema), Undefined, NoOptions,
                 props => Normal(Obj([Field("username", InputOf(props, "name")),
                                      Field("session", Property(props.middlewareData, "session"))])))
  }

  /** A FormData call without `meta`: the middleware signs in and the action
      sees the validated inputs and the session. */
  lemma FormCallSeesSession(env: Zod, schema: Schema)
    requires env.parse(schema, Obj(NameField)) == Parsed(NameField)
    ensures CreateMiddleware(env, AuthMiddleware)(SessionAction(schema))([Form(NameField)]).outcome ==
      Resolved(Success(Obj([Field("username", Str("Mohammed")), Field("session", Session)])))
  {
    assert Dedup(KeysOf(NameField)) == ["name"];
    assert Flatten(NameField) == NameField;
    FormShapesAgree(env, SessionAction(schema), Some(AuthMiddleware), Undefined, NameField);
    assert Property(Obj([]), "disabled") == Undefined;
    assert AuthMiddleware(MiddlewareProps(Some(NameField), Obj([]))) == Normal(SignedIn);
    assert "isSignedIn" != "session" by { assert "isSignedIn"[0] != "session"[0]; }
    assert SignedIn.fields[0].key == "isSignedIn";
    assert SignedIn.fields[1..] == [Field("session", Session)];
    assert Lookup(SignedIn.fields, "session") == Lookup(SignedIn.fields[1..], "session");
    assert Lookup([Field("session", Session)], "session") == Session;
    assert Property(SignedIn, "session") == Session;
  }

  /** No inputs and no `meta`: the middleware still runs, with `{}`. */
  lemma MiddlewareRunsWithoutInputs(env: Zod)
    ensures var cfg := ActionConfig(None, Undefined, NoOptions,
                                    (props: ActionProps) => Normal(Obj([Field("isSignedIn", Property(props.middlewareData, "isSignedIn"))])));
      var call := CreateMiddleware(env, AuthMiddleware)(cfg)([]);
      call.outcome == Resolved(Success(Obj([Field("isSignedIn", Bool(true))]))) &&
      call.trace[0] == MiddlewareCalled(MiddlewareProps(None, Obj([])))
  {
  }

  lemma ActionErrorUnderMiddleware(env: Zod, hook: ServerErrorReport -> Completion)
    requires hook(ServerErrorReport(ActionErrorReport, NotAuthorized)).Normal?
    ensures CreateMiddleware(env, AuthMiddleware)(ThrowsActionError(hook))([]).outcome ==
      Resolved(Error(Server, "Not Authorized"))
  {
  }
}
