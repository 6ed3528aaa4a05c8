/** JavaScript values as the action wrapper sees them: arguments, form entries,
    validated inputs, metadata and whatever the user's callbacks return. */
module Values {

  datatype Option<+T> = None | Some(value: T) {
    /** `x ?? fallback` for a setting that is either present or absent. */
    function GetOr(fallback: T): T {
      if Some? then value else fallback
    }
  }

  /** A JavaScript value. Numbers are integers here; `Callable` stands for any
      function value and `File` for a `File`/`Blob` form entry. */
  datatype Value =
    | Undefined
    | Null
    | Bool(b: bool)
    | Num(n: int)
    | Str(s: string)
    | File(name: string, size: nat)
    | Callable(id: nat)
    | Arr(elements: seq<Value>)
    | Obj(fields: seq<Field>)
    | Form(entries: seq<Field>)

  /** A named slot: an own property of an object, or one entry of a FormData. */
  datatype Field = Field(key: string, value: Value)

  /** The `typeof` operator. */
  function TypeOf(v: Value): string {
    match v
    case Undefined => "undefined"
    case Bool(_) => "boolean"
    case Num(_) => "number"
    case Str(_) => "string"
    case Callable(_) => "function"
    case _ => "object"
  }

  predicate IsNullish(v: Value) {
    v.Undefined? || v.Null?
  }

  /** The nullish-coalescing operator `v ?? fallback`. */
  function Coalesce(v: Value, fallback: Value): Value {
    if IsNullish(v) then fallback else v
  }

  /** JavaScript truthiness, as used by `if (x)`. */
  predicate Truthy(v: Value) {
    match v
    case Undefined => false
    case Null => false
    case Bool(b) => b
    case Num(n) => n != 0
    case Str(s) => s != ""
    case _ => true
  }

  /** `obj[key]` over the fields of an object literal (its keys are distinct);
      `undefined` when the key is absent. */
  function Lookup(fields: seq<Field>, key: string): Value {
    if fields == [] then Undefined
    else if fields[0].key == key then fields[0].value
    else Lookup(fields[1..], key)
  }

  /** Property access `v.key`; anything but an object literal has no such property here. */
  function Property(v: Value, key: string): Value {
    if v.Obj? then Lookup(v.fields, key) else Undefined
  }
}
