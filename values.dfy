/** JavaScript values, as far as the transport looks at them.

    Payloads travel as JSON; the model hands them over unchanged, which is what
    serialising and parsing do to the values built from Null, Bool, Num, Str,
    Arr and Obj. Numbers are integers (floating point and NaN are not
    modelled), a function is an opaque token, a date carries its timestamp. */
module Values {

  datatype Option<T> = None | Some(value: T)

  datatype Result<T, E> = Ok(value: T) | Err(error: E)

  datatype Value =
    | Undefined
    | Null
    | Bool(b: bool)
    | Num(n: int)
    | Str(s: string)
    | Date(time: int)
    | Arr(items: seq<Value>)
    | Obj(fields: map<string, Value>)
    | Func(token: nat)
    | Instance(token: nat) // an object that is not plain: a class instance, an Error, a RegExp, ...
                           // (boxed numbers and strings are not modelled)

  /** `null` and `undefined`: reading a property of either throws a TypeError. */
  predicate IsNullish(v: Value) {
    v.Undefined? || v.Null?
  }

  /** JavaScript truthiness (`if (v)`). */
  predicate Truthy(v: Value) {
    match v
    case Undefined => false
    case Null => false
    case Bool(b) => b
    case Num(n) => n != 0
    case Str(s) => s != ""
    case _ => true
  }

  /** The value of property `key` of `v`, for any `v` that is not nullish: only
      plain objects carry the properties the transport reads (the properties of
      other objects are not modelled). */
  function Get(v: Value, key: string): Value {
    if v.Obj? && key in v.fields then v.fields[key] else Undefined
  }

  /** `v.key`: None stands for the TypeError thrown when `v` is nullish. */
  function Member(v: Value, key: string): Option<Value> {
    if IsNullish(v) then None else Some(Get(v, key))
  }
}
