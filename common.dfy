/** Shared value types: optional values, results, and the scalar values that
    flow through the monitoring server's dictionaries and the agent's cursors. */
module Common {

  datatype Option<+T> = None | Some(value: T)

  datatype Result<+T, +E> = Ok(value: T) | Err(error: E)

  /** A value as the server sees it in a decoded JSON object or a database row:
      Python's None, bool, int, float and str, and the lists and dictionaries
      built from them (the metrics dictionary carries lists such as
      wait_events and top_sql). */
  datatype Value =
    | Null
    | Bool(b: bool)
    | Int(i: int)
    | Num(x: real)
    | Str(s: string)
    | List(items: seq<Value>)
    | Dict(entries: map<string, Value>)

  function Min(a: nat, b: nat): nat
  {
    if a <= b then a else b
  }

  /** Python truthiness of a scalar: None, False, 0, 0.0 and "" are falsy. */
  predicate Truthy(v: Value)
  {
    match v
    case Null => false
    case Bool(b) => b
    case Int(i) => i != 0
    case Num(x) => x != 0.0
    case Str(s) => s != ""
    case List(items) => items != []
    case Dict(entries) => entries != map[]
  }

  /** The number a Python ordering comparison against an int sees: bool counts
      as 0 or 1, int and float as themselves; None, str, list and dict raise
      TypeError. */
  function AsNumber(v: Value): (r: Option<real>)
    ensures r.Some? <==> (v.Bool? || v.Int? || v.Num?)
    ensures v.Int? ==> r == Some(v.i as real)
    ensures v.Num? ==> r == Some(v.x)
  {
    match v
    case Bool(b) => Some(if b then 1.0 else 0.0)
    case Int(i) => Some(i as real)
    case Num(x) => Some(x)
    case _ => None
  }
}
