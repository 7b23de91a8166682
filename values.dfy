/**
 * Structured tool input: the `map[string]interface{}` that the JSON decoder
 * hands to the tools and to the policy gate.
 */
module Values {
  import opened Wrappers

  /**
   * One decoded JSON value. JSON numbers are kept as the integers the code
   * obtains from them with `int64(float64)`, i.e. after truncation; a number
   * outside int64's range, whose conversion Go leaves to the platform, is
   * not modelled.
   */
  datatype Value =
    | Str(s: string)
    | Int(n: int)
    | Bool(b: bool)
    | Arr(items: seq<Value>)
    | Obj(fields: map<string, Value>)
    | Null

  /** A tool's structured input. */
  type Input = map<string, Value>

  /** The Go type assertion `input[key].(string)`: absent or not a string gives no value. */
  function GetString(input: Input, key: string): (r: Option<string>)
    ensures r.Some? <==> key in input && input[key].Str?
    ensures r.Some? ==> input[key] == Str(r.value)
  {
    if key in input && input[key].Str? then Some(input[key].s) else None
  }

  /** The type assertion of a JSON number, already truncated to an integer. */
  function GetInt(input: Input, key: string): (r: Option<int>)
    ensures r.Some? <==> key in input && input[key].Int?
    ensures r.Some? ==> input[key] == Int(r.value)
  {
    if key in input && input[key].Int? then Some(input[key].n) else None
  }

  /** The type assertion `input[key].(bool)`. */
  function GetBool(input: Input, key: string): (r: Option<bool>)
    ensures r.Some? <==> key in input && input[key].Bool?
    ensures r.Some? ==> input[key] == Bool(r.value)
  {
    if key in input && input[key].Bool? then Some(input[key].b) else None
  }

  /** A required string field: present, a string, and not empty (`!ok || s == ""` is an error). */
  function RequiredString(input: Input, key: string): (r: Option<string>)
    ensures r.Some? <==> key in input && input[key].Str? && input[key].s != ""
    ensures r.Some? ==> input[key] == Str(r.value)
  {
    match GetString(input, key)
    case Some(s) => if s == "" then None else Some(s)
    case None => None
  }

  /** An optional number with a default and an upper cap; a value below the cap is kept as given. */
  function Capped(input: Input, key: string, default: int, cap: int): (n: int)
    requires default <= cap
    ensures n <= cap
    ensures GetInt(input, key).None? ==> n == default
    ensures GetInt(input, key).Some? && GetInt(input, key).value <= cap ==> n == GetInt(input, key).value
    ensures GetInt(input, key).Some? && GetInt(input, key).value > cap ==> n == cap
  {
    var v := match GetInt(input, key) case Some(x) => x case None => default;
    if v > cap then cap else v
  }
}
