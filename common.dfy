/** Values shared by the session store, the credential cache and the login flow. */
module Common {

  datatype Option<+T> = None | Some(value: T)

  /** A scalar as it sits in a table cell or a Python variable: `None`, a string or an integer. */
  datatype Value = Null | Str(s: string) | Int(i: int)

  /** Python truthiness of a scalar: `None`, `''` and `0` are false. */
  predicate Truthy(v: Value)
  {
    match v
    case Null => false
    case Str(s) => s != ""
    case Int(i) => i != 0
  }

  /** Python's `a or b`: the first operand when it is truthy, otherwise the second. */
  function Or(a: Value, b: Value): (r: Value)
    ensures Truthy(a) ==> r == a
    ensures !Truthy(a) ==> r == b
  {
    if Truthy(a) then a else b
  }

  /** `os.getenv(name, default)` over a snapshot of the process environment. */
  function GetEnv(env: map<string, string>, name: string, default: string): (r: string)
    ensures name in env ==> r == env[name]
    ensures name !in env ==> r == default
  {
    if name in env then env[name] else default
  }

  /** The `user_data` dict built from the platform's `get_me()` reply: exactly these five keys. */
  datatype UserData = UserData(
    id: int,
    phone: Option<string>,
    username: Option<string>,
    firstName: Option<string>,
    lastName: Option<string>)

  /** A row of a key/value table (`config`, `statistics`). */
  datatype KeyValue = KeyValue(key: string, value: Value)
}
