/** JSON values as the translator sees them (decoded webhook bodies, outbound
    messages, settings), together with the handful of Python operations the
    translator applies to them: truthiness, `in`, subscripting by key and by
    index 0, `len`, slicing and iteration. Each operation fails with the
    exception Python would raise, so callers can model the error paths of the
    source instead of excluding malformed input. */
module Json {

  datatype Value =
    | Null
    | Bool(b: bool)
    | Num(n: real)   // numbers are opaque: only equality and truthiness matter
    | Str(s: string)
    | Arr(items: seq<Value>)
    | Obj(fields: map<string, Value>)

  /** The Python exception classes the core can raise. */
  datatype Error = KeyError | TypeError | IndexError | AttributeError | NameError | ValueError

  datatype Option<+T> = None | Some(value: T)

  datatype Result<+T> = Ok(value: T) | Err(error: Error) {
    predicate IsFailure() { Err? }
    function PropagateFailure<U>(): Result<U> requires Err? { Err(error) }
    function Extract(): T requires Ok? { value }
  }

  /** A computation that may stop half-way: `value` is what had been built
      when it stopped, `ok` says whether it ran to the end. */
  datatype Partial<+T> = Partial(value: T, ok: bool)

  /** Python's truth value of a JSON value. */
  predicate Truthy(v: Value) {
    match v
    case Null => false
    case Bool(b) => b
    case Num(n) => n != 0.0
    case Str(s) => s != ""
    case Arr(items) => items != []
    case Obj(m) => m != map[]
  }

  /** `k in s` for two Python strings. */
  predicate IsSubstring(k: string, s: string)
    decreases |s|
  {
    |k| <= |s| && (k == s[..|k|] || IsSubstring(k, s[1..]))
  }

  /** `key in c`: a dict tests its keys, a list its elements, a string its
      substrings; anything else is not a container. */
  function Contains(key: string, c: Value): Result<bool> {
    match c
    case Obj(m) => Ok(key in m)
    case Arr(items) => Ok(Str(key) in items)
    case Str(s) => Ok(IsSubstring(key, s))
    case _ => Err(TypeError)
  }

  /** `c[key]` with a string key. */
  function GetKey(c: Value, key: string): Result<Value> {
    match c
    case Obj(m) => if key in m then Ok(m[key]) else Err(KeyError)
    case _ => Err(TypeError)
  }

  /** `c[k1][k2]...` */
  function Path(c: Value, keys: seq<string>): Result<Value>
    decreases |keys|
  {
    if keys == [] then Ok(c)
    else
      var next :- GetKey(c, keys[0]);
      Path(next, keys[1..])
  }

  /** `c[0]`: JSON object keys are strings, so a dict has no key 0. */
  function First(c: Value): Result<Value> {
    match c
    case Arr(items) => if items == [] then Err(IndexError) else Ok(items[0])
    case Str(s) => if s == "" then Err(IndexError) else Ok(Str([s[0]]))
    case Obj(_) => Err(KeyError)
    case _ => Err(TypeError)
  }

  /** `len(c)` */
  function Length(c: Value): Result<nat> {
    match c
    case Arr(items) => Ok(|items|)
    case Str(s) => Ok(|s|)
    case Obj(m) => Ok(|m|)
    case _ => Err(TypeError)
  }

  /** `c[:n]` */
  function Prefix(c: Value, n: nat): Result<Value> {
    match c
    case Str(s) => Ok(Str(if |s| <= n then s else s[..n]))
    case Arr(items) => Ok(Arr(if |items| <= n then items else items[..n]))
    case _ => Err(TypeError)
  }

  /** The one-character strings a Python string iterates over. */
  function Chars(s: string): (r: seq<Value>)
    ensures |r| == |s|
    ensures forall i :: 0 <= i < |s| ==> r[i] == Str([s[i]])
  {
    seq(|s|, i requires 0 <= i < |s| => Str([s[i]]))
  }

  /** Strings as the items iterating over a dict's keys yields. */
  function StrItems(keys: seq<string>): (r: seq<Value>)
    ensures |r| == |keys|
    ensures forall i :: 0 <= i < |keys| ==> r[i] == Str(keys[i])
  {
    seq(|keys|, i requires 0 <= i < |keys| => Str(keys[i]))
  }
}
