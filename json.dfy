/** A decoded JSON document and the JavaScript rules the source uses to
    read it: optional chaining (`v?.key`, `v?.[0]`), truthiness, `typeof`
    checks and `for ... of` iteration. `JSON.parse` itself is not modelled:
    the stream parsers take it as a parameter that returns `None` where it
    would throw. */
module Json {
  import opened Wrappers

  datatype Value =
    | Null
    | Bool(b: bool)
    | Num(n: real)
    | Str(s: string)
    | Arr(items: seq<Value>)
    | Obj(fields: map<string, Value>)

  /** `v?.key` for a property name that is not an index and not `length`:
      only objects have such properties; `None` is `undefined`. */
  function Member(v: Option<Value>, key: string): (r: Option<Value>)
    ensures r.Some? ==> v.Some? && v.value.Obj? && key in v.value.fields
  {
    match v
    case Some(Obj(fields)) => if key in fields then Some(fields[key]) else None
    case _ => None
  }

  /** `v?.[0]`: the first element of an array, the first character of a
      string, the property `"0"` of an object, otherwise `undefined`. */
  function First(v: Option<Value>): Option<Value> {
    match v
    case Some(Arr(items)) => if |items| > 0 then Some(items[0]) else None
    case Some(Str(s)) => if |s| > 0 then Some(Str([s[0]])) else None
    case Some(Obj(_)) => Member(v, "0")
    case _ => None
  }

  /** JavaScript truthiness; `undefined` (`None`) is falsy. */
  predicate Truthy(v: Option<Value>) {
    match v
    case None => false
    case Some(Null) => false
    case Some(Bool(b)) => b
    case Some(Num(n)) => n != 0.0
    case Some(Str(s)) => s != ""
    case Some(_) => true
  }

  /** `typeof v === 'string' ? v : undefined`. */
  function AsString(v: Option<Value>): (r: Option<string>)
    ensures r.Some? <==> v.Some? && v.value.Str?
  {
    match v
    case Some(Str(s)) => Some(s)
    case _ => None
  }

  /** A string property that is present and non-empty, as
      `typeof x === 'string' && x.length > 0` and `typeof x === 'string' && x`. */
  function NonEmptyString(v: Option<Value>): (r: Option<string>)
    ensures r.Some? ==> r.value != "" && v == Some(Str(r.value))
    ensures r.None? ==> AsString(v).None? || AsString(v) == Some("")
  {
    match v
    case Some(Str(s)) => if s != "" then Some(s) else None
    case _ => None
  }

  /** `for (const x of v)`: arrays yield their elements, strings their
      characters; any other value is not iterable and the loop throws
      (`None`). */
  function Iterate(v: Value): (r: Option<seq<Value>>)
    ensures v.Arr? ==> r == Some(v.items)
    ensures r.None? <==> !v.Arr? && !v.Str?
  {
    match v
    case Arr(items) => Some(items)
    case Str(s) => Some(Chars(s))
    case _ => None
  }

  /** The one-character strings of `s`, in order. */
  function Chars(s: string): (r: seq<Value>)
    ensures |r| == |s|
  {
    if s == [] then [] else [Str([s[0]])] + Chars(s[1..])
  }

  /** `v || []` followed by `for ... of`: a falsy value iterates nothing. */
  function IterateOrEmpty(v: Option<Value>): (r: Option<seq<Value>>)
    ensures !Truthy(v) ==> r == Some([])
    ensures v.Some? && v.value.Arr? ==> r == Some(v.value.items)
  {
    if Truthy(v) then Iterate(v.value) else Some([])
  }
}
