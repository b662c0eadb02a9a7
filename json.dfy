/** Decoded JSON as the client handles it: the payload objects it builds and
    the response envelopes the transport hands back. Numbers are integers
    only; the fields the client itself writes or inspects are never
    fractional. */
module Json {
  import opened Wrappers

  datatype Value =
    | Null
    | Bool(b: bool)
    | Int(i: int)
    | Str(s: string)
    | Arr(items: seq<Value>)
    | Obj(fields: map<string, Value>)

  /** A JSON object, i.e. a Python `dict` with string keys. */
  type Object = map<string, Value>

  /** Python's `{**defaults, **overrides}`: every key of either side, and the
      overriding side's value wherever both sides hold the key. */
  function Merge(defaults: Object, overrides: Object): (r: Object)
    ensures r.Keys == defaults.Keys + overrides.Keys
    ensures forall k :: k in overrides ==> r[k] == overrides[k]
    ensures forall k :: k in defaults && k !in overrides ==> r[k] == defaults[k]
  {
    defaults + overrides
  }

  /** A Python list of strings as a JSON array. */
  function StrArr(xs: seq<string>): (r: Value)
    ensures r.Arr? && |r.items| == |xs|
    ensures forall i :: 0 <= i < |xs| ==> r.items[i] == Str(xs[i])
  {
    Arr(seq(|xs|, i requires 0 <= i < |xs| => Str(xs[i])))
  }

  /** An optional string argument as JSON: `None` is sent as `null`. */
  function OrNull(o: Option<string>): (r: Value)
    ensures r == Null <==> o.None?
    ensures o.Some? ==> r == Str(o.value)
  {
    match o
    case None => Null
    case Some(s) => Str(s)
  }
}
