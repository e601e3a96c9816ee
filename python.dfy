/** The slice of Python's runtime behaviour that the integration relies on:
    JSON-like values as delivered by the recognition service and stored by
    Home Assistant, the exceptions the code can raise, subscripting (`v[k]`)
    and comparison with a float. */
module Python {

  datatype Option<+T> = None | Some(value: T)

  /** The exceptions the modelled code can raise. */
  datatype Exception = KeyError | TypeError | IndexError | AttributeError

  /** The result of a Python call: a returned value or a raised exception.
      Failure-compatible, so `:-` propagates an exception the way Python does. */
  datatype Outcome<+T> = Returned(value: T) | Raised(exc: Exception) {
    predicate IsFailure() {
      Raised?
    }

    function PropagateFailure<U>(): Outcome<U>
      requires Raised?
    {
      Raised(exc)
    }

    function Extract(): T
      requires Returned?
    {
      value
    }
  }

  /** A JSON-like Python value. Dictionary keys are strings, as in decoded
      JSON and in Home Assistant's config-entry data. */
  datatype Value =
    | Null
    | Bool(b: bool)
    | Int(i: int)
    | Float(x: real)
    | Str(s: string)
    | List(items: seq<Value>)
    | Dict(entries: map<string, Value>)

  /** What stands between the brackets of a subscript: a key or a
      non-negative position. */
  datatype Subscript = Key(name: string) | Index(n: nat)

  /** `dict.get(key)`: the value under `key`, or None when it is absent. */
  function Get(m: map<string, Value>, key: string): (v: Value)
    ensures key in m ==> v == m[key]
    ensures key !in m ==> v == Null
  {
    if key in m then m[key] else Null
  }

  /** Python's `v[k]` on a value: dictionaries are looked up by key (a
      missing key, or a position, is a KeyError), lists and strings by
      position (past the end is an IndexError; a string yields a
      one-character string), and everything else is not subscriptable
      (TypeError), as is a list or string subscripted by a key. */
  function GetItem(v: Value, k: Subscript): (r: Outcome<Value>)
    ensures r.Returned? <==>
      || (v.Dict? && k.Key? && k.name in v.entries)
      || (v.List? && k.Index? && k.n < |v.items|)
      || (v.Str? && k.Index? && k.n < |v.s|)
    ensures r.Returned? && v.Dict? ==> r.value == v.entries[k.name]
    ensures r.Returned? && v.List? ==> r.value == v.items[k.n]
    ensures r.Raised? ==> r.exc != AttributeError
  {
    match v
    case Dict(entries) =>
      if k.Key? && k.name in entries then Returned(entries[k.name]) else Raised(KeyError)
    case List(items) =>
      if k.Index? then
        if k.n < |items| then Returned(items[k.n]) else Raised(IndexError)
      else Raised(TypeError)
    case Str(s) =>
      if k.Index? then
        if k.n < |s| then Returned(Str([s[k.n]])) else Raised(IndexError)
      else Raised(TypeError)
    case _ => Raised(TypeError)
  }

  /** The number a value stands for in a numeric comparison: `bool` and
      `int` compare as numbers in Python, the other kinds do not. */
  function Numeric(v: Value): Option<real>
  {
    match v
    case Bool(b) => Some(if b then 1.0 else 0.0)
    case Int(i) => Some(i as real)
    case Float(x) => Some(x)
    case _ => None
  }

  /** Python's `v > bound` for a float `bound`: a TypeError unless `v` is a
      number. */
  function GreaterThan(v: Value, bound: real): (r: Outcome<bool>)
    ensures r.Returned? <==> Numeric(v).Some?
    ensures r.Returned? ==> (r.value <==> Numeric(v).value > bound)
    ensures r.Raised? ==> r.exc == TypeError
  {
    match v
    case Bool(b) => Returned((if b then 1.0 else 0.0) > bound)
    case Int(i) => Returned(i as real > bound)
    case Float(x) => Returned(x > bound)
    case _ => Raised(TypeError)
  }

  /** `os.path.join(dir, name)` for a relative `name`: a TypeError unless
      `dir` is a string; otherwise `dir`, one "/" unless `dir` is empty or
      already ends in one, and `name`. */
  function PathJoin(dir: Value, name: string): (r: Outcome<string>)
    ensures r.Returned? <==> dir.Str?
    ensures r.Raised? ==> r.exc == TypeError
    ensures r.Returned? ==>
      && dir.s <= r.value && |dir.s| + |name| <= |r.value|
      && r.value[|r.value| - |name|..] == name
      && var sep := r.value[|dir.s|..|r.value| - |name|];
         sep == (if dir.s == [] || dir.s[|dir.s| - 1] == '/' then "" else "/")
  {
    if !dir.Str? then Raised(TypeError)
    else if dir.s == [] || dir.s[|dir.s| - 1] == '/' then Returned(dir.s + name)
    else Returned(dir.s + "/" + name)
  }
}
