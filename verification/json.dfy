/** Decoded JSON values, and the few Python operations the engines apply to
    them, with Python's exceptions made explicit. */
module Json {
  import opened Wrappers
  import Strings

  /** A value as `response.json()` hands it to Python: object keys are always
      strings. Numbers are kept as integers (floating point is not modelled). */
  datatype Json =
    | JNull
    | JBool(b: bool)
    | JNumber(n: int)
    | JString(s: string)
    | JArray(items: seq<Json>)
    | JObject(fields: map<string, Json>)

  /** A Python subscript: `v["name"]` or `v[0]`. */
  datatype Key = KStr(name: string) | KInt(index: int)

  /** Python's `item in container` for a string `item`: key membership for a
      dict, element equality for a list, substring for a str, and a
      `TypeError` for None, numbers and booleans. */
  function PyIn(item: string, container: Json): (r: Py<bool>)
    ensures r.Raise? <==> container.JNull? || container.JBool? || container.JNumber?
    ensures container.JObject? ==> r == Val(item in container.fields)
    ensures container.JArray? ==> r == Val(JString(item) in container.items)
  {
    match container
    case JObject(f) => Val(item in f)
    case JArray(xs) => Val(JString(item) in xs)
    case JString(s) => Val(Strings.Contains(s, item))
    case _ => Raise(TypeError)
  }

  /** Python's index normalisation: `-n <= i < n` selects `i mod n`. */
  predicate InRange(i: int, n: nat) {
    -(n as int) <= i < n
  }

  function Normalise(i: int, n: nat): (j: nat)
    requires InRange(i, n)
    ensures j < n
    ensures j == i || j == i + n
  {
    if i < 0 then i + n else i
  }

  /** Python's `v[k]` on a decoded JSON value. A dict looks up a string key
      (an integer key is never present, since JSON keys are strings); a list
      or str takes an integer index; everything else is not subscriptable. */
  function Subscript(v: Json, k: Key): (r: Py<Json>)
    ensures r.Val? ==> v.JObject? || v.JArray? || v.JString?
    ensures v.JObject? && k.KStr? ==> (r.Val? <==> k.name in v.fields)
    ensures v.JArray? && k.KInt? ==> (r.Val? <==> InRange(k.index, |v.items|))
    ensures r.Raise? && v.JObject? ==> r.exc == KeyError
    ensures r.Raise? && (v.JArray? || v.JString?) && k.KInt? ==> r.exc == IndexError
  {
    match v
    case JObject(f) =>
      (match k
       case KStr(name) => if name in f then Val(f[name]) else Raise(KeyError)
       case KInt(_) => Raise(KeyError))
    case JArray(xs) =>
      (match k
       case KInt(i) => if InRange(i, |xs|) then Val(xs[Normalise(i, |xs|)]) else Raise(IndexError)
       case KStr(_) => Raise(TypeError))
    case JString(s) =>
      (match k
       case KInt(i) => if InRange(i, |s|) then Val(JString([s[Normalise(i, |s|)]])) else Raise(IndexError)
       case KStr(_) => Raise(TypeError))
    case _ => Raise(TypeError)
  }

  /** Python's `d.get(name, default)` on a dict. Only a dict has `.get`;
      calling it on anything else raises `AttributeError`, which the callers
      spell out where it can happen. */
  function DictGet(d: map<string, Json>, name: string, default: Json): Json {
    if name in d then d[name] else default
  }
}
