/** The values `json.loads` produces and the Python operations the core applies to them:
    truth testing, `==`, `d.get(k, default)` and `d[k]`. */
module JsonValues {
  import opened Wrappers

  /** A decoded JSON value. JNull is Python's None (also what `.get` returns for a missing key). */
  datatype Json =
    | JNull
    | JBool(b: bool)
    | JInt(i: int)
    | JFloat(r: real)
    | JString(s: string)
    | JArray(items: seq<Json>)
    | JObject(fields: map<string, Json>)

  /** A text handed to `json.loads`: either it decodes to a value or it raises JSONDecodeError. */
  datatype JsonText = Parsed(value: Json) | Malformed

  /** Python truth testing (`if x:`, `not x`, `x or y`). */
  predicate Truthy(j: Json) {
    match j
    case JNull => false
    case JBool(b) => b
    case JInt(i) => i != 0
    case JFloat(r) => r != 0.0
    case JString(s) => s != ""
    case JArray(xs) => xs != []
    case JObject(m) => |m| != 0
  }

  /** bool is a subclass of int in Python, so all three compare as numbers. */
  predicate IsNumber(j: Json) {
    j.JBool? || j.JInt? || j.JFloat?
  }

  function NumberValue(j: Json): real
    requires IsNumber(j)
  {
    if j.JBool? then (if j.b then 1.0 else 0.0)
    else if j.JInt? then j.i as real
    else j.r
  }

  /** Python `a == b` on decoded JSON values: numbers by value across bool/int/float,
      lists element-wise, dicts by key set and values. */
  predicate PyEq(a: Json, b: Json)
    decreases a
  {
    match a
    case JNull => b.JNull?
    case JBool(_) => IsNumber(b) && NumberValue(a) == NumberValue(b)
    case JInt(_) => IsNumber(b) && NumberValue(a) == NumberValue(b)
    case JFloat(_) => IsNumber(b) && NumberValue(a) == NumberValue(b)
    case JString(s) => b.JString? && b.s == s
    case JArray(xs) =>
      b.JArray? && |xs| == |b.items| && forall i :: 0 <= i < |xs| ==> PyEq(xs[i], b.items[i])
    case JObject(m) =>
      b.JObject? && m.Keys == b.fields.Keys && forall k :: k in m ==> PyEq(m[k], b.fields[k])
  }

  lemma {:induction false} PyEqReflexive(a: Json)
    ensures PyEq(a, a)
    decreases a
  {
    match a
    case JArray(xs) =>
      forall i | 0 <= i < |xs| ensures PyEq(xs[i], xs[i]) { PyEqReflexive(xs[i]); }
    case JObject(m) =>
      forall k | k in m ensures PyEq(m[k], m[k]) { PyEqReflexive(m[k]); }
    case _ =>
  }

  lemma {:induction false} PyEqSymmetric(a: Json, b: Json)
    requires PyEq(a, b)
    ensures PyEq(b, a)
    decreases a
  {
    match a
    case JArray(xs) =>
      forall i | 0 <= i < |xs| ensures PyEq(b.items[i], xs[i]) { PyEqSymmetric(xs[i], b.items[i]); }
    case JObject(m) =>
      forall k | k in b.fields ensures PyEq(b.fields[k], m[k]) { PyEqSymmetric(m[k], b.fields[k]); }
    case _ =>
  }

  /** Comparing with a str literal is plain equality: no other kind of value equals a str. */
  lemma PyEqString(a: Json, s: string)
    ensures PyEq(a, JString(s)) <==> a == JString(s)
  {
  }

  /** `d.get(key)` on a dict: None for a missing key. */
  function Member(m: map<string, Json>, key: string): Json {
    if key in m then m[key] else JNull
  }

  /** `d.get(key, default)`; any value other than a dict has no `get` method. */
  function Get(j: Json, key: string, default: Json): (r: Result<Json>)
    ensures r.Err? <==> !j.JObject?
    ensures r.Err? ==> r.fault == AttributeError
    ensures j.JObject? && key in j.fields ==> r == Ok(j.fields[key])
    ensures j.JObject? && key !in j.fields ==> r == Ok(default)
  {
    if j.JObject? then Ok(if key in j.fields then j.fields[key] else default)
    else Err(AttributeError)
  }

  /** `d[key]` with a str key: KeyError on a dict without it, TypeError on any other value. */
  function Subscript(j: Json, key: string): (r: Result<Json>)
    ensures r.Ok? <==> j.JObject? && key in j.fields
    ensures r.Ok? ==> r.value == j.fields[key]
    ensures r.Err? ==> r.fault == (if j.JObject? then KeyError else TypeError)
  {
    if !j.JObject? then Err(TypeError)
    else if key in j.fields then Ok(j.fields[key])
    else Err(KeyError)
  }
}
