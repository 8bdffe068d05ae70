/** Option and Result values, the Python exceptions the modelled code lets escape,
    and Python's `next(... for d in xs if p(d)), None)` idiom as a function. */
module Wrappers {

  datatype Option<+T> = None | Some(value: T)

  /** The Python exceptions that the modelled code can raise past its own boundary. */
  datatype Fault =
    | KeyError          // `d[k]` where the dict d has no key k
    | TypeError         // subscripting, iterating or converting a value of the wrong type
    | ValueError        // `int(s)` of a string that is not an integer literal
    | AttributeError    // `.get(...)` or `.split(...)` on a value that has no such method
    | JsonDecodeError   // `response.json()` on a body that is not JSON
    | TransportError    // the HTTP client raised before any response arrived

  /** What a Python call produces: a value, or an exception that propagates to the caller. */
  datatype Result<+T> = Ok(value: T) | Err(fault: Fault) {
    predicate IsFailure() { Err? }

    function PropagateFailure<U>(): Result<U>
      requires Err?
    {
      Err(fault)
    }

    function Extract(): T
      requires Ok?
    {
      value
    }
  }

  /** The first element of `xs` that satisfies `p`, or None when there is none. */
  function Next<T>(xs: seq<T>, p: T -> bool): (r: Option<T>)
    ensures r.None? <==> forall i :: 0 <= i < |xs| ==> !p(xs[i])
    ensures r.Some? ==> exists i :: 0 <= i < |xs| && xs[i] == r.value && p(xs[i]) &&
                                    forall j :: 0 <= j < i ==> !p(xs[j])
    decreases |xs|
  {
    if xs == [] then None
    else if p(xs[0]) then Some(xs[0])
    else
      var r := Next(xs[1..], p);
      assert r.Some? ==> exists i :: 1 <= i < |xs| && xs[i] == r.value && p(xs[i]) &&
                                     forall j :: 0 <= j < i ==> !p(xs[j]) by {
        if r.Some? {
          var i :| 0 <= i < |xs[1..]| && xs[1..][i] == r.value && p(xs[1..][i]) &&
                   forall j :: 0 <= j < i ==> !p(xs[1..][j]);
          assert forall j :: 1 <= j < i + 1 ==> !p(xs[j]) by {
            forall j | 1 <= j < i + 1 ensures !p(xs[j]) { assert xs[j] == xs[1..][j - 1]; }
          }
        }
      }
      r
  }

  /** `[f(x) for x in xs]` where `f` may raise: the first exception propagates. */
  function MapResult<A, B>(xs: seq<A>, f: A -> Result<B>): (r: Result<seq<B>>)
    ensures r.Ok? <==> forall i :: 0 <= i < |xs| ==> f(xs[i]).Ok?
    ensures r.Ok? ==> |r.value| == |xs| && forall i :: 0 <= i < |xs| ==> r.value[i] == f(xs[i]).value
    ensures r.Err? ==> exists i :: 0 <= i < |xs| && f(xs[i]) == Err(r.fault) &&
                                  forall j :: 0 <= j < i ==> f(xs[j]).Ok?
    decreases |xs|
  {
    if xs == [] then Ok([])
    else
      var first :- f(xs[0]);
      var rest := MapResult(xs[1..], f);
      assert forall i :: 1 <= i < |xs| ==> xs[i] == xs[1..][i - 1];
      if rest.Err? then
        assert exists i :: 1 <= i < |xs| && f(xs[i]) == Err(rest.fault) &&
                           forall j :: 0 <= j < i ==> f(xs[j]).Ok? by {
          var k :| 0 <= k < |xs[1..]| && f(xs[1..][k]) == Err(rest.fault) &&
                   forall j :: 0 <= j < k ==> f(xs[1..][j]).Ok?;
          assert forall j :: 1 <= j < k + 1 ==> f(xs[j]).Ok? by {
            forall j | 1 <= j < k + 1 ensures f(xs[j]).Ok? { assert xs[j] == xs[1..][j - 1]; }
          }
        }
        Err(rest.fault)
      else
        Ok([first] + rest.value)
  }
}
