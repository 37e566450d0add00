/** Option and Result types, and the element-by-element parse of a list that
    stops at the first element that raises (a Python list comprehension whose
    element constructor can raise). */
module Wrappers {

  datatype Option<+T> = None | Some(value: T) {
    /** `dict.get(key)` reading: the value when present, otherwise `default`. */
    function GetOr(default: T): T {
      match this
      case Some(v) => v
      case None => default
    }
  }

  datatype Result<+T, +E> = Success(value: T) | Failure(error: E) {
    predicate IsFailure() {
      Failure?
    }

    function PropagateFailure<U>(): Result<U, E>
      requires Failure?
    {
      Failure(error)
    }

    function Extract(): T
      requires Success?
    {
      value
    }
  }

  /** `[f(x) for x in xs]` where `f` may raise: either every element parses,
      and the results keep the input's length and order, or the error is the
      one raised by the first element that fails. */
  function ParseEach<A, B, E>(xs: seq<A>, f: A -> Result<B, E>): (r: Result<seq<B>, E>)
    ensures r.Success? <==> forall i :: 0 <= i < |xs| ==> f(xs[i]).Success?
    ensures r.Success? ==> |r.value| == |xs|
    ensures r.Success? ==> forall i :: 0 <= i < |xs| ==> f(xs[i]) == Success(r.value[i])
    ensures r.Failure? ==>
              exists i :: 0 <= i < |xs| && f(xs[i]) == Failure(r.error) &&
                          forall j :: 0 <= j < i ==> f(xs[j]).Success?
  {
    if |xs| == 0 then Success([])
    else
      var head :- f(xs[0]);
      var tail :- ParseEach(xs[1..], f);
      Success([head] + tail)
  }

  /** Parsing the images of a list under `g` gives the list back when `f`
      inverts `g` on each of its elements. */
  lemma ParseEachOfImages<A, B, E>(ys: seq<B>, g: B -> A, f: A -> Result<B, E>)
    requires forall i :: 0 <= i < |ys| ==> f(g(ys[i])) == Success(ys[i])
    ensures ParseEach(seq(|ys|, i requires 0 <= i < |ys| => g(ys[i])), f) == Success(ys)
  {
    var xs := seq(|ys|, i requires 0 <= i < |ys| => g(ys[i]));
    var r := ParseEach(xs, f);
    assert forall i :: 0 <= i < |xs| ==> f(xs[i]) == Success(ys[i]);
    assert r.Success?;
    assert r.value == ys;
  }
}
