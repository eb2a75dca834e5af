/** Shared wrappers: optional values, and results that carry the Python exception a
    step would raise. Only the exception's kind is kept; its message text is opaque. */
module Common {

  datatype Option<+T> = None | Some(value: T)

  /** The kinds of exception the modelled Python code can raise on malformed data. */
  datatype PyError =
    | TypeError          // `in` on a non-container, `[]` on a non-dict, iterating a scalar
    | KeyError           // `d[k]` with k missing
    | AttributeError     // `.get` / `.items()` / `.strip()` on a value that has no such method
    | UnboundLocalError  // reading a local variable no branch assigned
    | IndexError         // `xs[0]` on an empty list or string
    | ValueError         // `response.json()` on a body that is not JSON

  datatype Result<+T> = Ok(value: T) | Err(error: PyError) {
    predicate IsFailure() { Err? }

    function PropagateFailure<U>(): Result<U>
      requires Err?
    {
      Err(error)
    }

    function Extract(): T
      requires Ok?
    {
      value
    }
  }

  /** `[f(x) for x in xs]` where each call may raise: the calls run in order and the
      first exception ends the loop. */
  function MapAll<A, B>(xs: seq<A>, f: A -> Result<B>): Result<seq<B>> {
    if xs == [] then Ok([])
    else
      var n := |xs| - 1;
      var ys :- MapAll(xs[..n], f);
      var y :- f(xs[n]);
      Ok(ys + [y])
  }

  /** The map succeeds exactly when every call does, and then lists the results in
      order. */
  lemma {:induction false} MapAllSpec<A, B>(xs: seq<A>, f: A -> Result<B>)
    ensures MapAll(xs, f).Ok? <==> forall i :: 0 <= i < |xs| ==> f(xs[i]).Ok?
    ensures MapAll(xs, f).Ok? ==>
              |MapAll(xs, f).value| == |xs| &&
              forall i :: 0 <= i < |xs| ==> f(xs[i]) == Ok(MapAll(xs, f).value[i])
  {
    if xs != [] {
      var n := |xs| - 1;
      var pre := xs[..n];
      MapAllSpec(pre, f);
      assert forall i :: 0 <= i < n ==> pre[i] == xs[i];
      if MapAll(xs, f).Ok? {
        var ys := MapAll(xs, f).value;
        assert ys == MapAll(pre, f).value + [f(xs[n]).value];
      }
    }
  }

  /** Once a prefix raises, the whole map raises the same exception. */
  lemma {:induction false} MapAllStopsAtError<A, B>(xs: seq<A>, f: A -> Result<B>, i: nat)
    requires i <= |xs| && MapAll(xs[..i], f).Err?
    ensures MapAll(xs, f) == MapAll(xs[..i], f)
    decreases |xs| - i
  {
    if i < |xs| {
      assert xs[..i + 1][..i] == xs[..i];
      MapAllStopsAtError(xs, f, i + 1);
    } else {
      assert xs[..i] == xs;
    }
  }

  /** The step of a loop that maps `xs` one element at a time. */
  lemma MapAllStep<A, B>(xs: seq<A>, f: A -> Result<B>, i: nat, ys: seq<B>)
    requires i < |xs| && MapAll(xs[..i], f) == Ok(ys)
    ensures f(xs[i]).Err? ==> MapAll(xs, f) == Err(f(xs[i]).error)
    ensures f(xs[i]).Ok? ==> MapAll(xs[..i + 1], f) == Ok(ys + [f(xs[i]).value])
  {
    assert xs[..i + 1][..i] == xs[..i];
    if f(xs[i]).Err? {
      MapAllStopsAtError(xs, f, i + 1);
    }
  }
}
