/** Error values of the generator and the two combinators it builds on:
    `collect::<Result<Vec<_>>>()` over a mapped iterator, and `flatten()`
    over a list of options. */
module Results {

  /** The message carried by an `anyhow::Error`; its text is not interpreted. */
  type Error = string

  datatype Option<+T> = None | Some(value: T)

  /** `anyhow::Result<T>`, usable with `:-` like the `?` operator. */
  datatype Result<+T> = Ok(value: T) | Err(error: Error) {

    predicate IsFailure() {
      Err?
    }

    function PropagateFailure<U>(): Result<U>
      requires Err?
    {
      Err(error)
    }

    function Extract(): T
      requires Ok?
    {
      value
    }
  }

  /** `xs.iter().map(f).collect::<Result<Vec<_>>>()`: every value in order when
      each element succeeds; otherwise the error of the first element that fails,
      and nothing else. */
  function Collect<T, U>(f: T -> Result<U>, xs: seq<T>): (r: Result<seq<U>>)
    ensures r.Ok? <==> forall i :: 0 <= i < |xs| ==> f(xs[i]).Ok?
    ensures r.Ok? ==> |r.value| == |xs| && forall i :: 0 <= i < |xs| ==> f(xs[i]) == Ok(r.value[i])
    ensures r.Err? ==> exists i :: 0 <= i < |xs| && f(xs[i]) == Err(r.error)
                                   && forall j :: 0 <= j < i ==> f(xs[j]).Ok?
    decreases |xs|
  {
    if |xs| == 0 then Ok([])
    else
      var head :- f(xs[0]);
      var tail := Collect(f, xs[1..]);
      if tail.Err? then
        assert forall i :: 0 <= i < |xs[1..]| ==> f(xs[1..][i]) == f(xs[i + 1]);
        Err(tail.error)
      else
        Ok([head] + tail.value)
  }

  /** `vec![..].into_iter().flatten()`: the present values, in order. */
  function Somes<T>(xs: seq<Option<T>>): (r: seq<T>)
    ensures |r| <= |xs|
    ensures forall v :: v in r ==> Some(v) in xs
    ensures forall i :: 0 <= i < |xs| && xs[i].Some? ==> xs[i].value in r
    decreases |xs|
  {
    if |xs| == 0 then []
    else match xs[0]
      case None => Somes(xs[1..])
      case Some(v) => [v] + Somes(xs[1..])
  }

  /** Flattening keeps order: it distributes over concatenation. */
  lemma {:induction false} SomesAppend<T>(xs: seq<Option<T>>, ys: seq<Option<T>>)
    ensures Somes(xs + ys) == Somes(xs) + Somes(ys)
    decreases |xs|
  {
    if |xs| > 0 {
      assert (xs + ys)[0] == xs[0];
      assert (xs + ys)[1..] == xs[1..] + ys;
      SomesAppend(xs[1..], ys);
    } else {
      assert xs + ys == ys;
    }
  }
}
