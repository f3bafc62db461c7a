/** Option and Result, and the kinds of Python exception the modelled code raises. */
module Wrappers {

  datatype Option<+T> = None | Some(value: T)

  /** The Python exception a call ends with; the payload is the message or the missing name. */
  datatype Error =
    | TypeError(msg: string)
    | ValueError(msg: string)
    | IOError(msg: string)
    | KeyError(key: string)
    | IndexError(msg: string)
    | NameError(name: string)
    | AttributeError(name: string)
    | AssertionError(msg: string)
    | Exception(msg: string)

  /** A call either returns a value or raises. */
  datatype Result<+T> = Ok(value: T) | Err(error: Error)

  /** What a run of a generator gives: the values it yielded, then the exception it
      ended with, if any. */
  datatype Iteration<T> = Iteration(yielded: seq<T>, stop: Option<Error>)

  /** An iteration after some values already yielded. */
  function Prepend<T>(ds: seq<T>, it: Iteration<T>): Iteration<T>
  {
    Iteration(ds + it.yielded, it.stop)
  }

  /** A generator whose loop pass over element `j` either yields `steps[j]`'s value or
      raises its error, run from element `i`: it yields in order until the first error,
      which ends it. */
  function RunFrom<T>(steps: seq<Result<T>>, i: nat): (it: Iteration<T>)
    requires i <= |steps|
    ensures i + |it.yielded| <= |steps|
    ensures it.stop.None? <==> i + |it.yielded| == |steps|
    ensures forall k :: 0 <= k < |it.yielded| ==> steps[i + k] == Ok(it.yielded[k])
    ensures it.stop.Some? ==> steps[i + |it.yielded|] == Err(it.stop.value)
    decreases |steps| - i
  {
    if i == |steps| then Iteration([], None)
    else
      match steps[i]
      case Err(e) => Iteration([], Some(e))
      case Ok(d) => Prepend([d], RunFrom(steps, i + 1))
  }

  /** One more pass that yields. */
  lemma RunFromYields<T>(steps: seq<Result<T>>, done: seq<T>, i: nat)
    requires i < |steps| && steps[i].Ok?
    ensures Prepend(done, RunFrom(steps, i)) == Prepend(done + [steps[i].value], RunFrom(steps, i + 1))
  {
    var rest := RunFrom(steps, i + 1);
    assert done + ([steps[i].value] + rest.yielded) == (done + [steps[i].value]) + rest.yielded;
  }

  /** A pass that raises ends the run. */
  lemma RunFromRaises<T>(steps: seq<Result<T>>, done: seq<T>, i: nat)
    requires i < |steps| && steps[i].Err?
    ensures Prepend(done, RunFrom(steps, i)) == Iteration(done, Some(steps[i].error))
  {
    assert done + [] == done;
  }

  /** A pass that raises at `j` ends any run started at or before `j`, by `j` at the
      latest. */
  lemma {:induction false} RunFromStops<T>(steps: seq<Result<T>>, i: nat, j: nat)
    requires i <= j < |steps| && steps[j].Err?
    ensures RunFrom(steps, i).stop.Some? && i + |RunFrom(steps, i).yielded| <= j
    decreases j - i
  {
    if steps[i].Ok? {
      RunFromStops(steps, i + 1, j);
    }
  }
}
