/** Failure-compatible result types shared by every module of the model. */
module Wrappers {

  /** A value that may be absent (Python `None`). */
  datatype Option<+T> = None | Some(value: T) {
    function GetOr(default: T): T {
      match this
      case Some(v) => v
      case None => default
    }
  }

  /** Either a returned value or a raised error. */
  datatype Result<+T, +E> = Ok(value: T) | Err(error: E) {
    predicate IsFailure() {
      Err?
    }

    function PropagateFailure<U>(): Result<U, E>
      requires Err?
    {
      Err(error)
    }

    function Extract(): T
      requires Ok?
    {
      value
    }
  }

  /** The values of `rs` in order, or the first error among them. */
  function AllOk<T, E>(rs: seq<Result<T, E>>): (r: Result<seq<T>, E>)
    ensures r.Ok? <==> forall i :: 0 <= i < |rs| ==> rs[i].Ok?
    ensures r.Ok? ==> |r.value| == |rs| && forall i :: 0 <= i < |rs| ==> rs[i] == Ok(r.value[i])
    ensures r.Err? ==> exists i :: 0 <= i < |rs| && rs[i] == Err(r.error) && forall k :: 0 <= k < i ==> rs[k].Ok?
    decreases |rs|
  {
    if rs == [] then Ok([])
    else match rs[0]
      case Err(e) => Err(e)
      case Ok(v) =>
        var rest := AllOk(rs[1..]);
        assert forall i :: 0 <= i < |rs| - 1 ==> rs[1..][i] == rs[i + 1];
        match rest
        case Err(e) =>
          ghost var j :| 0 <= j < |rs| - 1 && rs[1..][j] == Err(e) && forall k :: 0 <= k < j ==> rs[1..][k].Ok?;
          assert rs[j + 1] == Err(e);
          Err(e)
        case Ok(vs) => Ok([v] + vs)
  }
}
