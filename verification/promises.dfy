/** Joining settled per-item outcomes the way `Promise.all` does. */
module Promises {
  import opened Wrappers

  /** Every value in order when all outcomes succeeded; otherwise the first failure in order
      (`Promise.all` rejects with the first rejection in time, which the model takes to be the
      first in order). */
  function AllOf<T, E>(rs: seq<Result<T, E>>): (r: Result<seq<T>, E>)
    ensures r.Success? <==> forall i :: 0 <= i < |rs| ==> rs[i].Success?
    ensures r.Success? ==> |r.value| == |rs| && forall i :: 0 <= i < |rs| ==> rs[i] == Success(r.value[i])
    ensures r.Failure? ==> exists i :: 0 <= i < |rs| && rs[i] == Failure(r.error) && forall k :: 0 <= k < i ==> rs[k].Success?
  {
    if |rs| == 0 then Success([])
    else
      match rs[0]
      case Failure(e) => Failure(e)
      case Success(v) =>
        match AllOf(rs[1..])
        case Success(vs) => Success([v] + vs)
        case Failure(e) => Failure(e)
  }
}
