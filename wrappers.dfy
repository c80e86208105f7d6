/**
  Failure-carrying values shared by the whole model: an optional value, a
  result that is either a value or an error, and the service's error taxonomy
  (each error kind is surfaced as one HTTP status code).
 */
module Wrappers {

  datatype Option<+T> = None | Some(value: T)

  datatype Result<+R, +E> = Success(value: R) | Failure(error: E)

  /** The three ways a request can fail; `detail` is the text of the HTTP error body. */
  datatype Error =
    | UpstreamUnavailable(detail: string)  // network failure, timeout, non-2xx upstream reply
    | DataProcessing(detail: string)       // any exception raised while decoding or transforming
    | NotFound(detail: string)             // no race carries the requested round

  /** The HTTP status code an error is reported with. */
  function StatusCode(e: Error): int
  {
    match e
    case UpstreamUnavailable(_) => 503
    case DataProcessing(_) => 500
    case NotFound(_) => 404
  }

  /**
    Applies `f` to every element in order, as a Python list comprehension
    does; the first element whose transformation fails makes the whole
    result fail with that element's error.
   */
  function TransformEach<A, B>(xs: seq<A>, f: A -> Result<B, Error>): (r: Result<seq<B>, Error>)
    ensures r.Success? <==> forall k :: 0 <= k < |xs| ==> f(xs[k]).Success?
    ensures r.Success? ==> |r.value| == |xs|
    ensures r.Success? ==> forall k :: 0 <= k < |xs| ==> r.value[k] == f(xs[k]).value
    ensures r.Failure? ==>
      exists k :: 0 <= k < |xs| && f(xs[k]).Failure? && r.error == f(xs[k]).error
        && forall j :: 0 <= j < k ==> f(xs[j]).Success?
  {
    if xs == [] then Success([])
    else
      match f(xs[0])
      case Failure(e) => Failure(e)
      case Success(y) =>
        match TransformEach(xs[1..], f)
        case Failure(e) =>
          assert forall k :: 1 <= k < |xs| ==> xs[k] == xs[1..][k - 1];
          Failure(e)
        case Success(ys) =>
          assert forall k :: 1 <= k < |xs| ==> xs[k] == xs[1..][k - 1];
          Success([y] + ys)
  }
}
