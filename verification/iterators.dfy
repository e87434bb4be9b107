/** Draining a one-shot result iterator, as both the query and the history
    loops do: every item is converted in order and the first failure, of the
    iterator's `Next` or of the conversion, abandons the whole batch. */
module Iterators {
  import opened Outcomes
  import opened Errors

  /** One call of `Next`: an item, or the error `Next` returned. */
  datatype Fetch<T> = Fetched(item: T) | FetchFailed

  /** Whether an item was fetched and converts successfully. */
  predicate Succeeds<A, B>(x: Fetch<A>, f: A -> Result<B, Error>) {
    x.Fetched? && f(x.item).Ok?
  }

  /** The error a failing fetch or conversion reports. */
  function FailureOf<A, B>(x: Fetch<A>, f: A -> Result<B, Error>): Error
    requires !Succeeds(x, f)
  {
    if x.FetchFailed? then NextFailed else f(x.item).error
  }

  function Drain<A, B>(xs: seq<Fetch<A>>, f: A -> Result<B, Error>): (r: Result<seq<B>, Error>)
    ensures r.Ok? <==> forall j :: 0 <= j < |xs| ==> Succeeds(xs[j], f)
    ensures r.Ok? ==> |r.value| == |xs| && forall j :: 0 <= j < |xs| ==> Ok(r.value[j]) == f(xs[j].item)
    ensures r.Err? ==> exists i ::
      && 0 <= i < |xs|
      && !Succeeds(xs[i], f)
      && (forall j :: 0 <= j < i ==> Succeeds(xs[j], f))
      && r.error == FailureOf(xs[i], f)
  {
    if xs == [] then Ok([])
    else if !Succeeds(xs[0], f) then Err(FailureOf(xs[0], f))
    else
      match Drain(xs[1..], f)
      case Err(e) => Err(e)
      case Ok(rest) => Ok([f(xs[0].item).value] + rest)
  }
}
