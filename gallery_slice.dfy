/** The user gallery: a loading slice of generated people, filled by a
    fetch whose payload is the `results` list of the response. */
module GallerySlice {
  import opened Outcomes
  import opened LoadingSlice

  /** One generated person as the gallery reads it. */
  datatype Person = Person(first: string, last: string, email: string, country: string, picture: string)

  /** The response body: the people are under `results`. */
  datatype Response = Response(results: seq<Person>)

  /** The store holding the users slice, in its initial state. */
  method NewUsersStore() returns (slice: Slice<Person>)
    ensures fresh(slice)
    ensures slice.items == [] && !slice.loading
  {
    slice := new Slice<Person>();
  }

  /** One run of the fetch thunk: pending is dispatched first, then
      fulfilled with the response's `results` or rejected. */
  method FetchUsers(slice: Slice<Person>, response: Outcome<Response>)
    modifies slice
    ensures response.Resolved? ==>
      slice.State() == ReduceAll(old(slice.State()), [Pending, Fulfilled(response.data.results)])
    ensures response.Rejected? ==>
      slice.State() == ReduceAll(old(slice.State()), [Pending, Action.Rejected])
    ensures response.Resolved? ==> slice.items == response.data.results
    ensures response.Rejected? ==> slice.items == old(slice.items)
    ensures !slice.loading
  {
    ghost var before := slice.State();
    slice.Dispatch(Pending);
    match response
    case Resolved(data) =>
      slice.Dispatch(Fulfilled(data.results));
      ReduceAllPair(before, Pending, Fulfilled(data.results));
    case Rejected =>
      slice.Dispatch(Action.Rejected);
      ReduceAllPair(before, Pending, Action.Rejected);
  }
}
