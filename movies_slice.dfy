/** The show gallery: a loading slice of shows, filled by a fetch whose
    payload is cut down to the first twelve shows of the response. */
module MoviesSlice {
  import opened Outcomes
  import opened LoadingSlice

  /** One show as the gallery reads it. */
  datatype Show = Show(id: int, name: string, genres: seq<string>, summary: string)

  /** How many shows the fetch keeps. */
  const ShowLimit: nat := 12

  /** The payload of a fulfilled fetch: the response's leading shows, at most
      `ShowLimit` of them. */
  function FirstShows(data: seq<Show>): (r: seq<Show>)
    ensures |r| == if |data| < ShowLimit then |data| else ShowLimit
    ensures r == data[..|r|]
    ensures |data| <= ShowLimit ==> r == data
  {
    if |data| <= ShowLimit then data else data[..ShowLimit]
  }

  /** Cutting an already cut list changes nothing more. */
  lemma FirstShowsIdempotent(data: seq<Show>)
    ensures FirstShows(FirstShows(data)) == FirstShows(data)
  {
  }

  /** The store holding the shows slice, in its initial state. */
  method NewShowsStore() returns (slice: Slice<Show>)
    ensures fresh(slice)
    ensures slice.items == [] && !slice.loading
  {
    slice := new Slice<Show>();
  }

  /** One run of the fetch thunk: pending is dispatched first, then
      fulfilled with the cut payload or rejected. */
  method FetchShows(slice: Slice<Show>, response: Outcome<seq<Show>>)
    modifies slice
    ensures response.Resolved? ==>
      slice.State() == ReduceAll(old(slice.State()), [Pending, Fulfilled(FirstShows(response.data))])
    ensures response.Rejected? ==>
      slice.State() == ReduceAll(old(slice.State()), [Pending, Action.Rejected])
    ensures response.Resolved? ==> slice.items == FirstShows(response.data)
    ensures response.Rejected? ==> slice.items == old(slice.items)
    ensures !slice.loading
  {
    ghost var before := slice.State();
    slice.Dispatch(Pending);
    match response
    case Resolved(data) =>
      slice.Dispatch(Fulfilled(FirstShows(data)));
      ReduceAllPair(before, Pending, Fulfilled(FirstShows(data)));
    case Rejected =>
      slice.Dispatch(Action.Rejected);
      ReduceAllPair(before, Pending, Action.Rejected);
  }
}
