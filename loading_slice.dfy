/** A list slice with a loading flag, driven by the three lifecycle actions
    of an asynchronous fetch. Both fetch-only galleries use this reducer with
    their own item type. */
module LoadingSlice {

  /** The lifecycle actions of one fetch. */
  datatype Action<T> = Pending | Fulfilled(payload: seq<T>) | Rejected

  /** The slice's data: the items shown and whether a fetch is under way. */
  datatype SliceState<T> = SliceState(items: seq<T>, loading: bool)

  /** The state the slice starts in: nothing loaded, not loading. */
  function Initial<T>(): (r: SliceState<T>)
    ensures r.items == [] && !r.loading
  {
    SliceState([], false)
  }

  /** One reducer step. */
  function Reduce<T>(s: SliceState<T>, a: Action<T>): (r: SliceState<T>)
    ensures a.Pending? ==> r.loading && r.items == s.items
    ensures a.Fulfilled? ==> !r.loading && r.items == a.payload
    ensures a.Rejected? ==> !r.loading && r.items == s.items
  {
    match a
    case Pending => s.(loading := true)
    case Fulfilled(payload) => SliceState(payload, false)
    case Rejected => s.(loading := false)
  }

  /** The state after dispatching `actions` in order. */
  function ReduceAll<T>(s: SliceState<T>, actions: seq<Action<T>>): SliceState<T>
    decreases |actions|
  {
    if actions == [] then s
    else ReduceAll(Reduce(s, actions[0]), actions[1..])
  }

  /** The items after `actions`: the payload of the last fulfilled action, or
      the starting items when none was fulfilled. */
  function LastPayload<T>(items: seq<T>, actions: seq<Action<T>>): seq<T>
    decreases |actions|
  {
    if actions == [] then items
    else if actions[|actions| - 1].Fulfilled? then actions[|actions| - 1].payload
    else LastPayload(items, actions[..|actions| - 1])
  }

  /** Dispatching `a + b` is dispatching `a` and then `b`. */
  lemma {:induction false} ReduceAllAppend<T>(s: SliceState<T>, a: seq<Action<T>>, b: seq<Action<T>>)
    ensures ReduceAll(s, a + b) == ReduceAll(ReduceAll(s, a), b)
    decreases |a|
  {
    if a == [] {
      assert a + b == b;
    } else {
      assert (a + b)[0] == a[0];
      assert (a + b)[1..] == a[1..] + b;
      ReduceAllAppend(Reduce(s, a[0]), a[1..], b);
    }
  }

  /** Dispatching two actions is reducing by one and then the other. */
  lemma ReduceAllPair<T>(s: SliceState<T>, a: Action<T>, b: Action<T>)
    ensures ReduceAll(s, [a, b]) == Reduce(Reduce(s, a), b)
  {
    calc {
      ReduceAll(s, [a, b]);
      { assert [a, b][1..] == [b]; }
      ReduceAll(Reduce(s, a), [b]);
      { assert [b][1..] == []; }
      ReduceAll(Reduce(Reduce(s, a), b), []);
    }
  }

  /** The loading flag reflects the last action: once the last action is
      fulfilled or rejected the slice is not loading, and after a pending it
      is. With no action the flag is the starting one. */
  lemma LoadingFollowsLast<T>(s: SliceState<T>, actions: seq<Action<T>>)
    ensures actions == [] ==> ReduceAll(s, actions).loading == s.loading
    ensures actions != [] ==>
      ReduceAll(s, actions).loading == actions[|actions| - 1].Pending?
  {
    if actions != [] {
      var n := |actions| - 1;
      assert actions == actions[..n] + [actions[n]];
      ReduceAllAppend(s, actions[..n], [actions[n]]);
    }
  }

  /** The items shown are always those of the last fulfilled fetch; pending
      and rejected never touch them. */
  lemma {:induction false} ItemsAreLastPayload<T>(s: SliceState<T>, actions: seq<Action<T>>)
    ensures ReduceAll(s, actions).items == LastPayload(s.items, actions)
    decreases |actions|
  {
    if actions != [] {
      var n := |actions| - 1;
      assert actions == actions[..n] + [actions[n]];
      ReduceAllAppend(s, actions[..n], [actions[n]]);
      ItemsAreLastPayload(s, actions[..n]);
    }
  }

  /** The slice as the store holds it; each reducer case assigns its fields
      in place. */
  class Slice<T> {
    var items: seq<T>
    var loading: bool

    /** The slice's fields as one value. */
    function State(): SliceState<T>
      reads this
    {
      SliceState(items, loading)
    }

    /** A slice in the initial state. */
    constructor ()
      ensures State() == Initial()
      ensures items == [] && !loading
    {
      items := [];
      loading := false;
    }

    /** The pending case: mark the fetch as under way. */
    method OnPending()
      modifies this
      ensures loading && items == old(items)
      ensures State() == Reduce(old(State()), Pending)
    {
      loading := true;
    }

    /** The fulfilled case: show the payload, stop loading. */
    method OnFulfilled(payload: seq<T>)
      modifies this
      ensures items == payload && !loading
      ensures State() == Reduce(old(State()), Fulfilled(payload))
    {
      items := payload;
      loading := false;
    }

    /** The rejected case: stop loading, keep what was shown. */
    method OnRejected()
      modifies this
      ensures items == old(items) && !loading
      ensures State() == Reduce(old(State()), Rejected)
    {
      loading := false;
    }

    /** Dispatch one action to the matching case. */
    method Dispatch(a: Action<T>)
      modifies this
      ensures State() == Reduce(old(State()), a)
    {
      match a
      case Pending => OnPending();
      case Fulfilled(payload) => OnFulfilled(payload);
      case Rejected => OnRejected();
    }
  }
}
