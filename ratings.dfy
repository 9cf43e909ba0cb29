/** The client-side rating store: a Redux slice whose state is the list of
    the shopper's ratings. `addRating` pushes one rating; the fulfilled
    fetch of the shopper's ratings replaces the list. The rating records
    are passed through untouched, so their type is a parameter. */
module RatingSlice {
  import opened Js

  /** The actions the slice's reducers handle. */
  datatype Action<Rating> = AddRating(rating: Rating) | FetchFulfilled(ratings: seq<Rating>)

  /** The fetch's result: the response's `ratings` when the response data
      is present, and the empty list otherwise. */
  function FetchPayload<Rating>(data: Option<seq<Rating>>): (r: seq<Rating>)
    ensures data.None? ==> r == []
    ensures data.Some? ==> r == data.value
  {
    if data.Some? then data.value else []
  }

  /** The ratings list after one action. */
  function Reduce<Rating>(ratings: seq<Rating>, action: Action<Rating>): seq<Rating> {
    match action
    case AddRating(r) => ratings + [r]
    case FetchFulfilled(rs) => rs
  }

  /** The ratings list after the actions, in dispatch order. */
  function Replay<Rating>(ratings: seq<Rating>, actions: seq<Action<Rating>>): seq<Rating> {
    if actions == [] then ratings
    else Reduce(Replay(ratings, actions[..|actions| - 1]), actions[|actions| - 1])
  }

  /** The ratings carried by a run of `addRating` actions. */
  function Added<Rating>(actions: seq<Action<Rating>>): seq<Rating>
    requires forall i :: 0 <= i < |actions| ==> actions[i].AddRating?
  {
    if actions == [] then []
    else Added(actions[..|actions| - 1]) + [actions[|actions| - 1].rating]
  }

  class Slice<Rating> {
    var ratings: seq<Rating>

    /** The initial state: no ratings. */
    constructor ()
      ensures ratings == []
    {
      ratings := [];
    }

    /** `addRating`: the payload is pushed onto the list. */
    method AddRating(rating: Rating)
      modifies this
      ensures ratings == old(ratings) + [rating]
      ensures |ratings| == |old(ratings)| + 1 && ratings[..|old(ratings)|] == old(ratings)
    {
      ratings := ratings + [rating];
    }

    /** `fetchUserRatings.fulfilled`: the list becomes the payload. */
    method FetchFulfilled(payload: seq<Rating>)
      modifies this
      ensures ratings == payload
    {
      ratings := payload;
    }

    /** The slice's reducer applied to one dispatched action. */
    method Dispatch(action: Action<Rating>)
      modifies this
      ensures ratings == Reduce(old(ratings), action)
    {
      match action
      case AddRating(r) => AddRating(r);
      case FetchFulfilled(rs) => FetchFulfilled(rs);
    }
  }

  // ---------------------------------------------------------------------
  // Replaying actions
  // ---------------------------------------------------------------------

  /** A run of `addRating` keeps the earlier list as a prefix and appends the
      ratings in dispatch order. */
  lemma {:induction false} AddsAppend<Rating>(ratings: seq<Rating>, adds: seq<Action<Rating>>)
    requires forall i :: 0 <= i < |adds| ==> adds[i].AddRating?
    ensures Replay(ratings, adds) == ratings + Added(adds)
  {
    if adds != [] {
      var init := adds[..|adds| - 1];
      AddsAppend(ratings, init);
      assert ratings + Added(init) + [adds[|adds| - 1].rating] == ratings + (Added(init) + [adds[|adds| - 1].rating]);
    }
  }

  /** Replaying a concatenation is replaying one part after the other. */
  lemma {:induction false} ReplayConcat<Rating>(ratings: seq<Rating>, first: seq<Action<Rating>>, second: seq<Action<Rating>>)
    ensures Replay(ratings, first + second) == Replay(Replay(ratings, first), second)
  {
    if second == [] {
      assert first + second == first;
    } else {
      var init := second[..|second| - 1];
      ReplayConcat(ratings, first, init);
      assert (first + second)[..|first + second| - 1] == first + init;
    }
  }

  /** The last fulfilled fetch wins: whatever came before it, the list is
      its payload followed by the ratings added since. */
  lemma LastFetchWins<Rating>(ratings: seq<Rating>, before: seq<Action<Rating>>, payload: seq<Rating>,
                              adds: seq<Action<Rating>>)
    requires forall i :: 0 <= i < |adds| ==> adds[i].AddRating?
    ensures Replay(ratings, before + [FetchFulfilled(payload)] + adds) == payload + Added(adds)
  {
    ReplayConcat(ratings, before + [FetchFulfilled(payload)], adds);
    ReplayConcat(ratings, before, [FetchFulfilled(payload)]);
    AddsAppend(payload, adds);
  }

  /** A fetch whose response had no data empties the list. */
  lemma EmptyFetchClears<Rating>(ratings: seq<Rating>)
    ensures Reduce(ratings, FetchFulfilled(FetchPayload<Rating>(None))) == []
  {
  }
}
