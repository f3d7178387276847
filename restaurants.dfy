/**
 The values shared by both versions of the restaurant-list screen: the
 restaurant record, the actions a reducer receives, the outside events that
 make the screen dispatch actions, and the subscription handler that drops
 the echo of this instance's own writes.
 */
module Restaurants {

  datatype Option<+T> = None | Some(value: T)

  /** Outcome of a reducer that throws on some actions. */
  datatype Result<+T> = Ok(value: T) | Throws

  /** A restaurant record as listed, created and pushed by the GraphQL API.
      A pushed record need not carry a `clientId`; `None` stands for that. */
  datatype Restaurant = Restaurant(name: string, description: string, city: string, clientId: Option<string>)

  /** The draft-form keys the `updateInput` call sites use. */
  datatype Field = Name | Description | City

  /** A dispatched action. `Untyped` stands for every action whose `type`
      matches no case of the reducer (including an action with no `type`). */
  datatype Action =
    | Set(restaurants: seq<Restaurant>)
    | Add(restaurant: Restaurant)
    | Error
    | UpdateInput(field: Field, value: string)
    | Untyped

  /** What happens to the screen from outside: a resolved or rejected list
      query, a keystroke in one of the form inputs, a press of the create
      button, a resolved or rejected create mutation, and a record pushed by
      the `onCreateRestaurant` subscription. */
  datatype Event =
    | Fetched(items: seq<Restaurant>)
    | FetchFailed
    | Typed(field: Field, text: string)
    | Submitted
    | Created
    | CreateFailed
    | Pushed(record: Restaurant)

  /** The record was created by the instance whose identifier is `clientId`. */
  predicate IsOwn(clientId: string, r: Restaurant)
  {
    r.clientId == Some(clientId)
  }

  /** `after` is `before` with `x` appended: one longer, `before` as a prefix
      in the same order, and `x` last. */
  predicate Appended(before: seq<Restaurant>, after: seq<Restaurant>, x: Restaurant)
  {
    |after| == |before| + 1 && after[..|before|] == before && after[|before|] == x
  }

  /** The subscription's `next` handler: the actions it dispatches for a
      pushed record, given this instance's identifier. */
  function OnCreateRestaurant(clientId: string, r: Restaurant): (acts: seq<Action>)
    ensures acts == [] <==> IsOwn(clientId, r)
    ensures !IsOwn(clientId, r) ==> acts == [Add(r)]
  {
    if Some(clientId) == r.clientId then [] else [Add(r)]
  }

  /** The number of records in `rs` created by instance `clientId`. */
  function OwnCount(clientId: string, rs: seq<Restaurant>): (n: nat)
    ensures n <= |rs|
  {
    if rs == [] then 0
    else (if IsOwn(clientId, rs[0]) then 1 else 0) + OwnCount(clientId, rs[1..])
  }

  lemma {:induction false} OwnCountAppend(clientId: string, a: seq<Restaurant>, b: seq<Restaurant>)
    ensures OwnCount(clientId, a + b) == OwnCount(clientId, a) + OwnCount(clientId, b)
  {
    if a == [] {
      assert a + b == b;
    } else {
      assert (a + b)[1..] == a[1..] + b;
      OwnCountAppend(clientId, a[1..], b);
    }
  }

  /** No action of `acts` falls through to the reducer's default case. */
  predicate AllTyped(acts: seq<Action>)
  {
    forall i :: 0 <= i < |acts| ==> !acts[i].Untyped?
  }

  /** Some action of `acts` is an `error` action. */
  predicate HasError(acts: seq<Action>)
  {
    exists i :: 0 <= i < |acts| && acts[i].Error?
  }

  /** No action of `acts` replaces the list. */
  predicate NoSet(acts: seq<Action>)
  {
    forall i :: 0 <= i < |acts| ==> !acts[i].Set?
  }

  /** The records of the `add` actions of `acts`, in dispatch order. */
  function Added(acts: seq<Action>): (rs: seq<Restaurant>)
    ensures |rs| <= |acts|
  {
    if acts == [] then []
    else (if acts[0].Add? then [acts[0].restaurant] else []) + Added(acts[1..])
  }

  /** No event of `evs` is a resolved list query. */
  predicate NoFetch(evs: seq<Event>)
  {
    forall i :: 0 <= i < |evs| ==> !evs[i].Fetched?
  }

  /** No event of `evs` is a rejected create mutation. */
  predicate NoCreateFailure(evs: seq<Event>)
  {
    forall i :: 0 <= i < |evs| ==> !evs[i].CreateFailed?
  }

  /** Some event of `evs` is a rejected list query. */
  predicate HasFetchFailure(evs: seq<Event>)
  {
    exists i :: 0 <= i < |evs| && evs[i].FetchFailed?
  }

  /** Every event of `evs` is the push of a record created by `clientId`. */
  predicate OwnEchoes(clientId: string, evs: seq<Event>)
  {
    forall i :: 0 <= i < |evs| ==> evs[i].Pushed? && IsOwn(clientId, evs[i].record)
  }

  /** The number of presses of the create button in `evs`. */
  function Submissions(evs: seq<Event>): (n: nat)
    ensures n <= |evs|
  {
    if evs == [] then 0
    else (if evs[0].Submitted? then 1 else 0) + Submissions(evs[1..])
  }
}
