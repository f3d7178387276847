/**
 The two reducer versions of the hooks.js workshop snippets: the query-only
 reducer with its state, and the full reducer with the draft form, the
 record built by createRestaurant, the actions each outside event makes the
 screen dispatch, and the run of a whole sequence of events. Both reducers
 throw on an action they do not recognise; `Throws` stands for that.
 */
module Hooks {
  import opened Restaurants

  /** The state of the query-only version: the list and the error flag. */
  datatype QueryState = QueryState(restaurants: seq<Restaurant>, error: bool)

  function InitialQueryState(): (s: QueryState)
    ensures s.restaurants == [] && !s.error
  {
    QueryState([], false)
  }

  /** The query-only reducer: it knows `set` and `error` and throws on every
      other action, `add` and `updateInput` included. */
  function QueryReduce(s: QueryState, a: Action): (r: Result<QueryState>)
    ensures r.Ok? <==> a.Set? || a.Error?
    ensures a.Set? ==> r.value == QueryState(a.restaurants, s.error)
    ensures a.Error? ==> r.value == QueryState(s.restaurants, true)
  {
    match a
    case Set(rs) => Ok(s.(restaurants := rs))
    case Error => Ok(s.(error := true))
    case _ => Throws
  }

  /** The state of the version with the create form. */
  datatype State = State(restaurants: seq<Restaurant>, error: bool, name: string, description: string, city: string)

  /** The draft-form field named by `f`. */
  function Draft(s: State, f: Field): string
  {
    match f
    case Name => s.name
    case Description => s.description
    case City => s.city
  }

  function InitialState(): (s: State)
    ensures s.restaurants == [] && !s.error
    ensures forall f :: Draft(s, f) == ""
  {
    State([], false, "", "", "")
  }

  /** The full reducer; `updateInput` names the field in `inputType` and
      carries the text in `inputValue`. */
  function Reduce(s: State, a: Action): (r: Result<State>)
    ensures r.Throws? <==> a.Untyped?
    ensures r.Ok? ==> r.value.error == (a.Error? || s.error)
    ensures r.Ok? ==> forall f :: Draft(r.value, f) == (if a.UpdateInput? && a.field == f then a.value else Draft(s, f))
    ensures a.Set? ==> r.value.restaurants == a.restaurants
    ensures a.Add? ==> Appended(s.restaurants, r.value.restaurants, a.restaurant)
    ensures a.Error? || a.UpdateInput? ==> r.value.restaurants == s.restaurants
  {
    match a
    case Set(rs) => Ok(s.(restaurants := rs))
    case Add(x) => Ok(s.(restaurants := s.restaurants + [x]))
    case UpdateInput(f, v) =>
      (match f
       case Name => Ok(s.(name := v))
       case Description => Ok(s.(description := v))
       case City => Ok(s.(city := v)))
    case Error => Ok(s.(error := true))
    case Untyped => Throws
  }

  /** The state after dispatching `acts` in order; `Throws` once the reducer
      has thrown on one of them. */
  function Dispatch(s: State, acts: seq<Action>): Result<State>
    decreases |acts|
  {
    if acts == [] then Ok(s)
    else
      match Reduce(s, acts[0])
      case Throws => Throws
      case Ok(t) => Dispatch(t, acts[1..])
  }

  lemma {:induction false} DispatchOk(s: State, acts: seq<Action>)
    ensures Dispatch(s, acts).Ok? <==> AllTyped(acts)
    decreases |acts|
  {
    if acts != [] {
      assert AllTyped(acts) <==> !acts[0].Untyped? && AllTyped(acts[1..]) by {
        forall i | 0 < i < |acts| ensures acts[i] == acts[1..][i - 1] {}
      }
      if !acts[0].Untyped? {
        DispatchOk(Reduce(s, acts[0]).value, acts[1..]);
      }
    }
  }

  /** The error flag after a run is set exactly when it was set before or an
      `error` action was dispatched: no case resets it. */
  lemma {:induction false} DispatchError(s: State, acts: seq<Action>)
    requires Dispatch(s, acts).Ok?
    ensures Dispatch(s, acts).value.error == (s.error || HasError(acts))
    decreases |acts|
  {
    if acts != [] {
      var t := Reduce(s, acts[0]).value;
      DispatchError(t, acts[1..]);
      assert HasError(acts) <==> acts[0].Error? || HasError(acts[1..]) by {
        forall i | 0 < i < |acts| ensures acts[i] == acts[1..][i - 1] {}
        if HasError(acts[1..]) {
          var j :| 0 <= j < |acts[1..]| && acts[1..][j].Error?;
          assert acts[j + 1].Error?;
        }
      }
    }
  }

  /** Without a `set`, a run only appends: the new list is the old one
      followed by the records of the `add` actions, in order. */
  lemma {:induction false} DispatchAppends(s: State, acts: seq<Action>)
    requires NoSet(acts) && Dispatch(s, acts).Ok?
    ensures Dispatch(s, acts).value.restaurants == s.restaurants + Added(acts)
    decreases |acts|
  {
    if acts != [] {
      var t := Reduce(s, acts[0]).value;
      assert NoSet(acts[1..]) by {
        forall i | 0 <= i < |acts[1..]| ensures !acts[1..][i].Set? { assert acts[1..][i] == acts[i + 1]; }
      }
      DispatchAppends(t, acts[1..]);
      var head := if acts[0].Add? then [acts[0].restaurant] else [];
      assert !acts[0].Set? && t.restaurants == s.restaurants + head;
      assert Added(acts) == head + Added(acts[1..]);
      assert s.restaurants + head + Added(acts[1..]) == s.restaurants + Added(acts);
    }
  }

  /** The record createRestaurant builds: the draft fields, tagged with this
      instance's identifier. */
  function NewRecord(clientId: string, s: State): (r: Restaurant)
    ensures IsOwn(clientId, r)
    ensures r.name == s.name && r.description == s.description && r.city == s.city
  {
    Restaurant(s.name, s.description, s.city, Some(clientId))
  }

  /** The actions the screen dispatches for one outside event. The press of
      the create button dispatches an `add` of the new record before the
      mutation is sent; a rejected mutation dispatches `{error: true}`, an
      action without a `type`. */
  function Handle(clientId: string, s: State, e: Event): (acts: seq<Action>)
    ensures |acts| <= 1
    ensures !e.CreateFailed? ==> AllTyped(acts)
    ensures e.CreateFailed? ==> acts == [Untyped]
    ensures !e.FetchFailed? ==> !HasError(acts)
    ensures !e.Fetched? ==> NoSet(acts)
    ensures e.Fetched? ==> acts == [Set(e.items)]
    ensures e.FetchFailed? ==> acts == [Error]
    ensures e.Typed? ==> acts == [UpdateInput(e.field, e.text)]
    ensures e.Submitted? ==> acts == [Add(NewRecord(clientId, s))]
    ensures e.Created? ==> acts == []
    ensures e.Pushed? ==> (acts == [] <==> IsOwn(clientId, e.record))
    ensures e.Pushed? && !IsOwn(clientId, e.record) ==> acts == [Add(e.record)]
  {
    match e
    case Fetched(items) => [Set(items)]
    case FetchFailed => [Error]
    case Typed(f, v) => [UpdateInput(f, v)]
    case Submitted => [Add(NewRecord(clientId, s))]
    case Created => []
    case CreateFailed => [Untyped]
    case Pushed(r) => OnCreateRestaurant(clientId, r)
  }

  /** The state after a sequence of outside events, each handled against the
      state the previous ones left; `Throws` once the reducer has thrown. */
  function Session(clientId: string, s: State, evs: seq<Event>): Result<State>
    decreases |evs|
  {
    if evs == [] then Ok(s)
    else
      match Dispatch(s, Handle(clientId, s, evs[0]))
      case Throws => Throws
      case Ok(t) => Session(clientId, t, evs[1..])
  }

  /** A run of events throws exactly when a create mutation is rejected: the
      catch handler's typeless action reaches the reducer's default case. */
  lemma {:induction false} SessionOk(clientId: string, s: State, evs: seq<Event>)
    ensures Session(clientId, s, evs).Ok? <==> NoCreateFailure(evs)
    decreases |evs|
  {
    if evs != [] {
      assert NoCreateFailure(evs) <==> !evs[0].CreateFailed? && NoCreateFailure(evs[1..]) by {
        forall i | 0 < i < |evs| ensures evs[i] == evs[1..][i - 1] {}
      }
      var acts := Handle(clientId, s, evs[0]);
      DispatchOk(s, acts);
      if !evs[0].CreateFailed? {
        SessionOk(clientId, Dispatch(s, acts).value, evs[1..]);
      }
    }
  }

  /** After a run that did not throw, the error flag is set exactly when it
      was set before or a list query was rejected; so a rejected create
      mutation never sets it, and nothing clears it. */
  lemma {:induction false} SessionError(clientId: string, s: State, evs: seq<Event>)
    requires Session(clientId, s, evs).Ok?
    ensures Session(clientId, s, evs).value.error == (s.error || HasFetchFailure(evs))
    decreases |evs|
  {
    if evs != [] {
      var acts := Handle(clientId, s, evs[0]);
      DispatchOk(s, acts);
      DispatchError(s, acts);
      var t := Dispatch(s, acts).value;
      assert HasError(acts) == evs[0].FetchFailed?;
      SessionError(clientId, t, evs[1..]);
      assert HasFetchFailure(evs) <==> evs[0].FetchFailed? || HasFetchFailure(evs[1..]) by {
        forall i | 0 < i < |evs| ensures evs[i] == evs[1..][i - 1] {}
        if HasFetchFailure(evs[1..]) {
          var j :| 0 <= j < |evs[1..]| && evs[1..][j].FetchFailed?;
          assert evs[j + 1].FetchFailed?;
        }
      }
    }
  }

  /** Pushed records that this instance created leave the state unchanged. */
  lemma {:induction false} OwnEchoesIgnored(clientId: string, s: State, evs: seq<Event>)
    requires OwnEchoes(clientId, evs)
    ensures Session(clientId, s, evs) == Ok(s)
    decreases |evs|
  {
    if evs != [] {
      assert evs[0].Pushed? && IsOwn(clientId, evs[0].record);
      assert OwnEchoes(clientId, evs[1..]) by {
        forall i | 0 <= i < |evs[1..]| ensures evs[1..][i] == evs[i + 1] {}
      }
      OwnEchoesIgnored(clientId, s, evs[1..]);
    }
  }

  /** A local create followed by the subscription's echo of the same record
      leaves exactly one new copy of it, at the end of the list. */
  lemma EchoOnce(clientId: string, s: State)
    ensures var rec := NewRecord(clientId, s);
            var t := Session(clientId, s, [Submitted, Pushed(rec)]);
            && t.Ok?
            && Appended(s.restaurants, t.value.restaurants, rec)
            && multiset(t.value.restaurants)[rec] == multiset(s.restaurants)[rec] + 1
  {
    var rec := NewRecord(clientId, s);
    var evs := [Submitted, Pushed(rec)];
    var t := Reduce(s, Add(rec)).value;
    assert [Add(rec)][1..] == [];
    assert Dispatch(s, Handle(clientId, s, evs[0])) == Dispatch(t, []) == Ok(t);
    assert evs[1..] == [Pushed(rec)] && [Pushed(rec)][1..] == [];
    assert Handle(clientId, t, Pushed(rec)) == [];
    assert Session(clientId, t, [Pushed(rec)]) == Session(clientId, t, []) == Ok(t);
    assert Session(clientId, s, evs) == Ok(t);
    assert t.restaurants == s.restaurants + [rec];
  }

  /** Between list fetches, in a run that did not throw, the number of
      records this instance created grows by exactly the number of
      create-button presses: each is added once, by the optimistic `add`, and
      never again by its echo. */
  lemma {:induction false} OwnRecordsCounted(clientId: string, s: State, evs: seq<Event>)
    requires NoFetch(evs) && NoCreateFailure(evs)
    ensures Session(clientId, s, evs).Ok?
    ensures OwnCount(clientId, Session(clientId, s, evs).value.restaurants)
         == OwnCount(clientId, s.restaurants) + Submissions(evs)
    decreases |evs|
  {
    SessionOk(clientId, s, evs);
    if evs != [] {
      var e := evs[0];
      assert !e.Fetched? && !e.CreateFailed?;
      var acts := Handle(clientId, s, e);
      DispatchOk(s, acts);
      DispatchAppends(s, acts);
      var t := Dispatch(s, acts).value;
      assert OwnCount(clientId, Added(acts)) == (if e.Submitted? then 1 else 0) by {
        if acts != [] {
          assert acts[1..] == [];
          assert Added(acts) == (if acts[0].Add? then [acts[0].restaurant] else []);
          if Added(acts) != [] { assert Added(acts)[1..] == []; }
        }
      }
      OwnCountAppend(clientId, s.restaurants, Added(acts));
      assert NoFetch(evs[1..]) && NoCreateFailure(evs[1..]) by {
        forall i | 0 <= i < |evs[1..]| ensures evs[1..][i] == evs[i + 1] {}
      }
      OwnRecordsCounted(clientId, t, evs[1..]);
    }
  }
}
