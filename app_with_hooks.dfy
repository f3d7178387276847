/**
 The restaurant-list screen of AppWithHooks.js: its state, its reducer, the
 record built by CreateRestaurant, the actions each outside event makes the
 screen dispatch, and the run of a whole sequence of events.
 */
module AppWithHooks {
  import opened Restaurants

  /** The reducer state. `error` starts as `null` (`None`) and is only ever
      set to `true`. */
  datatype State = State(error: Option<bool>, restaurants: seq<Restaurant>, name: string, description: string, city: string)

  /** The draft-form field named by `f`. */
  function Draft(s: State, f: Field): string
  {
    match f
    case Name => s.name
    case Description => s.description
    case City => s.city
  }

  function InitialState(): (s: State)
    ensures s.error == None && s.restaurants == []
    ensures forall f :: Draft(s, f) == ""
  {
    State(None, [], "", "", "")
  }

  /** The reducer. `None` is the `undefined` the default case yields: it
      builds an `Error` object without throwing it and falls off the switch. */
  function Reduce(s: State, a: Action): (r: Option<State>)
    ensures r.None? <==> a.Untyped?
    ensures r.Some? ==> r.value.error == (if a.Error? then Some(true) else s.error)
    ensures r.Some? ==> forall f :: Draft(r.value, f) == (if a.UpdateInput? && a.field == f then a.value else Draft(s, f))
    ensures a.Set? ==> r.value.restaurants == a.restaurants
    ensures a.Add? ==> Appended(s.restaurants, r.value.restaurants, a.restaurant)
    ensures a.Error? || a.UpdateInput? ==> r.value.restaurants == s.restaurants
  {
    match a
    case Set(rs) => Some(s.(restaurants := rs))
    case Add(x) => Some(s.(restaurants := s.restaurants + [x]))
    case Error => Some(s.(error := Some(true)))
    case UpdateInput(f, v) =>
      (match f
       case Name => Some(s.(name := v))
       case Description => Some(s.(description := v))
       case City => Some(s.(city := v)))
    case Untyped => None
  }

  /** The state after dispatching `acts` in order; `None` once one of them
      has left the state `undefined`. */
  function Dispatch(s: State, acts: seq<Action>): Option<State>
    decreases |acts|
  {
    if acts == [] then Some(s)
    else
      match Reduce(s, acts[0])
      case None => None
      case Some(t) => Dispatch(t, acts[1..])
  }

  lemma {:induction false} DispatchDefined(s: State, acts: seq<Action>)
    ensures Dispatch(s, acts).Some? <==> AllTyped(acts)
    decreases |acts|
  {
    if acts != [] {
      assert AllTyped(acts) <==> !acts[0].Untyped? && AllTyped(acts[1..]) by {
        forall i | 0 < i < |acts| ensures acts[i] == acts[1..][i - 1] {}
      }
      if !acts[0].Untyped? {
        DispatchDefined(Reduce(s, acts[0]).value, acts[1..]);
      }
    }
  }

  /** The error flag after a run is `true` if an `error` action was
      dispatched and otherwise what it was before: no action clears it. */
  lemma {:induction false} DispatchError(s: State, acts: seq<Action>)
    requires Dispatch(s, acts).Some?
    ensures Dispatch(s, acts).value.error == (if HasError(acts) then Some(true) else s.error)
    decreases |acts|
  {
    if acts != [] {
      var t := Reduce(s, acts[0]).value;
      DispatchError(t, acts[1..]);
      assert HasError(acts) <==> acts[0].Error? || HasError(acts[1..]) by {
        forall i | 0 < i < |acts| ensures acts[i] == acts[1..][i - 1] {}
        if HasError(acts[1..]) {
          var j :| 0 <= j < |acts[1..]| && acts[1..][j].Error?;
          assert acts[j + 1].Error?;
        }
      }
    }
  }

  /** Without a `set`, a run only appends: the new list is the old one
      followed by the records of the `add` actions, in order. */
  lemma {:induction false} DispatchAppends(s: State, acts: seq<Action>)
    requires NoSet(acts) && Dispatch(s, acts).Some?
    ensures Dispatch(s, acts).value.restaurants == s.restaurants + Added(acts)
    decreases |acts|
  {
    if acts != [] {
      var t := Reduce(s, acts[0]).value;
      assert NoSet(acts[1..]) by {
        forall i | 0 <= i < |acts[1..]| ensures !acts[1..][i].Set? { assert acts[1..][i] == acts[i + 1]; }
      }
      DispatchAppends(t, acts[1..]);
      var head := if acts[0].Add? then [acts[0].restaurant] else [];
      assert !acts[0].Set? && t.restaurants == s.restaurants + head;
      assert Added(acts) == head + Added(acts[1..]);
      assert s.restaurants + head + Added(acts[1..]) == s.restaurants + Added(acts);
    }
  }

  /** The record CreateRestaurant builds: the draft fields, tagged with this
      instance's identifier. */
  function NewRecord(clientId: string, s: State): (r: Restaurant)
    ensures IsOwn(clientId, r)
    ensures r.name == s.name && r.description == s.description && r.city == s.city
  {
    Restaurant(s.name, s.description, s.city, Some(clientId))
  }

  /** The action CreateRestaurant dispatches before calling the API: a `set`
      of the current list with the new record at its end. */
  function CreateAction(clientId: string, s: State): (a: Action)
    ensures a.Set? && Appended(s.restaurants, a.restaurants, NewRecord(clientId, s))
  {
    Set(s.restaurants + [NewRecord(clientId, s)])
  }

  /** Dispatching CreateRestaurant's `set` is the same step as an `add` of
      the new record; it leaves the draft fields as they were. */
  lemma CreateIsAdd(clientId: string, s: State)
    ensures Reduce(s, CreateAction(clientId, s)) == Reduce(s, Add(NewRecord(clientId, s)))
    ensures Reduce(s, CreateAction(clientId, s)).value.(restaurants := s.restaurants) == s
  {
  }

  /** The actions the screen dispatches for one outside event. A rejected
      create mutation is only logged. */
  function Handle(clientId: string, s: State, e: Event): (acts: seq<Action>)
    ensures AllTyped(acts) && |acts| <= 1
    ensures !e.FetchFailed? ==> !HasError(acts)
    ensures e.FetchFailed? ==> acts == [Error]
    ensures e.Fetched? ==> acts == [Set(e.items)]
    ensures e.Typed? ==> acts == [UpdateInput(e.field, e.text)]
    ensures e.Submitted? ==> acts == [CreateAction(clientId, s)]
    ensures e.Created? || e.CreateFailed? ==> acts == []
    ensures e.Pushed? ==> (acts == [] <==> IsOwn(clientId, e.record))
    ensures e.Pushed? && !IsOwn(clientId, e.record) ==> acts == [Add(e.record)]
  {
    match e
    case Fetched(items) => [Set(items)]
    case FetchFailed => [Error]
    case Typed(f, v) => [UpdateInput(f, v)]
    case Submitted => [CreateAction(clientId, s)]
    case Created => []
    case CreateFailed => []
    case Pushed(r) => OnCreateRestaurant(clientId, r)
  }

  /** The state after a sequence of outside events, each handled against the
      state the previous ones left. */
  function Session(clientId: string, s: State, evs: seq<Event>): Option<State>
    decreases |evs|
  {
    if evs == [] then Some(s)
    else
      match Dispatch(s, Handle(clientId, s, evs[0]))
      case None => None
      case Some(t) => Session(clientId, t, evs[1..])
  }

  /** The screen's own call sites never reach the reducer's default case, so
      the state never becomes `undefined`. */
  lemma {:induction false} SessionDefined(clientId: string, s: State, evs: seq<Event>)
    ensures Session(clientId, s, evs).Some?
    decreases |evs|
  {
    if evs != [] {
      var acts := Handle(clientId, s, evs[0]);
      DispatchDefined(s, acts);
      SessionDefined(clientId, Dispatch(s, acts).value, evs[1..]);
    }
  }

  /** After a run of events the error flag is `true` if a list query was
      rejected and otherwise what it was before: a rejected create mutation
      does not set it, and once set nothing clears it. */
  lemma {:induction false} SessionError(clientId: string, s: State, evs: seq<Event>)
    ensures Session(clientId, s, evs).Some?
    ensures Session(clientId, s, evs).value.error == (if HasFetchFailure(evs) then Some(true) else s.error)
    decreases |evs|
  {
    SessionDefined(clientId, s, evs);
    if evs != [] {
      var acts := Handle(clientId, s, evs[0]);
      DispatchDefined(s, acts);
      DispatchError(s, acts);
      var t := Dispatch(s, acts).value;
      assert HasError(acts) == evs[0].FetchFailed?;
      SessionError(clientId, t, evs[1..]);
      assert HasFetchFailure(evs) <==> evs[0].FetchFailed? || HasFetchFailure(evs[1..]) by {
        forall i | 0 < i < |evs| ensures evs[i] == evs[1..][i - 1] {}
        if HasFetchFailure(evs[1..]) {
          var j :| 0 <= j < |evs[1..]| && evs[1..][j].FetchFailed?;
          assert evs[j + 1].FetchFailed?;
        }
      }
    }
  }

  /** Pushed records that this instance created leave the state unchanged. */
  lemma {:induction false} OwnEchoesIgnored(clientId: string, s: State, evs: seq<Event>)
    requires OwnEchoes(clientId, evs)
    ensures Session(clientId, s, evs) == Some(s)
    decreases |evs|
  {
    if evs != [] {
      assert evs[0].Pushed? && IsOwn(clientId, evs[0].record);
      assert OwnEchoes(clientId, evs[1..]) by {
        forall i | 0 <= i < |evs[1..]| ensures evs[1..][i] == evs[i + 1] {}
      }
      OwnEchoesIgnored(clientId, s, evs[1..]);
    }
  }

  /** A record pushed by another instance is appended at the end. */
  lemma ForeignPushAppends(clientId: string, s: State, r: Restaurant)
    requires !IsOwn(clientId, r)
    ensures Session(clientId, s, [Pushed(r)]).Some?
    ensures Appended(s.restaurants, Session(clientId, s, [Pushed(r)]).value.restaurants, r)
  {
    var acts := Handle(clientId, s, Pushed(r));
    assert acts == [Add(r)] && acts[1..] == [];
    var t := Reduce(s, Add(r)).value;
    assert Dispatch(s, acts) == Dispatch(t, []) == Some(t);
    assert [Pushed(r)][1..] == [];
    assert Session(clientId, s, [Pushed(r)]) == Session(clientId, t, []);
  }

  /** A local create followed by the subscription's echo of the same record
      leaves exactly one new copy of it, at the end of the list. */
  lemma EchoOnce(clientId: string, s: State)
    ensures var rec := NewRecord(clientId, s);
            var t := Session(clientId, s, [Submitted, Pushed(rec)]);
            && t.Some?
            && Appended(s.restaurants, t.value.restaurants, rec)
            && multiset(t.value.restaurants)[rec] == multiset(s.restaurants)[rec] + 1
  {
    var rec := NewRecord(clientId, s);
    var evs := [Submitted, Pushed(rec)];
    var t := Reduce(s, CreateAction(clientId, s)).value;
    assert [CreateAction(clientId, s)][1..] == [];
    assert Dispatch(s, Handle(clientId, s, evs[0])) == Dispatch(t, []) == Some(t);
    assert evs[1..] == [Pushed(rec)] && [Pushed(rec)][1..] == [];
    assert Handle(clientId, t, Pushed(rec)) == [];
    assert Session(clientId, t, [Pushed(rec)]) == Session(clientId, t, []) == Some(t);
    assert Session(clientId, s, evs) == Some(t);
    assert t.restaurants == s.restaurants + [rec];
  }

  /** Between list fetches, the number of records this instance created
      grows by exactly the number of create-button presses: its own records
      are added once, by the optimistic create, and never by their echo. */
  lemma {:induction false} OwnRecordsCounted(clientId: string, s: State, evs: seq<Event>)
    requires NoFetch(evs)
    ensures Session(clientId, s, evs).Some?
    ensures OwnCount(clientId, Session(clientId, s, evs).value.restaurants)
         == OwnCount(clientId, s.restaurants) + Submissions(evs)
    decreases |evs|
  {
    SessionDefined(clientId, s, evs);
    if evs != [] {
      var e := evs[0];
      var acts := Handle(clientId, s, e);
      DispatchDefined(s, acts);
      var t := Dispatch(s, acts).value;
      assert !e.Fetched?;
      var delta := if e.Submitted? then [NewRecord(clientId, s)] else Added(acts);
      assert t.restaurants == s.restaurants + delta by {
        if e.Submitted? {
          assert acts[1..] == [];
        } else {
          assert NoSet(acts);
          DispatchAppends(s, acts);
        }
      }
      assert OwnCount(clientId, delta) == (if e.Submitted? then 1 else 0) by {
        if e.Submitted? {
          assert delta[1..] == [];
        } else if acts != [] {
          assert acts[1..] == [];
          assert delta == (if acts[0].Add? then [acts[0].restaurant] else []);
          if delta != [] { assert delta[1..] == []; }
        }
      }
      OwnCountAppend(clientId, s.restaurants, delta);
      assert NoFetch(evs[1..]) by {
        forall i | 0 <= i < |evs[1..]| ensures evs[1..][i] == evs[i + 1] {}
      }
      OwnRecordsCounted(clientId, t, evs[1..]);
    }
  }
}
