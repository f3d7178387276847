/**
 How the three reducers relate. The AppWithHooks.js reducer and the full
 hooks.js reducer agree on every action they recognise and differ only on
 the default case (`undefined` against a throw); the query-only hooks.js
 reducer agrees with the full one on `set` and `error` and throws where the
 full one handles `add` and `updateInput`. Over whole runs, the two screens
 agree as long as no create mutation is rejected.
 */
module Agreement {
  import opened Restaurants
  import App = AppWithHooks
  import Hooks

  /** An AppWithHooks.js state read as a hooks.js state: a `null` error
      flag is the `false` of hooks.js. */
  function ToHooks(s: App.State): (h: Hooks.State)
    ensures h.restaurants == s.restaurants
    ensures forall f :: Hooks.Draft(h, f) == App.Draft(s, f)
    ensures h.error <==> s.error == Some(true)
  {
    Hooks.State(s.restaurants, s.error == Some(true), s.name, s.description, s.city)
  }

  /** The part of a full hooks.js state the query-only version has. */
  function ToQuery(s: Hooks.State): (q: Hooks.QueryState)
    ensures q.restaurants == s.restaurants && q.error == s.error
  {
    Hooks.QueryState(s.restaurants, s.error)
  }

  lemma InitialStatesAgree()
    ensures ToHooks(App.InitialState()) == Hooks.InitialState()
    ensures ToQuery(Hooks.InitialState()) == Hooks.InitialQueryState()
  {
  }

  /** The two full reducers agree on every recognised action; on the default
      case one yields `undefined` and the other throws. */
  lemma ReducersAgree(s: App.State, a: Action)
    ensures a.Untyped? ==> App.Reduce(s, a).None? && Hooks.Reduce(ToHooks(s), a).Throws?
    ensures !a.Untyped? ==> Hooks.Reduce(ToHooks(s), a) == Ok(ToHooks(App.Reduce(s, a).value))
  {
  }

  /** The query-only reducer is the full one restricted to `set` and
      `error`. */
  lemma QueryReducerAgrees(s: Hooks.State, a: Action)
    ensures a.Set? || a.Error? ==> Hooks.QueryReduce(ToQuery(s), a) == Ok(ToQuery(Hooks.Reduce(s, a).value))
    ensures a.Add? || a.UpdateInput? ==> Hooks.QueryReduce(ToQuery(s), a).Throws? && Hooks.Reduce(s, a).Ok?
  {
  }

  /** One outside event other than a rejected create mutation moves both
      screens to corresponding states: AppWithHooks.js's `set` of the list
      with the new record and hooks.js's `add` of it give the same list. */
  lemma StepsAgree(clientId: string, s: App.State, e: Event)
    requires !e.CreateFailed?
    ensures App.Dispatch(s, App.Handle(clientId, s, e)).Some?
    ensures Hooks.Dispatch(ToHooks(s), Hooks.Handle(clientId, ToHooks(s), e))
         == Ok(ToHooks(App.Dispatch(s, App.Handle(clientId, s, e)).value))
  {
  }

  /** Over any run without a rejected create mutation, the two screens go
      through corresponding states. */
  lemma {:induction false} SessionsAgree(clientId: string, s: App.State, evs: seq<Event>)
    requires NoCreateFailure(evs)
    ensures App.Session(clientId, s, evs).Some?
    ensures Hooks.Session(clientId, ToHooks(s), evs) == Ok(ToHooks(App.Session(clientId, s, evs).value))
    decreases |evs|
  {
    if evs != [] {
      StepsAgree(clientId, s, evs[0]);
      var t := App.Dispatch(s, App.Handle(clientId, s, evs[0])).value;
      assert NoCreateFailure(evs[1..]) by {
        forall i | 0 <= i < |evs[1..]| ensures evs[1..][i] == evs[i + 1] {}
      }
      SessionsAgree(clientId, t, evs[1..]);
    }
  }

  /** A rejected create mutation is where the screens part: AppWithHooks.js
      only logs it, hooks.js throws. */
  lemma CreateFailureParts(clientId: string, s: App.State)
    ensures App.Session(clientId, s, [CreateFailed]) == Some(s)
    ensures Hooks.Session(clientId, ToHooks(s), [CreateFailed]).Throws?
  {
  }
}
