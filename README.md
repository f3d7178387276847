# Restaurant list reducer

A model of the state logic of a small React Native screen that lists
restaurant records from a hosted GraphQL API, creates new ones
optimistically, and merges in records other running instances create, pushed by
the `onCreateRestaurant` subscription. Records are tagged with an
identifier of the running instance (`CLIENTID`, a fresh uuid each time the
module loads), and the subscription handler drops the ones this running
instance created itself. Records created by an earlier launch carry another
identifier and are not dropped.

The screen exists in two files:

- `AppWithHooks.js` is a runnable screen. Its reducer knows `set`, `add`,
  `error` and `updateInput`. An unknown action builds an `Error` object
  without throwing it, so the reducer returns `undefined`. The create button
  dispatches a `set` of the current list plus the new record.
- `hooks.js` is workshop snippet text. A first, query-only reducer knows
  `set` and `error`. A second one adds `add` and `updateInput`. Both throw
  on any other action. The create button dispatches an `add` of the new
  record. When the create mutation fails, the catch dispatches
  `{error: true}`, an action with no `type`. The reducer throws on it, so
  the error flag is never set that way. The model keeps this as written.

Modules:

- `Restaurants` (`restaurants.dfy`) holds what both screens share: the
  record, the actions and the outside events. It also holds the
  subscription's echo filter `OnCreateRestaurant`.
- `AppWithHooks` (`app_with_hooks.dfy`) and `Hooks` (`hooks.dfy`) each hold
  one file's states and reducers. `Dispatch` folds the reducer over a
  sequence of actions. `Handle` gives the actions the screen dispatches for
  one outside event. `Session` folds `Handle` and `Dispatch` over a
  sequence of events.
- `Agreement` (`agreement.dfy`) relates the three reducers and the two
  screens.

The reducer's default case is modelled as `None` (`undefined`) in
`AppWithHooks` and as `Throws` in `Hooks`. A run of actions or events stops
at the first such result.

`CLIENTID` is the parameter `clientId`. A record's `clientId` is an
`Option`, because a pushed record may carry none. Such a record is never
equal to `CLIENTID`, so the handler dispatches it.

In `AppWithHooks.js` an unknown action is not rejected: the reducer yields
`undefined`. The error flag starts at `null` there and at `false` in
`hooks.js`.

## Model

| member | source | states |
|---|---|---|
| Restaurants.OnCreateRestaurant | AppWithHooks.js:90-93 | nothing is dispatched exactly when the pushed record's `clientId` is this instance's; any other record is dispatched as one `add` |
| AppWithHooks.InitialState | AppWithHooks.js:14-18 | empty list, `error` is `null`, all three draft fields empty |
| AppWithHooks.Reduce | AppWithHooks.js:20-45 | yields no state exactly for an unrecognised action; `set` replaces the list; `add` appends one record at the end, keeping the old list as a prefix; `error` sets the flag to true; `updateInput` changes exactly the named draft field; every other field is carried through unchanged |
| AppWithHooks.DispatchDefined | AppWithHooks.js:42-43 | a run of actions keeps a state exactly when none of them hits the default case |
| AppWithHooks.DispatchError | AppWithHooks.js:33-36 | after a run the error flag is true if an `error` action was dispatched and otherwise unchanged: no action clears it |
| AppWithHooks.DispatchAppends | AppWithHooks.js:26-32 | without a `set`, a run leaves the old list followed by the `add`ed records in dispatch order |
| AppWithHooks.NewRecord | AppWithHooks.js:62-68 | the created record carries the draft name, description and city and this instance's `clientId` |
| AppWithHooks.CreateAction | AppWithHooks.js:70-74 | CreateRestaurant dispatches a `set` of the current list with the new record appended |
| AppWithHooks.CreateIsAdd | AppWithHooks.js:61-74 | that `set` has the same effect as an `add` of the new record, and the draft fields are not cleared |
| AppWithHooks.Handle | AppWithHooks.js:47-133 | at most one action per event and never an unrecognised one: a resolved fetch dispatches `set` of its items, a rejected fetch `error` (and no other event does), a keystroke `updateInput` of its field and text, a create press CreateRestaurant's `set`, a resolved or rejected create nothing; a pushed record dispatches nothing exactly when it is this instance's own, and otherwise `add` of it |
| AppWithHooks.SessionDefined | AppWithHooks.js:42-43 | no sequence of events makes the state `undefined`, since the call sites never hit the default case |
| AppWithHooks.SessionError | AppWithHooks.js:55-57 | after any events the error flag is true if a list fetch failed and otherwise unchanged: a failed create does not set it and nothing clears it |
| AppWithHooks.OwnEchoesIgnored | AppWithHooks.js:90-93 | any number of pushed records created by this instance leave the state unchanged |
| AppWithHooks.ForeignPushAppends | AppWithHooks.js:90-93 | a record pushed by another instance is appended at the end of the list |
| AppWithHooks.EchoOnce | AppWithHooks.js:61-93 | a create followed by the echo of its record leaves exactly one more copy of the record, at the end |
| AppWithHooks.OwnRecordsCounted | AppWithHooks.js:61-93 | between fetches, the number of this instance's records grows by exactly the number of create presses |
| Hooks.InitialQueryState | hooks.js:4-7 | empty list, `error` false |
| Hooks.QueryReduce | hooks.js:9-18 | succeeds exactly on `set` and `error`, and throws on everything else (`add` and `updateInput` included); `set` replaces the list, `error` sets the flag, the other field is kept |
| Hooks.InitialState | hooks.js:46-52 | empty list, `error` false, all three draft fields empty |
| Hooks.Reduce | hooks.js:55-74 | throws exactly on an unrecognised action; `set` replaces the list; `add` appends at the end, keeping the old list as a prefix; `updateInput` sets exactly the field named by `inputType`; `error` sets the flag; everything else is unchanged |
| Hooks.DispatchOk | hooks.js:71-72 | a run of actions throws exactly when one of them hits the default case |
| Hooks.DispatchError | hooks.js:69-70 | after a run the flag is set exactly when it was set before or an `error` action was dispatched; no case resets it |
| Hooks.DispatchAppends | hooks.js:59-63 | without a `set`, a run leaves the old list followed by the `add`ed records in dispatch order |
| Hooks.NewRecord | hooks.js:88-91 | the created record carries the draft fields and this instance's `clientId` |
| Hooks.Handle | hooks.js:20-116 | one action at most per event: a resolved fetch dispatches `set` of its items, a rejected fetch `error`, a keystroke `updateInput` of its field and text, a create press `add` of the new record, a resolved create nothing, a rejected create a typeless action; a pushed record dispatches nothing exactly when it is this instance's own, and otherwise `add` of it |
| Hooks.SessionOk | hooks.js:104-106 | a sequence of events throws exactly when it contains a rejected create mutation |
| Hooks.SessionError | hooks.js:20-30 | after events that did not throw, the flag is set exactly when it was set before or a fetch failed |
| Hooks.OwnEchoesIgnored | hooks.js:113-116 | pushed records created by this instance leave the state unchanged |
| Hooks.EchoOnce | hooks.js:87-116 | a create followed by the echo of its record leaves exactly one more copy of it, at the end |
| Hooks.OwnRecordsCounted | hooks.js:87-116 | between fetches, in a run that did not throw, the number of this instance's records grows by exactly the number of create presses |
| Agreement.InitialStatesAgree | hooks.js:46-52 | the two full initial states agree once `null` is read as `false`; the query-only one is their projection |
| Agreement.ReducersAgree | AppWithHooks.js:20-45 | the AppWithHooks.js reducer and the full hooks.js reducer agree on every recognised action; on the default case one yields `undefined` and the other throws |
| Agreement.QueryReducerAgrees | hooks.js:9-18 | the query-only reducer is the full one restricted to `set`/`error`, and throws where the full one handles `add`/`updateInput` |
| Agreement.StepsAgree | hooks.js:87-96 | each event other than a rejected create moves both screens to matching states; the `set` in one and the `add` in the other give the same list |
| Agreement.SessionsAgree | hooks.js:87-120 | over any events without a rejected create, the two screens pass through matching states |
| Agreement.CreateFailureParts | hooks.js:103-107 | a rejected create is logged only by AppWithHooks.js and makes hooks.js throw |

## Left out

- Rendering: the `TextInput`, `Button`, `View` and `Text` components, the `.map` over the list, and `StyleSheet`. This is UI, not state logic.
- The GraphQL calls (`API.graphql` for the list query, the create mutation and the subscription). They are remote. Their outcomes are the events `Fetched`, `FetchFailed`, `Created`, `CreateFailed` and `Pushed`.
- `uuid()` generating `CLIENTID`. It is a random source, so the identifier is a parameter.
- `console.log` calls. They are output only.
- `async`/`await` ordering. Events are applied one at a time, in the order given. So the race where a push arrives before the initial fetch, and the fetch's `set` then drops it, appears only as a particular event order. No lemma is about it.
- The `useEffect` subscription setup and the `unsubscribe` teardown. This resource lifecycle is owned by React.
- What React does after the reducer yields `undefined` or throws. Rendering `state.name` on `undefined` would itself throw. The folds stop at that point.
- `updateInput` with a key other than `name`, `description` or `city`. JavaScript would write an arbitrary property. No call site does this, so `Field` has only those three keys.
- The create button's closure reads the state of the last render. The model reads the current state, which is the same when events are handled one at a time.
- The hooks.js snippet only shows the `name` input (hooks.js:77-85). The model lets `Typed` name any of the three fields. The snippet's own broken lines are not modelled: `this.state.name` at hooks.js:79, and the second top-level declarations of `initialState` and `reducer`. The two reducers are modelled as separate functions instead.
- The restaurant query in the first hooks.js snippet uses the same fetch events as the later one. It has no separate `Session` of its own.
