# Redux / Effect adapters: a Dafny model

This project models the runtime logic of a front-end template that connects a
Redux store, RTK Query (the cache layer) and Effect services (the effect
runtime), and proves properties of that model. It has four parts.

- **Nested-client flattener** (`flatten_client.dfy`, `flatten_client_twin.dfy`).
  This is `flattenHttpApiClient` from `services/flattenHttpApiClient.ts` and
  its runtime copy `services/FlattenHttpApiClient.ts`. It takes an `Effect`
  that yields a grouped HTTP API client (group, then endpoint, then
  callable); the model starts from the yielded client. It fills one flat
  dictionary with two entries per endpoint:
  - `group ++ Capitalize(endpoint)` forwards the request unchanged.
  - `group ++ Capitalize(endpoint) ++ "WithResponse"` forwards it with
    `withResponse: true`.

  The client is a sequence of `(group, endpoints)` entries in `Object.entries`
  order. A leaf callable is an endpoint id. A flattened callable is
  `ValueOnly(id)` or `WithResponse(id)`, and `Forward` gives the call it makes.
  `Flatten` is the nested loop. It is proved equal to the specification
  function `Flattened`, a fold of the per-endpoint writes. The lemmas say:
  - which keys appear, and that no other key does;
  - how many keys there are when no two writes collide;
  - which entry a key holds;
  - that the later write wins when keys collide.

  The PascalCase copy has its own `Capitalize` and its own loop. Both are
  proved to give the same results as the lower-case file's.
- **Endpoint builder** (`effect_api.dfy`). This is the `methodKeys.forEach`
  loop of `createApiFromEffectTagFactory` in `app/effect.ts`. Each
  configuration entry becomes a query or mutation descriptor, or the loop
  throws `Invalid method type: <type>`. A descriptor is a map built by the
  ordered conditional spreads of the source, written out as the tables
  `QuerySpreads` and `MutationSpreads`, followed by `queryFn`. The `Either` of
  an effect run becomes `{data}` or `{error}` in `QueryFnResult`.
- **Counter slice** (`counter_slice.dfy`). This is the reducer of
  `features/counter/counterSlice.ts`, modelled as a function from state and
  action to the next state. The module also has the `incrementIfOdd` thunk,
  with JavaScript's sign-of-dividend `%`, and the `Either` branch of
  `createEffectThunk`.
- `base.dfy` holds `Option`, `Result`, `Either` and a small model of
  JavaScript values: `undefined`, `null`, booleans, and opaque handles for
  everything the adapters only pass along.

Some behaviour of the code is easy to misread from its comments and its
types. The model follows what the code does:

- The builder looks up a configured method key on the service only for
  typing (the comment at `app/effect.ts:168` says so), so a key the service
  does not have is not an error while the endpoints are built. At call time
  the same key makes `service[methodKey](args)` throw inside `Effect.gen`.
  That is a defect, which `Effect.either` does not catch, so the `queryFn`
  promise rejects with neither `{data}` nor `{error}`. The typing of the
  endpoint configuration, keyed by `MethodKeys<SI>`, rules such a key out
  for typed callers. This model does not cover that path (see "## Left
  out").
- The value-only variant passes a shallow copy of the caller's request. It
  does not force `withResponse` off.
- In both descriptors every forwarded field except `merge` is written under
  the key `extraOptions`, though the commented-out `...config` and the field
  names suggest each field keeps its own name. Several defined fields
  therefore overwrite one another, and the last one in spread order wins.

## Model

| member | source | states |
|---|---|---|
| `FlattenClient.UpperAscii` | vite-template-redux/src/services/flattenHttpApiClient.ts:6 | lower-case ASCII letters become the matching upper-case letter (code point minus 32); every other character is kept |
| `FlattenClient.Capitalize` | vite-template-redux/src/services/flattenHttpApiClient.ts:5-7 | the length is kept, the first character is upper-cased, every later character is unchanged, and the empty string maps to itself |
| `FlattenClient.CapitalizeIdempotent` | vite-template-redux/src/services/flattenHttpApiClient.ts:5-7 | capitalizing twice gives the same string as capitalizing once |
| `FlattenClient.Flatten` | vite-template-redux/src/services/flattenHttpApiClient.ts:62-92 | starting from an empty dictionary, the nested loops over groups and endpoints return exactly `Flattened(client)`, the writes of all (group, endpoint) pairs in iteration order |
| `FlattenClient.BothKeysPresent` | vite-template-redux/src/services/flattenHttpApiClient.ts:64-88 | for every group `g` and endpoint `e` of the client, the result has the key `g ++ Capitalize(e)` and the key `g ++ Capitalize(e) ++ "WithResponse"` |
| `FlattenClient.OnlyGeneratedKeys` | vite-template-redux/src/services/flattenHttpApiClient.ts:62-92 | every key of the result is one of those two keys for some pair of the client |
| `FlattenClient.FlattenedSize` | vite-template-redux/src/services/flattenHttpApiClient.ts:62-92 | when no two writes share a key, the result has exactly twice as many keys as the client has endpoints |
| `FlattenClient.FlattenedEntries` | vite-template-redux/src/services/flattenHttpApiClient.ts:71-88 | without collisions, `g ++ Capitalize(e)` holds the value-only variant of that very endpoint and the `WithResponse` key holds its with-response variant |
| `FlattenClient.LastWriteWins` | vite-template-redux/src/services/flattenHttpApiClient.ts:75-88 | the entry under a key is the one written by the last endpoint, in iteration order, whose writes touch that key; an earlier writer is overwritten without a check |
| `FlattenClient.WriteAllKeys` | vite-template-redux/src/services/flattenHttpApiClient.ts:69-89 | the writes add exactly the generated keys to the dictionary and leave every other key's entry as it was |
| `FlattenClient.Forward` | vite-template-redux/src/services/flattenHttpApiClient.ts:72-87 | the value-only variant calls its endpoint with an unchanged copy of the request; the with-response variant calls it with the request plus `withResponse = true`, overriding any `withResponse` the caller passed and keeping every other field |
| `FlattenClient.FlatCallsAgree` | vite-template-redux/src/services/flattenHttpApiClient.test.ts:88-98 | calling `g ++ Capitalize(e)` answers exactly as calling the original endpoint does; calling the `WithResponse` key answers with the pair of the same value and the raw response |
| `FlattenClient.TwoGroupExample` | vite-template-redux/src/services/flattenHttpApiClient.test-d.ts:172-177 | a client with `users.findById` and `other.findAll` flattens to exactly `usersFindById`, `usersFindByIdWithResponse`, `otherFindAll` and `otherFindAllWithResponse` |
| `FlattenClient.CollisionExample` | vite-template-redux/src/services/flattenHttpApiClient.ts:71-88 | endpoints `findById` and `FindById` of one group both write `usersFindById` and `usersFindByIdWithResponse`; the later one holds both keys |
| `FlattenClientTwin.Capitalize` | vite-template-redux/src/services/FlattenHttpApiClient.ts:5-7 | this copy's `Capitalize` returns the same string as the other file's for every input |
| `FlattenClientTwin.Flatten` | vite-template-redux/src/services/FlattenHttpApiClient.ts:50-80 | this copy's loops return exactly the dictionary the other file's loops return, for every client |
| `EffectApi.ApplySpreads` | vite-template-redux/src/app/effect.ts:240-298 | every key the conditional spreads produce holds a forwarded configuration value, and never `undefined`; which keys appear and what they hold is stated by `SpreadTargetPresent`, `SpreadOrigin` and `LastPassingSpreadWins` |
| `EffectApi.Describe` | vite-template-redux/src/app/effect.ts:236-300 | the descriptor always has `queryFn`, holding the method key's own query function whatever the configuration holds; every other key holds a defined forwarded value; the shape is stated by `QueryDescriptorShape` and `MutationDescriptorShape` |
| `EffectApi.EndpointFor` | vite-template-redux/src/app/effect.ts:236-304 | `type == "query"` gives a query endpoint, `type == "mutation"` a mutation endpoint, and every other type fails with `Invalid method type: <type>` |
| `EffectApi.BuildEndpoints` | vite-template-redux/src/app/effect.ts:219-305 | the loop over the configuration keys returns exactly `Endpoints(configs)`: the filled record, or the message thrown by the first entry with an invalid type |
| `EffectApi.EndpointsSucceedIff` | vite-template-redux/src/app/effect.ts:225-305 | building succeeds if and only if every entry's type is `query` or `mutation` |
| `EffectApi.FirstInvalidThrows` | vite-template-redux/src/app/effect.ts:302-304 | the entry that decides the thrown message is the first one with an invalid type, and the failure is final |
| `EffectApi.FailureSticks` | vite-template-redux/src/app/effect.ts:225-305 | once a prefix of the configuration has thrown, later entries do not change the outcome |
| `EffectApi.EndpointsKeys` | vite-template-redux/src/app/effect.ts:219-225 | on success the endpoints record has one key per configuration key and no other, so service methods without a configuration entry get no endpoint |
| `EffectApi.EndpointsEntry` | vite-template-redux/src/app/effect.ts:230-301 | on success each configuration key holds the query or mutation descriptor that its own entry's type and fields produce |
| `EffectApi.SpreadTargetPresent` | vite-template-redux/src/app/effect.ts:240-265 | a spread whose guard passes (`!== undefined`, or `!= null` for `extraOptions`) puts its target key into the descriptor |
| `EffectApi.SpreadOrigin` | vite-template-redux/src/app/effect.ts:240-265 | every key the spreads produce comes from a spread whose guard passed, so a field that is undefined is never forwarded |
| `EffectApi.LastPassingSpreadWins` | vite-template-redux/src/app/effect.ts:240-265 | a key holds the field of the last spread, in source order, that targets it and whose guard passes |
| `EffectApi.SpreadsReadOnlyTheirFields` | vite-template-redux/src/app/effect.ts:240-298 | a descriptor depends only on the configuration fields its spreads name |
| `EffectApi.QueryDescriptorShape` | vite-template-redux/src/app/effect.ts:240-269 | a query descriptor has no keys except `merge`, `extraOptions` and `queryFn`; `merge` is present exactly when the config defines it, and then holds that value; `queryFn` is the method key's own, whatever the config holds |
| `EffectApi.QueryExtraOptionsPresence` | vite-template-redux/src/app/effect.ts:240-265 | a query descriptor has `extraOptions` exactly when one of the eight fields spread into it passes its guard |
| `EffectApi.QueryExtraOptionsLast` | vite-template-redux/src/app/effect.ts:263-265 | a non-nullish `extraOptions` in a query config overwrites every other field spread into `extraOptions` |
| `EffectApi.QueryStructuralSharing` | vite-template-redux/src/app/effect.ts:260-265 | without a usable `extraOptions`, a defined `structuralSharing` is what a query descriptor's `extraOptions` holds |
| `EffectApi.MutationDescriptorShape` | vite-template-redux/src/app/effect.ts:272-300 | a mutation descriptor never has `merge`; it holds at most `extraOptions` and its own `queryFn` |
| `EffectApi.MutationTransformErrorResponseLast` | vite-template-redux/src/app/effect.ts:287-298 | in a mutation, a defined `transformErrorResponse` is spread last and overwrites even `extraOptions` |
| `EffectApi.MutationIgnoresQueryOnlyFields` | vite-template-redux/src/app/effect.ts:273-298 | a mutation descriptor is the same whatever `merge`, `providesTags`, `keepUnusedDataFor`, `forceRefetch` and `serializeQueryArgs` hold |
| `EffectApi.QueryIgnoresMutationOnlyFields` | vite-template-redux/src/app/effect.ts:240-268 | a query descriptor is the same whatever `invalidatesTags`, `transformResponse` and `transformErrorResponse` hold |
| `EffectApi.RunQueryFn` | vite-template-redux/src/app/effect.ts:168-190 | a descriptor with a `queryFn` runs the service method of that function's key, and the settled result gives back exactly that method's `Either`; a descriptor without one gives nothing; `EndpointRunsItsMethod` ties this to the built endpoints |
| `EffectApi.QueryFnResult` | vite-template-redux/src/app/effect.ts:186-189 | `Left e` gives `{error: e}`, `Right v` gives `{data: v}`, and exactly one of `data` and `error` is present |
| `EffectApi.QueryFnRoundTrip` | vite-template-redux/src/app/effect.ts:186-189 | the outcome can be read back unchanged from the settled result, so nothing about the failure or the value is lost |
| `EffectApi.EndpointRunsItsMethod` | vite-template-redux/src/app/effect.ts:168-190 | running the `queryFn` registered under a key runs that key's service method and settles with its data or its typed error |
| `CounterSlice.Reduce` | vite-template-redux/src/features/counter/counterSlice.ts:89-136 | the reducer adds the action's delta from the reference table `Delta` to the value, and sets the status from the table `StatusSet` or keeps it; `ReduceMatchesReference`, `RunValue` and `RunStatus` build on this |
| `CounterSlice.ReduceMatchesReference` | vite-template-redux/src/features/counter/counterSlice.ts:89-136 | every action adds its own delta to the value and sets the status it names (or keeps it); actions the slice does not handle leave the state unchanged |
| `CounterSlice.RunValue` | vite-template-redux/src/features/counter/counterSlice.ts:89-136 | after any sequence of dispatched actions, the value has moved by the sum of their deltas |
| `CounterSlice.RunStatus` | vite-template-redux/src/features/counter/counterSlice.ts:117-136 | after any sequence of dispatched actions, the status is the one set by the last action that sets a status, or the status the sequence started with |
| `CounterSlice.InitialStateUnknownAction` | vite-template-redux/src/features/counter/counterSlice.ts:18-21 | the initial state is `{value: 0, status: idle}`, and an action whose type is none of the seven the slice handles (`HandledTypes`) keeps it |
| `CounterSlice.IncrementDecrementInverse` | vite-template-redux/src/features/counter/counterSlice.ts:89-98 | increment and decrement undo each other, in either order, status included |
| `CounterSlice.IncrementByAmountAdds` | vite-template-redux/src/features/counter/counterSlice.ts:100-104 | `incrementByAmount(n)` then `incrementByAmount(m)` equals `incrementByAmount(n + m)`, and `incrementByAmount(1)` equals `increment` |
| `CounterSlice.IncrementAsyncLifecycle` | vite-template-redux/src/features/counter/counterSlice.ts:117-126 | pending sets `loading`; pending then fulfilled(n) ends `idle` with `n` added; pending then rejected ends `failed` with the value unchanged |
| `CounterSlice.FetchUserByIdExample` | vite-template-redux/src/features/counter/counterSlice.ts:132-136 | a fulfilled `fetchUserById` for user 2 on a counter at 3 leaves the counter at 5, idle |
| `CounterSlice.JsRemainderTwo` | vite-template-redux/src/features/counter/counterSlice.ts:166 | JavaScript's `x % 2` lies in 0..1 for non-negative `x` and in -1..0 for negative `x` |
| `CounterSlice.OddRemainder` | vite-template-redux/src/features/counter/counterSlice.ts:166 | the test `x % 2 === 1` or `x % 2 === -1` holds exactly for odd `x`; for negative odd `x` it is the `-1` test that holds |
| `CounterSlice.IncrementIfOdd` | vite-template-redux/src/features/counter/counterSlice.ts:162-169 | the thunk dispatches `incrementByAmount(amount)` exactly when the current value is odd, and dispatches nothing otherwise |
| `CounterSlice.AfterIncrementIfOdd` | vite-template-redux/src/features/counter/counterSlice.ts:162-169 | the state after the thunk: an odd value (by Euclidean `% 2`) has grown by `amount` with the status kept, and every other state is unchanged; `IncrementIfOddEffect` restates this as a lemma |
| `CounterSlice.IncrementIfOddEffect` | vite-template-redux/src/features/counter/counterSlice.ts:162-169 | after the thunk an odd value has grown by `amount` with the status kept; every other state is unchanged |
| `CounterSlice.SettleEffectThunk` | vite-template-redux/src/features/counter/counterSlice.ts:70-72 | a `Left` outcome rejects with `left`, a `Right` outcome fulfils with `right` |

## Left out

- The Effect runtime is not modelled: `ManagedRuntime.runPromise`, the
  `api.signal` cancellation, providing `ReduxState` and running the service
  method are foreign library calls and concurrency. The outcome of a run is a
  parameter, either an `Either` or a `service` function returning one, and a
  cancelled call is not modelled.
- The type-level machinery is not modelled: `TransformGroup`, `FlattenedApi`,
  `UnionToIntersection`, `ExtractTupleType`, `MethodKeys`,
  `ExtractErrorTypes` and the type tests. It has no runtime content.
- RTK Query's `createApi`, its caching, hooks and middleware, the
  `createApiOptions` spread into it, and the store wiring are external. The
  model stops at the endpoint descriptors the builder hands to
  `builder.query` and `builder.mutation`.
- The HTTP client behind the flattened endpoints is external. `Answer` takes
  its contract as given: the transport is a parameter, it sees the request
  without `withResponse`, and the reply is a pair exactly when `withResponse`
  is truthy.
- `FlattenClient.Capitalize`: `toUpperCase` is modelled on ASCII letters
  only. Full Unicode case mapping can change a string's length and is not
  modelled; other characters are kept as they are.
- `Object.entries` and `Object.keys` list integer-like keys first, in
  numeric order. The client and the configuration are ordered sequences given
  in enumeration order, so that reordering is not modelled.
- `EffectApi.EndpointRunsItsMethod`: `service` is a total function, so a
  configured key the service lacks is not modelled, and neither are Effect
  defects, which make the `queryFn` promise reject. The typing of
  `EndpointDefs`, keyed by `MethodKeys<SI>` (`app/effect.ts:129-130`), rules
  out the first for typed callers.
- `FlattenClient.Flatten` and `FlattenClientTwin.Flatten` model only the
  success path. Both flatteners take an `Effect` that yields the client
  (`services/flattenHttpApiClient.ts:58-61`,
  `services/FlattenHttpApiClient.ts:46-49`). When that effect fails, the
  result fails with the same error `E`, and the model does not cover it.
- `EffectApi.EndpointsEntry` and `EffectApi.EndpointRunsItsMethod` require
  distinct configuration keys, which a JavaScript object always has.
- `EffectApi.EndpointFor`: `config.type` is modelled as a string. The
  message for a non-string type (for example `undefined`) is not modelled.
- `CounterSlice`: the counter is JavaScript's floating-point `number`, and the
  model uses unbounded integers. Rounding beyond 2^53 and fractional amounts
  are not modelled.
- The `Math.random` failure branch of `fetchUserByIdEffect`, the `fetchCount`
  call of `incrementAsync`, the `rejectWithValue` encoding in
  `fetchUserById`, and `console.log` are not modelled. Only the reducer cases
  these thunks dispatch are modelled. Immer's draft mechanics are replaced by
  state-to-state functions.
- The selectors `selectCount` and `selectStatus` are the field reads
  `SelectCount` and `SelectStatus`. They have nothing to prove.
