# GraphQL observation instrumentation, modelled in Dafny

This project models `GraphQlObservationInstrumentation`, the graphql-java
instrumentation in Spring for GraphQL that opens a Micrometer observation for every
GraphQL request and for every non-trivial data fetch.

The current observation lives in the request's `GraphQLContext`, a per-request
key/value bag, under the key `"micrometer.observation"`. Each hook does four things:
- it reads the parent from that key;
- it creates an observation with that explicit parent;
- it puts the new observation under the key, then starts it;
- on every exit path it records the value or response when the path has one (the
  throwing path records nothing), marks the error if there is one, stops the
  observation, and restores the key to the parent (or removes the key when the
  parent was null).

Layout:
- `observation.dfy` (module `Observation`): the abstract registry and its handles. A
  handle is a record with the documented observation and convention it was created
  with, a parent link, a lifecycle (`Started`, optional `Errored(t)`, `Stopped`) and
  the value its context recorded. It also holds the custom-or-default convention
  fallback.
- `graphql_context.dfy` (module `GraphQL`): the bag, a class over a map.
- `instrumentation_spec.dfy` (module `InstrumentationSpec`): what each hook does to
  the bag and the handles, written as functions of the prior state. It also holds the
  lemmas: the bag is restored on every path, each handle is started once, marked
  errored only before it stops, and stopped once, and values and throwables pass
  through unchanged. Runs of well-nested fetches are covered by a mutual induction
  (`RunRestores`, `RunSpanRestores`). Four lemmas cover whole requests:
  `RequestLifecycle`, `RequestRun`, `RequestRestoresWhateverRan` and
  `StartOrderConfinedToRequest`.
- `instrumentation.dfy` (module `Instrumentation`): the classes
  `RequestObservationInstrumentationState` and `GraphQlObservationInstrumentation`.
  Their methods mutate the bag and the registry step by step, in the source's order.
  Each method is proved to produce exactly the state the matching specification
  function gives.
- `scenarios.dfy` (module `Scenarios`): two whole requests driven through the hooks.

A data fetcher's behaviour is a parameter (`Returns(v)`, `Throws(t)` or
`Deferred(stage)`). An asynchronous completion is a later, separate call
(`WhenComplete`) that takes the stage's result and error. The engine calls each
completion callback once. The lifecycle lemmas therefore take as a precondition that
the handle being closed is still running.

Two behaviours of the code are worth stating plainly:
- One might expect the bag never to keep a stopped observation. The code keeps one
  when two deferred fetches complete in the order they started. The second fetch was
  parented to the first, so its restore step puts the first, already stopped,
  observation back into the bag (`StartOrderCompletion`). The stale entry does not
  outlive the request: `onCompleted` restores the key to the request's own parent
  whatever the key held, so the request ends with the bag it began with, in whatever
  order its fetches started and their stages completed (`RequestRestoresWhateverRan`,
  `StartOrderConfinedToRequest`).
- The wrapper returns the stage that `whenComplete` derives from the delegate's stage,
  not that stage itself. The derived stage completes with the same outcome; the model
  returns that outcome (`WhenComplete`).

## Model

| member | source | states |
|---|---|---|
| `Observation.ResolveRequestConvention` | spring-graphql/src/main/java/org/springframework/graphql/observation/GraphQlObservationInstrumentation.java:172-176 | a request observation uses the supplied convention, or `DEFAULT_REQUEST_CONVENTION` when none (null) was supplied |
| `Observation.ResolveDataFetcherConvention` | spring-graphql/src/main/java/org/springframework/graphql/observation/GraphQlObservationInstrumentation.java:178-182 | a data-fetcher observation uses the supplied convention, or `DEFAULT_DATA_FETCHER_CONVENTION` when none was supplied |
| `Observation.LifecycleOrder` | spring-graphql/src/main/java/org/springframework/graphql/observation/GraphQlObservationInstrumentation.java:109-117 | in every allowed lifecycle a handle is started at most once and first, errored at most once and only before stop, stopped at most once, and it is finished exactly when stopped |
| `Observation.ClosingFinishes` | spring-graphql/src/main/java/org/springframework/graphql/observation/GraphQlObservationInstrumentation.java:114-117 | closing a running handle finishes it, with an error mark exactly when a throwable is present |
| `InstrumentationSpec.Restored` | spring-graphql/src/main/java/org/springframework/graphql/observation/GraphQlObservationInstrumentation.java:184-191 | afterwards the key holds the parent, or is absent when the parent is null; every other key keeps its presence and its value |
| `InstrumentationSpec.Publish` | spring-graphql/src/main/java/org/springframework/graphql/observation/GraphQlObservationInstrumentation.java:104-109 | the new handle takes the next fresh id, is parented to what the key held, holds the documented observation, is started and records nothing; the key now names it, every other key and every earlier handle is unchanged |
| `InstrumentationSpec.Finish` | spring-graphql/src/main/java/org/springframework/graphql/observation/GraphQlObservationInstrumentation.java:113-118 | closing a handle appends the error mark (exactly when there is a throwable) and then stop to its events, records the value when the path has one, keeps its parent and documented observation; the key afterwards holds the given parent, every other key and every other handle is unchanged |
| `InstrumentationSpec.RestoreUndoesPublish` | spring-graphql/src/main/java/org/springframework/graphql/observation/GraphQlObservationInstrumentation.java:104-118 | putting a handle under the key and then restoring the value read before gives back exactly the original bag |
| `InstrumentationSpec.FinishKeepsValid` | spring-graphql/src/main/java/org/springframework/graphql/observation/GraphQlObservationInstrumentation.java:141-163 | closing a running handle on any path, after any interleaving, keeps the invariant: the bag names an existing handle, every lifecycle is allowed, parents are earlier handles; the closed handle ends finished, with an error mark exactly when there is a throwable |
| `InstrumentationSpec.BeginExecution` | spring-graphql/src/main/java/org/springframework/graphql/observation/GraphQlObservationInstrumentation.java:103-109 | the request handle is a fresh, started execution-request observation with the custom-or-default request convention, parented to what the key held, and the key now names it |
| `InstrumentationSpec.CompleteExecution` | spring-graphql/src/main/java/org/springframework/graphql/observation/GraphQlObservationInstrumentation.java:112-118 | the request handle records the response and gets the error mark exactly when `exc` is present, then stop; the key holds the captured parent; every other key and handle is unchanged |
| `InstrumentationSpec.RequestLifecycle` | spring-graphql/src/main/java/org/springframework/graphql/observation/GraphQlObservationInstrumentation.java:102-120 | the request observation is parented to the bag's prior value, published and started once; completion records the response, errors exactly when `exc` is present, stops once, and restores the bag to exactly its prior state; earlier handles are untouched |
| `InstrumentationSpec.Fetch` | spring-graphql/src/main/java/org/springframework/graphql/observation/GraphQlObservationInstrumentation.java:130-164 | the wrapper hands back the delegate's value or throwable unchanged; for a stage, it returns the stage with the new handle and the parent read from the bag; exactly one handle is created per call |
| `InstrumentationSpec.CompleteDeferred` | spring-graphql/src/main/java/org/springframework/graphql/observation/GraphQlObservationInstrumentation.java:142-148 | the fetch handle records the stage's result and gets the error mark exactly when the stage failed, then stop; the key holds the parent read when the fetch began; every other key and handle is unchanged |
| `InstrumentationSpec.SyncFetch` | spring-graphql/src/main/java/org/springframework/graphql/observation/GraphQlObservationInstrumentation.java:151-156 | on a synchronous value, the one new handle is parented to the bag's prior value, records the value, is started and stopped with no error mark; the bag is exactly restored; the value is returned unchanged |
| `InstrumentationSpec.ThrowingFetch` | spring-graphql/src/main/java/org/springframework/graphql/observation/GraphQlObservationInstrumentation.java:158-163 | when the delegate throws, the new handle is marked errored with that same throwable, then stopped, and records nothing; the bag is restored; the same throwable is rethrown |
| `InstrumentationSpec.DeferredFetch` | spring-graphql/src/main/java/org/springframework/graphql/observation/GraphQlObservationInstrumentation.java:141-149 | on a stage, the bag keeps the running fetch handle until completion; the continuation records the result (null on failure), errors exactly when `error` is present, stops, and restores the bag exactly |
| `InstrumentationSpec.RunRestores` | spring-graphql/src/main/java/org/springframework/graphql/observation/GraphQlObservationInstrumentation.java:130-164 | after any well-nested sequence of fetches (sync, throwing, deferred with inner fetches), the bag is exactly as before and earlier handles are untouched; every new handle is finished and parented to the prior observation or to a handle of the run |
| `InstrumentationSpec.RunSpanRestores` | spring-graphql/src/main/java/org/springframework/graphql/observation/GraphQlObservationInstrumentation.java:141-149 | the same for one fetch, including a deferred one whose stage completes after fetches started inside it |
| `InstrumentationSpec.RequestRun` | spring-graphql/src/main/java/org/springframework/graphql/observation/GraphQlObservationInstrumentation.java:100-167 | a whole request with well-nested fetches leaves the bag as it began; the request handle is parented to the prior value and closed once (error exactly when `exc`); every fetch handle is finished and parented to the request handle or one of its descendants |
| `InstrumentationSpec.StartOrderCompletion` | spring-graphql/src/main/java/org/springframework/graphql/observation/GraphQlObservationInstrumentation.java:137-148 | with two pending fetches whose stages complete in start order, the second is parented to the first; once both complete, the bag holds the first handle, already stopped |
| `InstrumentationSpec.RequestRestoresWhateverRan` | spring-graphql/src/main/java/org/springframework/graphql/observation/GraphQlObservationInstrumentation.java:113-118 | whatever ran between the request's begin and its completion, as long as only the observation key was written, completing the request gives back exactly the bag the request began with |
| `InstrumentationSpec.StartOrderConfinedToRequest` | spring-graphql/src/main/java/org/springframework/graphql/observation/GraphQlObservationInstrumentation.java:104-148 | two deferred fetches completing in start order leave the stopped first handle in the bag, and completing the request still gives back exactly the bag the request began with |
| `Instrumentation.RequestObservationInstrumentationState.CreateRequestObservation` | spring-graphql/src/main/java/org/springframework/graphql/observation/GraphQlObservationInstrumentation.java:172-176 | returns a fresh, unstarted handle without a parent, using the custom-or-default request convention; the other handles are unchanged |
| `Instrumentation.RequestObservationInstrumentationState.CreateDataFetcherObservation` | spring-graphql/src/main/java/org/springframework/graphql/observation/GraphQlObservationInstrumentation.java:178-182 | returns a fresh, unstarted handle without a parent, using the custom-or-default data-fetcher convention |
| `Instrumentation.RequestObservationInstrumentationState.RestoreParentObservation` | spring-graphql/src/main/java/org/springframework/graphql/observation/GraphQlObservationInstrumentation.java:184-191 | the bag becomes `Restored(old bag, parent)`: the key holds the parent, or is removed for null; nothing else changes |
| `Instrumentation.GraphQlObservationInstrumentation.constructor` | spring-graphql/src/main/java/org/springframework/graphql/observation/GraphQlObservationInstrumentation.java:73-77 | keeps the registry and uses the default request and data-fetcher conventions |
| `Instrumentation.GraphQlObservationInstrumentation.WithConventions` | spring-graphql/src/main/java/org/springframework/graphql/observation/GraphQlObservationInstrumentation.java:86-92 | keeps the registry and the two conventions given, either of which may be null |
| `Instrumentation.GraphQlObservationInstrumentation.Close` | spring-graphql/src/main/java/org/springframework/graphql/observation/GraphQlObservationInstrumentation.java:113-118 | the steps every exit path ends with leave the bag and handles exactly as `Finish` of the prior state says: value recorded when present, error mark when a throwable is present, stop, parent restored under the key |
| `Instrumentation.GraphQlObservationInstrumentation.CreateState` | spring-graphql/src/main/java/org/springframework/graphql/observation/GraphQlObservationInstrumentation.java:94-97 | every request gets a new state of this instrumentation's own kind |
| `Instrumentation.GraphQlObservationInstrumentation.BeginExecution` | spring-graphql/src/main/java/org/springframework/graphql/observation/GraphQlObservationInstrumentation.java:100-123 | with this instrumentation's state, the bag and handles become `BeginExecution` of the prior state, and the callback captures the new handle and the parent read from the bag; with a foreign state, nothing changes and the callback is a no-op |
| `Instrumentation.GraphQlObservationInstrumentation.OnCompleted` | spring-graphql/src/main/java/org/springframework/graphql/observation/GraphQlObservationInstrumentation.java:110-120 | the bag and handles become `CompleteExecution` of the prior state; a no-op callback changes no handle |
| `Instrumentation.GraphQlObservationInstrumentation.InstrumentDataFetcher` | spring-graphql/src/main/java/org/springframework/graphql/observation/GraphQlObservationInstrumentation.java:126-167 | a trivial field, or a state not of this kind, gets back the very data fetcher passed in, with nothing created and the bag untouched; otherwise it gets the observing wrapper around that fetcher |
| `Instrumentation.GraphQlObservationInstrumentation.Get` | spring-graphql/src/main/java/org/springframework/graphql/observation/GraphQlObservationInstrumentation.java:130-164 | one call of the wrapper leaves the bag and handles exactly as `Fetch` of the prior state says, and returns what `Fetch` returns |
| `Instrumentation.GraphQlObservationInstrumentation.WhenComplete` | spring-graphql/src/main/java/org/springframework/graphql/observation/GraphQlObservationInstrumentation.java:141-149 | the continuation leaves the bag and handles as `CompleteDeferred` says; the returned stage completes with the original result and error |
| `Scenarios.SyncField` | spring-graphql/src/main/java/org/springframework/graphql/observation/GraphQlObservationInstrumentation.java:100-167 | one request with one synchronous field: the fetch handle is a child of the request handle and records the value; both end started-then-stopped; the value is returned unchanged; the bag ends empty |
| `Scenarios.DeferredFailure` | spring-graphql/src/main/java/org/springframework/graphql/observation/GraphQlObservationInstrumentation.java:130-164 | a field whose stage fails with `boom`: the bag holds the fetch handle while the stage is pending; the handle records null and is errored with `boom`, then stopped; the failure reaches the caller unchanged; the bag ends empty |

## Left out

- Micrometer's registry and observation internals are foreign code: handlers, the
  no-op registry, the documented key names, and the parent Micrometer infers from the
  current thread. A created handle has no parent, because the hooks overwrite the
  parent at once.
- The tags produced by the default conventions, and the contents of the two context
  classes, are opaque. A convention is a name; a context is the one value or response
  recorded on it.
- Concurrency is not modelled: parallel data fetches, the thread that runs a stage's
  continuation, and thread safety of `GraphQLContext`. An async completion is a
  separate sequential call.
- A stage that never completes is not modelled. Its observation is never stopped, and
  the source does not handle that case.
- The bag holds only observation handles. Entries of other types are never touched by
  the hooks. A non-observation value under the observation key, which would be a
  `ClassCastException`, is not modelled.
- Exceptions raised by Micrometer inside the hooks are not modelled. On the
  synchronous path such an exception would enter the `catch` block. If `setValue`
  threw, the handle would be stopped once, marked errored with that exception (which
  the data fetcher never threw), and that exception would be rethrown in place of the
  value. If `stop` or the restore step threw, the handle would be stopped twice.
- `Instrumentation.GraphQlObservationInstrumentation.WhenComplete`: returns the
  stage's outcome rather than a stage object. It does not model `whenComplete`
  completing the derived stage exceptionally when the continuation itself throws.
- Stage completion and `onCompleted` each run once. This is the engine's guarantee,
  so it is a precondition of the lifecycle lemmas rather than something the methods
  check.
