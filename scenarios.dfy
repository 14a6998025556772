/** Whole requests driven through the instrumentation's hooks, in the order
    graphql-java calls them, starting from an empty bag and an empty registry. */
module Scenarios {
  import opened Observation
  import opened GraphQL
  import opened InstrumentationSpec
  import opened Instrumentation

  /** One non-trivial field resolved synchronously to `greeting`: the request
      observation has no parent, the field's observation is its child and records the
      value, both are stopped without an error mark, the value comes back unchanged
      and the bag is empty again once the request has completed. */
  method SyncField(greeting: Value, response: Value)
    returns (fetched: FetchResult, bag: map<string, ObsId>, handles: seq<Observation>)
    ensures fetched == Returned(greeting)
    ensures bag == map[]
    ensures handles == [
      Observation(ExecutionRequest(DefaultRequestConvention), None, [Started, Stopped], Some(response)),
      Observation(DataFetch(DefaultDataFetcherConvention), Some(0), [Started, Stopped], Some(greeting))]
  {
    var registry := new ObservationRegistry();
    var instrumentation := new GraphQlObservationInstrumentation(registry);
    var state := instrumentation.CreateState();
    var context := new GraphQLContext(map[]);
    var completion := instrumentation.BeginExecution(context, state);
    var fetcher := instrumentation.InstrumentDataFetcher(Application(0), false, context, state);
    assert registry.observations == [Observation(ExecutionRequest(DefaultRequestConvention), None, [Started], None)];
    fetched := instrumentation.Get(fetcher, Returns(greeting));
    assert [Started] + Closing(None) == [Started, Stopped];
    assert registry.observations[1] == Observation(DataFetch(DefaultDataFetcherConvention), Some(0), [Started, Stopped], Some(greeting));
    instrumentation.OnCompleted(completion, response, None);
    bag, handles := context.entries, registry.observations;
  }

  /** One field whose data fetcher returns a stage that later fails with `boom`: while
      the stage is pending the bag holds the field's observation; on completion that
      observation records null, is marked errored with `boom` and stopped, the failure
      reaches the caller unchanged, and the bag is empty once the request completes
      (graphql-java reports the field's failure in the result, not as a throwable). */
  method DeferredFailure(stage: nat, boom: Throwable, response: Value)
    returns (whilePending: map<string, ObsId>, value: Value, thrown: Option<Throwable>,
             bag: map<string, ObsId>, handles: seq<Observation>)
    ensures whilePending == map[OBSERVATION_KEY := 1]
    ensures value == Null && thrown == Some(boom)
    ensures bag == map[]
    ensures handles == [
      Observation(ExecutionRequest(DefaultRequestConvention), None, [Started, Stopped], Some(response)),
      Observation(DataFetch(DefaultDataFetcherConvention), Some(0), [Started, Errored(boom), Stopped], Some(Null))]
  {
    var registry := new ObservationRegistry();
    var instrumentation := new GraphQlObservationInstrumentation(registry);
    var state := instrumentation.CreateState();
    var context := new GraphQLContext(map[]);
    var completion := instrumentation.BeginExecution(context, state);
    var fetcher := instrumentation.InstrumentDataFetcher(Application(0), false, context, state);
    assert registry.observations == [Observation(ExecutionRequest(DefaultRequestConvention), None, [Started], None)];
    var pending := instrumentation.Get(fetcher, Deferred(stage));
    whilePending := context.entries;
    value, thrown := instrumentation.WhenComplete(fetcher, pending, Null, Some(boom));
    assert [Started] + Closing(Some(boom)) == [Started, Errored(boom), Stopped];
    assert registry.observations[1] == Observation(DataFetch(DefaultDataFetcherConvention), Some(0), [Started, Errored(boom), Stopped], Some(Null));
    instrumentation.OnCompleted(completion, response, None);
    assert registry.observations[0].events == [Started, Stopped];
    bag, handles := context.entries, registry.observations;
  }
}
