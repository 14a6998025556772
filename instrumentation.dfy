/** The instrumentation itself: the per-request state with its factories and
    restore step, and the two hooks graphql-java calls, each proved to change the bag
    and the registry exactly as the functions of InstrumentationSpec say. */
module Instrumentation {
  import opened Observation
  import opened GraphQL
  import opened InstrumentationSpec

  /** The bag and the handles as one value. */
  function WorldOf(context: GraphQLContext, registry: ObservationRegistry): World
    reads context, registry
  {
    World(context.entries, registry.observations)
  }

  /** The per-request state; it holds no data, only the factories and the restore step. */
  class RequestObservationInstrumentationState {

    constructor ()
    {
    }

    /** A fresh, unstarted request observation, created with the given convention or,
        when there is none, the default request convention. */
    method CreateRequestObservation(convention: Option<RequestConvention>, registry: ObservationRegistry)
      returns (o: ObsId)
      modifies registry
      ensures o == |old(registry.observations)|
      ensures registry.observations ==
        old(registry.observations) + [Observation(ExecutionRequest(ResolveRequestConvention(convention)), None, [], None)]
    {
      o := registry.Create(ExecutionRequest(ResolveRequestConvention(convention)));
    }

    /** A fresh, unstarted data-fetcher observation, created with the given convention or,
        when there is none, the default data-fetcher convention. */
    method CreateDataFetcherObservation(convention: Option<DataFetcherConvention>, registry: ObservationRegistry)
      returns (o: ObsId)
      modifies registry
      ensures o == |old(registry.observations)|
      ensures registry.observations ==
        old(registry.observations) + [Observation(DataFetch(ResolveDataFetcherConvention(convention)), None, [], None)]
    {
      o := registry.Create(DataFetch(ResolveDataFetcherConvention(convention)));
    }

    /** Put the parent back under the key, or remove the key when the parent is null. */
    method RestoreParentObservation(context: GraphQLContext, parent: Option<ObsId>)
      modifies context
      ensures context.entries == Restored(old(context.entries), parent)
    {
      if parent.Some? {
        context.Put(OBSERVATION_KEY, parent.value);
      } else {
        context.Delete(OBSERVATION_KEY);
      }
    }
  }

  /** The state graphql-java hands to the hooks: ours, or one created by some other
      instrumentation. */
  datatype InstrumentationState =
    | Observing(state: RequestObservationInstrumentationState)
    | Foreign(id: nat)

  /** What `beginExecution` returns: a no-op context, or the completion callback with
      what it captured. */
  datatype InstrumentationContext =
    | NoOp
    | RequestCompletion(state: RequestObservationInstrumentationState, context: GraphQLContext,
                        request: ObsId, parent: Option<ObsId>)
  {
    function Frame(): set<object> {
      if RequestCompletion? then {context} else {}
    }
  }

  /** A data fetcher: one written by the application, or the wrapper around another
      one, with what the wrapper captured. */
  datatype DataFetcher =
    | Application(id: nat)
    | Observed(delegate: DataFetcher, state: RequestObservationInstrumentationState, context: GraphQLContext)

  class GraphQlObservationInstrumentation {
    const observationRegistry: ObservationRegistry
    const requestObservationConvention: Option<RequestConvention>
    const dataFetcherObservationConvention: Option<DataFetcherConvention>

    /** Record against `observationRegistry` with the default conventions. */
    constructor (observationRegistry: ObservationRegistry)
      ensures this.observationRegistry == observationRegistry
      ensures requestObservationConvention == Some(DefaultRequestConvention)
      ensures dataFetcherObservationConvention == Some(DefaultDataFetcherConvention)
    {
      this.observationRegistry := observationRegistry;
      requestObservationConvention := Some(DefaultRequestConvention);
      dataFetcherObservationConvention := Some(DefaultDataFetcherConvention);
    }

    /** Record against `observationRegistry` with the given conventions (None for null). */
    constructor WithConventions(observationRegistry: ObservationRegistry,
                                requestObservationConvention: Option<RequestConvention>,
                                dataFetcherObservationConvention: Option<DataFetcherConvention>)
      ensures this.observationRegistry == observationRegistry
      ensures this.requestObservationConvention == requestObservationConvention
      ensures this.dataFetcherObservationConvention == dataFetcherObservationConvention
    {
      this.observationRegistry := observationRegistry;
      this.requestObservationConvention := requestObservationConvention;
      this.dataFetcherObservationConvention := dataFetcherObservationConvention;
    }

    /** The steps every exit path ends with: record the value when the path has one,
        mark the error when there is a throwable, stop, restore the parent. */
    method Close(state: RequestObservationInstrumentationState, context: GraphQLContext, o: ObsId,
                 parent: Option<ObsId>, recorded: Option<Value>, error: Option<Throwable>)
      requires o < |observationRegistry.observations|
      modifies context, observationRegistry
      ensures WorldOf(context, observationRegistry) ==
        Finish(old(WorldOf(context, observationRegistry)), o, parent, recorded, error)
    {
      ghost var h := observationRegistry.observations[o];
      if recorded.Some? {
        observationRegistry.SetRecorded(o, recorded.value);
      }
      if error.Some? {
        observationRegistry.Error(o, error.value);
      }
      observationRegistry.Stop(o);
      state.RestoreParentObservation(context, parent);
      assert h.events + Closing(error) == if error.Some? then h.events + [Errored(error.value)] + [Stopped] else h.events + [Stopped];
    }

    method CreateState() returns (s: InstrumentationState)
      ensures s.Observing? && fresh(s.state)
    {
      var state := new RequestObservationInstrumentationState();
      s := Observing(state);
    }

    /** The request hook. With our state: the request observation is parented to what
        the bag held, put into the bag and started, and the returned callback captures
        it with that parent. With a foreign state: nothing changes and the callback
        does nothing. */
    method BeginExecution(context: GraphQLContext, state: InstrumentationState)
      returns (ic: InstrumentationContext)
      modifies context, observationRegistry
      ensures state.Foreign? ==>
        ic == NoOp && WorldOf(context, observationRegistry) == old(WorldOf(context, observationRegistry))
      ensures state.Observing? ==>
        var b := InstrumentationSpec.BeginExecution(old(WorldOf(context, observationRegistry)), requestObservationConvention);
        WorldOf(context, observationRegistry) == b.world &&
        ic == RequestCompletion(state.state, context, b.observation, b.parent)
    {
      if state.Observing? {
        var instrumentationState := state.state;
        var parent := context.Get(OBSERVATION_KEY);
        var request := instrumentationState.CreateRequestObservation(requestObservationConvention, observationRegistry);
        observationRegistry.ParentObservation(request, parent);
        context.Put(OBSERVATION_KEY, request);
        observationRegistry.Start(request);
        ghost var d := ExecutionRequest(ResolveRequestConvention(requestObservationConvention));
        assert [] + [Started] == [Started];
        assert observationRegistry.observations == old(observationRegistry.observations) + [Observation(d, parent, [Started], None)];
        ic := RequestCompletion(instrumentationState, context, request, parent);
      } else {
        ic := NoOp;
      }
    }

    /** `onCompleted(result, exc)` of the callback `BeginExecution` returned: record the
        response, mark the error when there is a throwable, stop, restore the bag. */
    method OnCompleted(ic: InstrumentationContext, result: Value, exc: Option<Throwable>)
      requires ic.RequestCompletion? ==> ic.request < |observationRegistry.observations|
      modifies ic.Frame(), observationRegistry
      ensures ic.NoOp? ==> observationRegistry.observations == old(observationRegistry.observations)
      ensures ic.RequestCompletion? ==>
        WorldOf(ic.context, observationRegistry) ==
        CompleteExecution(old(WorldOf(ic.context, observationRegistry)), ic.request, ic.parent, result, exc)
    {
      if ic.RequestCompletion? {
        Close(ic.state, ic.context, ic.request, ic.parent, Some(result), exc);
      }
    }

    /** The data-fetch hook: a trivial field, or a state not of ours, gets back the very
        data fetcher it passed; otherwise it gets the observing wrapper around it. */
    method InstrumentDataFetcher(dataFetcher: DataFetcher, isTrivialDataFetcher: bool,
                                 context: GraphQLContext, state: InstrumentationState)
      returns (r: DataFetcher)
      ensures isTrivialDataFetcher || state.Foreign? ==> r == dataFetcher
      ensures !isTrivialDataFetcher && state.Observing? ==>
        r.Observed? && r.delegate == dataFetcher && r.state == state.state && r.context == context
    {
      if !isTrivialDataFetcher && state.Observing? {
        r := Observed(dataFetcher, state.state, context);
      } else {
        r := dataFetcher;
      }
    }

    /** One call of the observing wrapper, where `outcome` is what the wrapped data
        fetcher does: the data-fetcher observation is parented to what the bag held,
        put into the bag and started; a value or a throwable closes it at once and
        passes through unchanged, a stage leaves it running in the bag. */
    method Get(fetcher: DataFetcher, outcome: Outcome) returns (r: FetchResult)
      requires fetcher.Observed?
      modifies fetcher.context, observationRegistry
      ensures var f := Fetch(old(WorldOf(fetcher.context, observationRegistry)), dataFetcherObservationConvention, outcome);
        WorldOf(fetcher.context, observationRegistry) == f.world && r == f.result
    {
      var context := fetcher.context;
      var instrumentationState := fetcher.state;
      var parent := context.Get(OBSERVATION_KEY);
      var o := instrumentationState.CreateDataFetcherObservation(dataFetcherObservationConvention, observationRegistry);
      observationRegistry.ParentObservation(o, parent);
      context.Put(OBSERVATION_KEY, o);
      observationRegistry.Start(o);
      ghost var d := DataFetch(ResolveDataFetcherConvention(dataFetcherObservationConvention));
      assert [] + [Started] == [Started];
      assert observationRegistry.observations == old(observationRegistry.observations) + [Observation(d, parent, [Started], None)];
      match outcome
      case Deferred(stage) =>
        r := Pending(stage, o, parent);
      case Returns(value) =>
        Close(instrumentationState, context, o, parent, Some(value), None);
        r := Returned(value);
      case Throws(thrown) =>
        Close(instrumentationState, context, o, parent, None, Some(thrown));
        r := Rethrown(thrown);
    }

    /** The continuation `Get` attached to a pending stage, run when the stage completes
        with `result` (null on failure) and `error` (null on success). The stage
        handed back completes with that same outcome. */
    method WhenComplete(fetcher: DataFetcher, pending: FetchResult, result: Value, error: Option<Throwable>)
      returns (value: Value, thrown: Option<Throwable>)
      requires fetcher.Observed? && pending.Pending?
      requires pending.observation < |observationRegistry.observations|
      modifies fetcher.context, observationRegistry
      ensures WorldOf(fetcher.context, observationRegistry) ==
        CompleteDeferred(old(WorldOf(fetcher.context, observationRegistry)), pending, result, error)
      ensures value == result && thrown == error
    {
      Close(fetcher.state, fetcher.context, pending.observation, pending.parent, Some(result), error);
      value, thrown := result, error;
    }
  }
}
