/** Abstract view of the Micrometer observation API that the instrumentation uses:
    opaque handles kept by a registry, each with a lifecycle, an explicit parent
    link, the convention it was created with and the one value its context records. */
module Observation {

  datatype Option<+T> = None | Some(value: T)

  /** A handle, identified by its position in the registry's store. */
  type ObsId = nat

  /** A Java Throwable, compared by identity. */
  datatype Throwable = Throwable(id: nat)

  /** A Java object reference or null: a fetched value or an ExecutionResult. */
  datatype Value = Null | Ref(id: nat)

  /** What happens to a handle after it is created. */
  datatype Event = Started | Errored(thrown: Throwable) | Stopped

  datatype RequestConvention = DefaultRequestConvention | CustomRequestConvention(id: nat)

  datatype DataFetcherConvention = DefaultDataFetcherConvention | CustomDataFetcherConvention(id: nat)

  /** The documented observation a handle was created from, with the convention in force. */
  datatype Documented =
    | ExecutionRequest(requestConvention: RequestConvention)
    | DataFetch(dataFetcherConvention: DataFetcherConvention)

  /** One handle: `recorded` is the response (request) or value (data fetch) that was
      set on its observation context, None while no setter has run. */
  datatype Observation = Observation(
    documented: Documented,
    parent: Option<ObsId>,
    events: seq<Event>,
    recorded: Option<Value>)

  /** The documented observation factory uses the custom convention when one is
      given (non-null) and the default one otherwise. */
  function ResolveRequestConvention(custom: Option<RequestConvention>): (c: RequestConvention)
    ensures custom.Some? ==> c == custom.value
    ensures custom.None? ==> c == DefaultRequestConvention
  {
    if custom.Some? then custom.value else DefaultRequestConvention
  }

  function ResolveDataFetcherConvention(custom: Option<DataFetcherConvention>): (c: DataFetcherConvention)
    ensures custom.Some? ==> c == custom.value
    ensures custom.None? ==> c == DefaultDataFetcherConvention
  {
    if custom.Some? then custom.value else DefaultDataFetcherConvention
  }

  // ---------------------------------------------------------------------------
  // Lifecycle: created -> started -> [errored] -> stopped

  /** Started and neither errored nor stopped yet. */
  predicate Running(events: seq<Event>) {
    events == [Started]
  }

  /** Started, optionally errored once, then stopped. */
  predicate Finished(events: seq<Event>) {
    events == [Started, Stopped] ||
    (|events| == 3 && events[0] == Started && events[1].Errored? && events[2] == Stopped)
  }

  /** The states a handle may be in: created, running or finished. */
  predicate Lifecycle(events: seq<Event>) {
    events == [] || Running(events) || Finished(events)
  }

  /** How often `e` occurs in `events`. */
  function Occurrences(events: seq<Event>, e: Event): (n: nat)
    ensures n <= |events|
  {
    if events == [] then 0
    else (if events[0] == e then 1 else 0) + Occurrences(events[1..], e)
  }

  /** How many error marks `events` holds. */
  function ErrorMarks(events: seq<Event>): (n: nat)
    ensures n <= |events|
  {
    if events == [] then 0
    else (if events[0].Errored? then 1 else 0) + ErrorMarks(events[1..])
  }

  /** Events that closing a handle appends: the error mark when there is a throwable, then stop. */
  function Closing(error: Option<Throwable>): (s: seq<Event>)
    ensures |s| >= 1 && s[|s| - 1] == Stopped
    ensures ErrorMarks(s) == (if error.Some? then 1 else 0)
    ensures forall i :: 0 <= i < |s| - 1 ==> s[i].Errored? && error == Some(s[i].thrown)
  {
    if error.Some? then [Errored(error.value), Stopped] else [Stopped]
  }

  /** Along any allowed lifecycle a handle is started at most once and first, marked
      errored at most once and before it stops, and stopped at most once; it is
      finished exactly when it has been stopped. */
  lemma {:induction false} LifecycleOrder(events: seq<Event>)
    requires Lifecycle(events)
    ensures Occurrences(events, Started) <= 1
    ensures Occurrences(events, Stopped) <= 1
    ensures ErrorMarks(events) <= 1
    ensures events != [] ==> events[0] == Started
    ensures Finished(events) <==> Occurrences(events, Stopped) == 1
    ensures forall i, j :: 0 <= i < |events| && 0 <= j < |events| && events[i].Errored? && events[j] == Stopped ==> i < j
  {
    if events != [] {
      var rest := events[1..];
      if |events| == 2 {
        assert rest == [Stopped] && rest[1..] == [];
      } else if |events| == 3 {
        var last := rest[1..];
        assert rest == [events[1], Stopped] && last == [Stopped] && last[1..] == [];
        assert Occurrences(last, Started) == 0 && Occurrences(last, Stopped) == 1 && ErrorMarks(last) == 0;
        assert Occurrences(rest, Started) == 0 && Occurrences(rest, Stopped) == 1 && ErrorMarks(rest) == 1;
      } else {
        assert rest == [];
      }
    }
  }

  /** Closing a running handle finishes it, with an error mark exactly when there is a throwable. */
  lemma {:induction false} ClosingFinishes(events: seq<Event>, error: Option<Throwable>)
    requires Running(events)
    ensures Finished(events + Closing(error))
    ensures ErrorMarks(events + Closing(error)) == (if error.Some? then 1 else 0)
  {
    var s := events + Closing(error);
    if error.Some? {
      assert s == [Started, Errored(error.value), Stopped];
      assert s[1..] == [Errored(error.value), Stopped] && s[1..][1..] == [Stopped] && s[1..][1..][1..] == [];
    } else {
      assert s == [Started, Stopped];
      assert s[1..] == [Stopped] && s[1..][1..] == [];
    }
  }

  // ---------------------------------------------------------------------------
  // The registry, left abstract: it creates handles and applies the handle calls.

  class ObservationRegistry {
    var observations: seq<Observation>

    constructor ()
      ensures observations == []
    {
      observations := [];
    }

    /** A fresh handle in the created state, without a parent and with nothing recorded. */
    method Create(documented: Documented) returns (o: ObsId)
      modifies this
      ensures o == |old(observations)|
      ensures observations == old(observations) + [Observation(documented, None, [], None)]
    {
      o := |observations|;
      observations := observations + [Observation(documented, None, [], None)];
    }

    /** `Observation.parentObservation(parent)`: overwrites the parent link (null clears it). */
    method ParentObservation(o: ObsId, parent: Option<ObsId>)
      requires o < |observations|
      modifies this
      ensures observations == old(observations)[o := old(observations)[o].(parent := parent)]
    {
      observations := observations[o := observations[o].(parent := parent)];
    }

    method Start(o: ObsId)
      requires o < |observations|
      modifies this
      ensures observations == old(observations)[o := old(observations)[o].(events := old(observations)[o].events + [Started])]
    {
      observations := observations[o := observations[o].(events := observations[o].events + [Started])];
    }

    method Error(o: ObsId, t: Throwable)
      requires o < |observations|
      modifies this
      ensures observations == old(observations)[o := old(observations)[o].(events := old(observations)[o].events + [Errored(t)])]
    {
      observations := observations[o := observations[o].(events := observations[o].events + [Errored(t)])];
    }

    method Stop(o: ObsId)
      requires o < |observations|
      modifies this
      ensures observations == old(observations)[o := old(observations)[o].(events := old(observations)[o].events + [Stopped])]
    {
      observations := observations[o := observations[o].(events := observations[o].events + [Stopped])];
    }

    /** `setResponse` / `setValue` on the handle's observation context. */
    method SetRecorded(o: ObsId, v: Value)
      requires o < |observations|
      modifies this
      ensures observations == old(observations)[o := old(observations)[o].(recorded := Some(v))]
    {
      observations := observations[o := observations[o].(recorded := Some(v))];
    }
  }
}
