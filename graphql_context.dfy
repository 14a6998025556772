/** The per-request key/value bag that graphql-java attaches to an execution. Only the
    entries that hold observation handles matter here, so every value is a handle. */
module GraphQL {
  import opened Observation

  class GraphQLContext {
    var entries: map<string, ObsId>

    constructor (entries: map<string, ObsId>)
      ensures this.entries == entries
    {
      this.entries := entries;
    }

    /** `get(key)`: the value held under `key`, or null when there is none. */
    method Get(key: string) returns (r: Option<ObsId>)
      ensures r.Some? <==> key in entries
      ensures r.Some? ==> r.value == entries[key]
    {
      r := if key in entries then Some(entries[key]) else None;
    }

    method Put(key: string, o: ObsId)
      modifies this
      ensures entries == old(entries)[key := o]
    {
      entries := entries[key := o];
    }

    method Delete(key: string)
      modifies this
      ensures entries == old(entries) - {key}
    {
      entries := entries - {key};
    }
  }
}
