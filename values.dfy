/** The evaluation context (pkg/values/values.go, and the identical values.go
    of the older main package): a string-keyed map updated in place. */
module Values {
  import opened Engine

  class Values {
    var entries: map<string, Json>

    constructor ()
      ensures entries == map[]
    {
      entries := map[];
    }

    /** `Add(key, content)` stores `content` under `key`, replacing any earlier
        value, and leaves every other key as it was. */
    method Add(key: string, content: Json)
      modifies this
      ensures entries == old(entries)[key := content]
      ensures key in entries && entries[key] == content
      ensures entries.Keys == old(entries).Keys + {key}
      ensures forall k :: k in old(entries) && k != key ==> entries[k] == old(entries)[k]
    {
      entries := entries[key := content];
    }
  }
}
