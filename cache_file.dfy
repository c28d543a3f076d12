/**
 * A named cache namespace, kept as an abstract map from key to decoded
 * value. File persistence and expiry are not modelled.
 */
module Cache {
  import opened PhpValue

  class CacheFile {
    const namespace: string
    var entries: map<string, Value>

    /** A handle on a namespace that holds nothing yet. */
    constructor (namespace: string)
      ensures this.namespace == namespace && entries == map[]
    {
      this.namespace := namespace;
      entries := map[];
    }

    /** The stored value; `false` when nothing is stored under the key. */
    method Get(key: string) returns (v: Value)
      ensures key in entries ==> v == entries[key]
      ensures key !in entries ==> v == Bool(false)
    {
      v := if key in entries then entries[key] else Bool(false);
    }

    /** Stores `value` under `key`, replacing any earlier entry. */
    method Set(key: string, value: Value)
      modifies this
      ensures entries == old(entries)[key := value]
    {
      entries := entries[key := value];
    }

    /** Removes every entry of the namespace. */
    method DeleteAll()
      modifies this
      ensures entries == map[]
    {
      entries := map[];
    }
  }
}
