/**
 * The CacheManager store: a string-keyed map of response texts and the
 * digest that turns "url + params" into a key. The digest is an arbitrary
 * function, so nothing here assumes that it is injective.
 */
module CacheStore {
  import opened Wrappers

  /** `getCache(key)`: the stored text, or None when there is none. */
  function Lookup(entries: map<string, string>, key: string): Option<string> {
    if key in entries then Some(entries[key]) else None
  }

  class CacheManager {
    /** The persisted entries, fingerprint to response text. */
    var entries: map<string, string>
    /** `CacheManager.encryptMD5`. */
    const encryptMD5: string -> string

    constructor (digest: string -> string, initial: map<string, string>)
      ensures encryptMD5 == digest && entries == initial
    {
      encryptMD5 := digest;
      entries := initial;
    }

    /** `setCache(key, value)`: overwrites unconditionally, last write wins. */
    method SetCache(key: string, value: string)
      modifies this
      ensures entries == old(entries)[key := value]
    {
      entries := entries[key := value];
    }

    /** `getCache(key)`: the text last stored under `key`, or None. */
    method GetCache(key: string) returns (cached: Option<string>)
      ensures cached.Some? <==> key in entries
      ensures cached.Some? ==> cached.value == entries[key]
    {
      if key in entries {
        cached := Some(entries[key]);
      } else {
        cached := None;
      }
    }
  }
}
