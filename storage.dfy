/** The platform's secure key-value store (`SecureStorage.Default`), shared by the settings
    service and by the token store of the auth service (`KeyStorage`). A missing key reads
    as the empty string, never as null. */
module Storage {

  /** What a read of `key` returns: its value, or "" when it is absent. */
  function Lookup(entries: map<string, string>, key: string): (v: string)
    ensures key in entries ==> v == entries[key]
    ensures key !in entries ==> v == ""
  {
    if key in entries then entries[key] else ""
  }

  class SecureStore {
    var entries: map<string, string>

    constructor()
      ensures entries == map[]
    {
      entries := map[];
    }

    /** `GetAsync(key) ?? string.Empty`. */
    method Get(key: string) returns (v: string)
      ensures v == Lookup(entries, key)
    {
      if key in entries {
        v := entries[key];
      } else {
        v := "";
      }
    }

    /** `SetAsync(key, value)`. */
    method Set(key: string, value: string)
      modifies this
      ensures entries == old(entries)[key := value]
    {
      entries := entries[key := value];
    }

    /** `Remove(key)`; removing an absent key changes nothing. */
    method Remove(key: string)
      modifies this
      ensures entries == old(entries) - {key}
    {
      entries := entries - {key};
    }
  }
}
