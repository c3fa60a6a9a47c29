/** The descriptor being assembled: a string-to-string store. */
module Manifest {
  import opened JavaUtil

  /** NbmManifest. Its HashMap is private and never handed out, so the model
      keeps it as a map value the methods reassign. */
  class NbmManifest {
    var entries: map<string, string>

    /** A new manifest has no entries. */
    constructor ()
      ensures entries == map[]
    {
      entries := map[];
    }

    /** put(key, value): the key now maps to value, overwriting any earlier
        value; every other key keeps its value and no key disappears. */
    method Put(key: string, value: string)
      modifies this
      ensures entries == Updated(old(entries), key, value)
    {
      entries := entries[key := value];
    }
  }
}
