/** Free-form entries a user attaches to the module descriptor. */
module CustomEntries {
  import opened JavaLang
  import opened JavaUtil
  import opened Gradle

  /** CustomManifestEntries: a final, live String-to-Object map. */
  class CustomManifestEntries {
    const entries: Map<HostValue>

    /** A new, empty map of its own. */
    constructor ()
      ensures entries.contents == map[] && fresh(entries)
    {
      entries := new Map<HostValue>();
    }

    /** entry(key, value): the key now maps to value; every other key keeps its
        value and no key disappears. */
    method Entry(key: string, value: HostValue)
      modifies entries
      ensures entries.contents == Updated(old(entries.contents), key, value)
    {
      entries.Put(key, value);
    }

    /** entries(newEntries): putAll, so every key of newEntries takes its value
        there and the other keys are kept; a null map throws and changes nothing. */
    method Entries(newEntries: Map?<HostValue>) returns (outcome: Outcome)
      modifies entries
      ensures newEntries == null ==> outcome == Threw(NullPointerException(None))
      ensures newEntries == null ==> entries.contents == old(entries.contents)
      ensures newEntries != null ==> outcome == Returned
      ensures newEntries != null ==>
                entries.contents == Merged(old(entries.contents), old(newEntries.contents))
    {
      if newEntries == null {
        return Threw(NullPointerException(None));
      }
      entries.PutAll(newEntries);
      return Returned;
    }

    /** getEntries(): the live map itself, not a snapshot. */
    method GetEntries() returns (r: Map<HostValue>)
      ensures r == entries
    {
      r := entries;
    }
  }
}
