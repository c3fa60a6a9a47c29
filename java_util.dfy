/** The java.util collections the configuration objects keep in final fields.
    They are objects, not values: a getter hands out the live collection, and
    a list passed to a method may be the very list that method mutates. */
module JavaUtil {

  /** Map.put on a map value: the key now holds the new value, every other
      entry is as before. */
  function Updated<V>(m: map<string, V>, key: string, value: V): (r: map<string, V>)
    ensures r.Keys == m.Keys + {key}
    ensures r[key] == value
    ensures forall k :: k in m && k != key ==> r[k] == m[k]
  {
    m[key := value]
  }

  /** Map.putAll on map values: every key of n takes n's value (last write
      wins), the keys n lacks keep m's value, and no other key appears. */
  function Merged<V>(m: map<string, V>, n: map<string, V>): (r: map<string, V>)
    ensures r.Keys == m.Keys + n.Keys
    ensures forall k :: k in n ==> r[k] == n[k]
    ensures forall k :: k in m && k !in n ==> r[k] == m[k]
  {
    m + n
  }

  /** Two puts of one key: only the second value survives. */
  lemma UpdatedLastWriteWins<V>(m: map<string, V>, key: string, first: V, second: V)
    ensures Updated(Updated(m, key, first), key, second) == Updated(m, key, second)
  {
  }

  /** Putting the same entry twice gives the same map as putting it once. */
  lemma UpdatedIdempotent<V>(m: map<string, V>, key: string, value: V)
    ensures Updated(Updated(m, key, value), key, value) == Updated(m, key, value)
  {
  }

  /** putAll of a map into itself changes nothing. */
  lemma MergedWithItself<V>(m: map<string, V>)
    ensures Merged(m, m) == m
  {
  }

  /** putAll is a sequence of puts: merging a map with one more entry is the merge
      followed by a put of that entry. */
  lemma MergedOneMore<V>(m: map<string, V>, n: map<string, V>, key: string, value: V)
    ensures Merged(m, Updated(n, key, value)) == Updated(Merged(m, n), key, value)
  {
  }

  /** A java.util.List<T> (the source uses a LinkedList) holding non-null elements. */
  class List<T> {
    var items: seq<T>

    /** new LinkedList<>() */
    constructor ()
      ensures items == []
    {
      items := [];
    }

    /** add(x): appends at the end; no uniqueness check. */
    method Add(x: T)
      modifies this
      ensures items == old(items) + [x]
    {
      items := items + [x];
    }

    /** clear() */
    method Clear()
      modifies this
      ensures items == []
    {
      items := [];
    }

    /** addAll(other): appends other's elements, in order, as they were when the
        call began (the same holds when other is this list). */
    method AddAll(other: List<T>)
      modifies this
      ensures items == old(items) + old(other.items)
    {
      items := items + other.items;
    }
  }

  /** A java.util.Map<String, V> (the source uses a HashMap) holding non-null
      keys and values. */
  class Map<V> {
    var contents: map<string, V>

    /** new HashMap<>() */
    constructor ()
      ensures contents == map[]
    {
      contents := map[];
    }

    /** put(key, value), overwriting any earlier value of key. */
    method Put(key: string, value: V)
      modifies this
      ensures contents == Updated(old(contents), key, value)
    {
      contents := contents[key := value];
    }

    /** putAll(other), reading other as it was when the call began (so putAll of
        this map into itself leaves it as it was). */
    method PutAll(other: Map<V>)
      modifies this
      ensures contents == Merged(old(contents), old(other.contents))
    {
      contents := contents + other.contents;
    }
  }
}
