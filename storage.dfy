/** The browser's `localStorage`: a string-keyed store that handlers write and read. */
module Storage {
  import opened Wrappers

  class Store<V> {
    var entries: map<string, V>

    /** An empty store. */
    constructor()
      ensures entries == map[]
    {
      entries := map[];
    }

    /** `localStorage.setItem(key, value)`: only that key changes. */
    method SetItem(key: string, value: V)
      modifies this
      ensures entries == old(entries)[key := value]
    {
      entries := entries[key := value];
    }

    /** `localStorage.removeItem(key)`: only that key disappears. */
    method RemoveItem(key: string)
      modifies this
      ensures entries == old(entries) - {key}
    {
      entries := entries - {key};
    }

    /** `localStorage.getItem(key)`: the stored value, or `null` when the key is absent. */
    function GetItem(key: string): (r: Option<V>)
      reads this
      ensures r.Some? <==> key in entries
      ensures r.Some? ==> r.value == entries[key]
    {
      if key in entries then Some(entries[key]) else None
    }
  }
}
