/**
 * The browser's `localStorage`: a mutable map from keys to stored values. Writes can
 * be refused (storage disabled or full), in which case `setItem` throws; reads and
 * removals always succeed. The type of stored values is chosen by each client, which
 * keeps its own parsed view of the JSON text it writes.
 */
module Storage {
  import opened Wrappers

  class LocalStorage<V> {
    var items: map<string, V>
    /** Whether `setItem` succeeds in this browser session. */
    const writable: bool

    constructor(initial: map<string, V>, writable: bool)
      ensures items == initial && this.writable == writable
    {
      items := initial;
      this.writable := writable;
    }

    /** `getItem(key)`: the stored value, or `None` (JavaScript `null`) for a missing key. */
    function GetItem(key: string): (v: Option<V>)
      reads this
      ensures v.Some? <==> key in items
      ensures v.Some? ==> v.value == items[key]
    {
      if key in items then Some(items[key]) else None
    }

    /** `setItem(key, value)`: `false` where the browser throws, and then nothing is stored. */
    method SetItem(key: string, value: V) returns (ok: bool)
      modifies this
      ensures ok == writable
      ensures items == if writable then old(items)[key := value] else old(items)
    {
      ok := writable;
      if writable {
        items := items[key := value];
      }
    }

    /** `removeItem(key)` */
    method RemoveItem(key: string)
      modifies this
      ensures items == old(items) - {key}
    {
      items := items - {key};
    }
  }
}
