/**
 * The cache store: a single map from key to value. Both are Go strings.
 * Entries are inserted or overwritten and never removed; there is no
 * eviction and no bound on the number of keys.
 */
module CacheStore {

  import opened GoBytes

  class Cache {
    var items: map<GoString, GoString>

    /** A new store holds no entries, like the `make(map[string]string)` in main. */
    constructor ()
      ensures items == map[]
    {
      items := map[];
    }

    /**
     * Point lookup. It reports whether the key is present and, if it is,
     * its value. A missing key yields Go's zero value, the empty string.
     * The store is not changed.
     */
    method Get(key: GoString) returns (val: GoString, ok: bool)
      ensures ok <==> key in items
      ensures ok ==> val == items[key]
      ensures !ok ==> val == []
    {
      ok := key in items;
      val := if ok then items[key] else [];
    }

    /** Inserts or overwrites the entry for `key`; every other entry stays as it was. */
    method Set(key: GoString, value: GoString)
      modifies this
      ensures items == old(items)[key := value]
      ensures forall k :: k in old(items) && k != key ==> k in items && items[k] == old(items)[k]
      ensures items.Keys == old(items).Keys + {key}
    {
      items := items[key := value];
    }
  }

  /** Round trip: a `Get` right after `Set(key, value)` finds exactly `value`. */
  method SetThenGet(c: Cache, key: GoString, value: GoString) returns (val: GoString, ok: bool)
    modifies c
    ensures ok && val == value
    ensures c.items == old(c.items)[key := value]
  {
    c.Set(key, value);
    val, ok := c.Get(key);
  }

  /**
   * Overwrite: after two writes to one key the later value is found, and a
   * lookup of any other key gives what it gave before both writes.
   */
  method OverwriteThenGet(c: Cache, key: GoString, first: GoString, second: GoString, other: GoString)
    returns (val: GoString, ok: bool, otherVal: GoString, otherOk: bool)
    requires other != key
    modifies c
    ensures ok && val == second
    ensures otherOk <==> other in old(c.items)
    ensures otherVal == if other in old(c.items) then old(c.items)[other] else []
  {
    c.Set(key, first);
    c.Set(key, second);
    val, ok := c.Get(key);
    otherVal, otherOk := c.Get(other);
  }
}
