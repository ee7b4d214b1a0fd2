/**
 * The browser's per-origin key-value store (`localStorage`), with the stored
 * text already deserialised: a key maps to the value last written under it.
 */
module Storage {
  import opened Wrappers

  class LocalStorage<V> {
    var items: map<string, V>

    constructor (initial: map<string, V>)
      ensures items == initial
    {
      items := initial;
    }

    /** `getItem`: the value under `key`, or nothing when the key is missing. */
    method GetItem(key: string) returns (v: Option<V>)
      ensures v.Some? <==> key in items
      ensures v.Some? ==> v.value == items[key]
    {
      v := if key in items then Some(items[key]) else None;
    }

    /** `setItem`: overwrites whatever was stored under `key`; other keys keep their values. */
    method SetItem(key: string, value: V)
      modifies this
      ensures key in items && items[key] == value
      ensures forall k :: k in old(items) && k != key ==> k in items && items[k] == old(items)[k]
      ensures items.Keys == old(items).Keys + {key}
    {
      items := items[key := value];
    }

    /** `removeItem`: drops `key`; a missing key is a no-op. */
    method RemoveItem(key: string)
      modifies this
      ensures key !in items
      ensures forall k :: k in old(items) && k != key ==> k in items && items[k] == old(items)[k]
      ensures items.Keys == old(items).Keys - {key}
    {
      items := items - {key};
    }
  }
}
