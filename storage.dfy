/** The device's persistent key-value store (AsyncStorage), as an object
    holding a map. Whether a read or a write succeeds is decided by the
    caller, since the device cannot be seen from here. */
module Storage {
  import opened Wrappers

  class AsyncStorage {
    var items: map<string, string>

    constructor (initial: map<string, string>)
      ensures items == initial
    {
      items := initial;
    }

    /** `getItem`: the stored value, or null when the key is absent. */
    function Get(key: string): (v: Option<string>)
      reads this
      ensures v.Some? <==> key in items
      ensures v.Some? ==> v.value == items[key]
    {
      if key in items then Some(items[key]) else None
    }

    /** `setItem`; when `ok` is false the write fails and nothing is stored. */
    method SetItem(key: string, value: string, ok: bool)
      modifies this
      ensures items == if ok then old(items)[key := value] else old(items)
    {
      if ok {
        items := items[key := value];
      }
    }

    /** `removeItem`; when `ok` is false the removal fails. */
    method RemoveItem(key: string, ok: bool)
      modifies this
      ensures items == if ok then old(items) - {key} else old(items)
    {
      if ok {
        items := items - {key};
      }
    }
  }
}
