/** A device key-value store (expo-secure-store or AsyncStorage): string keys to string
    values. The store is a foreign module; this class is the model the rest of the
    project reads and writes through. */
module Storage {
  import opened Optional

  /** JavaScript truthiness of a stored string: present and non-empty. */
  predicate Truthy(o: Option<string>) {
    o.Some? && o.value != ""
  }

  /** What `getItem(key)` resolves to: the stored string, or null. */
  function Lookup(items: map<string, string>, key: string): (r: Option<string>)
    ensures r.Some? <==> key in items
    ensures r.Some? ==> r.value == items[key]
  {
    if key in items then Some(items[key]) else None
  }

  class KeyValueStore {
    var items: map<string, string>

    constructor (initial: map<string, string>)
      ensures items == initial
    {
      items := initial;
    }

    /** `getItem` / `getItemAsync`: reads one key. */
    method GetItem(key: string) returns (value: Option<string>)
      ensures value == Lookup(items, key)
    {
      value := if key in items then Some(items[key]) else None;
    }

    /** `setItem` / `setItemAsync`: overwrites one key. */
    method SetItem(key: string, value: string)
      modifies this
      ensures items == old(items)[key := value]
    {
      items := items[key := value];
    }

    /** `deleteItemAsync`: removes one key (a missing key is no error). `fails` stands
        for the promise rejecting; the store is then left as it was. */
    method DeleteItem(key: string, fails: bool) returns (ok: bool)
      modifies this
      ensures ok == !fails
      ensures items == if fails then old(items) else old(items) - {key}
    {
      ok := !fails;
      if ok {
        items := items - {key};
      }
    }
  }
}
