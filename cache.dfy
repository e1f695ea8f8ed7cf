/** The shared cache store the views and signal handlers use (`django.core.cache.cache`):
    a key-value map whose entries remember the TTL they were stored with. Expiry itself
    is not modelled. */
module Cache {
  import opened Common
  import opened Posts

  /** What the code stores: rendered post lists and summary strings. */
  datatype Payload = PostList(posts: seq<Post>) | SummaryText(text: string)

  /** Python truthiness of a cached value: an empty list or an empty string is falsy. */
  predicate Truthy(v: Payload) {
    match v
    case PostList(ps) => ps != []
    case SummaryText(t) => t != ""
  }

  /** A stored value together with the timeout (in seconds) it was set with. */
  datatype Entry = Entry(value: Payload, ttl: nat)

  /** What `cache.get(key)` returns for the given contents: `None` for an absent key. */
  function Lookup(entries: map<string, Entry>, key: string): (r: Option<Payload>)
    ensures r.None? <==> key !in entries
  {
    if key in entries then Some(entries[key].value) else None
  }

  class Store {
    var entries: map<string, Entry>

    constructor ()
      ensures entries == map[]
    {
      entries := map[];
    }

    /** `cache.get(key)`: reads and changes nothing. */
    method Get(key: string) returns (r: Option<Payload>)
      ensures r == Lookup(entries, key)
      ensures r.Some? ==> key in entries && r.value == entries[key].value
    {
      if key in entries {
        r := Some(entries[key].value);
      } else {
        r := None;
      }
    }

    /** `cache.set(key, value, ttl)`: overwrites the entry for `key`, leaves every other key. */
    method Set(key: string, value: Payload, ttl: nat)
      modifies this
      ensures entries == old(entries)[key := Entry(value, ttl)]
      ensures forall k :: k != key ==> Lookup(entries, k) == Lookup(old(entries), k)
    {
      entries := entries[key := Entry(value, ttl)];
    }

    /** `cache.delete(key)`: removes `key` and reports whether it was present; deleting an
        absent key changes nothing. */
    method Delete(key: string) returns (existed: bool)
      modifies this
      ensures existed <==> key in old(entries)
      ensures entries == old(entries) - {key}
      ensures !existed ==> entries == old(entries)
    {
      existed := key in entries;
      entries := entries - {key};
    }
  }
}
