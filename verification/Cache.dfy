/** The in-memory TTL cache shared by the services. */
module Cache {
  import opened Prelude

  datatype Entry<V> = Entry(value: V, expiresAt: int)

  type Entries<V> = map<string, Entry<V>>

  /** A hit, or a miss that also drops the entry if it has expired. */
  function Get<V>(c: Entries<V>, key: string, now: int): (Entries<V>, Option<V>) {
    if key !in c then (c, None)
    else if now > c[key].expiresAt then (c - {key}, None)
    else (c, Some(c[key].value))
  }

  function Put<V>(c: Entries<V>, key: string, value: V, now: int, ttl: int): Entries<V> {
    c[key := Entry(value, now + ttl)]
  }

  class CacheService<V(==)> {
    var entries: Entries<V>

    constructor ()
      ensures entries == map[]
    {
      entries := map[];
    }

    method Lookup(key: string, now: int) returns (r: Option<V>)
      modifies this
      ensures (entries, r) == Get(old(entries), key, now)
    {
      if key !in entries {
        return None;
      }
      if now > entries[key].expiresAt {
        entries := entries - {key};
        return None;
      }
      return Some(entries[key].value);
    }

    method Set(key: string, value: V, now: int, ttl: int)
      modifies this
      ensures entries == Put(old(entries), key, value, now, ttl)
    {
      var expiresAt := now + ttl;
      entries := entries[key := Entry(value, expiresAt)];
    }

    method Delete(key: string) returns (found: bool)
      modifies this
      ensures entries == old(entries) - {key}
      ensures found == (key in old(entries))
    {
      found := key in entries;
      entries := entries - {key};
    }

    method Clear()
      modifies this
      ensures entries == map[]
    {
      entries := map[];
    }
  }

  // ----- Runs -----

  datatype Op<V> =
    | DoGet(key: string, now: int)
    | DoSet(key: string, value: V, now: int, ttl: int)
    | DoDelete(key: string)
    | DoClear

  function Step<V>(c: Entries<V>, op: Op<V>): Entries<V> {
    match op
    case DoGet(key, now) => Get(c, key, now).0
    case DoSet(key, value, now, ttl) => Put(c, key, value, now, ttl)
    case DoDelete(key) => c - {key}
    case DoClear => map[]
  }

  function Run<V>(ops: seq<Op<V>>): Entries<V> {
    if ops == [] then map[] else Step(Run(ops[..|ops| - 1]), ops[|ops| - 1])
  }

  /** What the last write to a key says about it at `now`; lookups do not matter. */
  function LastWrite<V>(ops: seq<Op<V>>, key: string, now: int): Option<V> {
    if ops == [] then None
    else
      var front := ops[..|ops| - 1];
      match ops[|ops| - 1]
      case DoGet(_, _) => LastWrite(front, key, now)
      case DoSet(k, value, at, ttl) =>
        if k != key then LastWrite(front, key, now) else if now <= at + ttl then Some(value) else None
      case DoDelete(k) => if k == key then None else LastWrite(front, key, now)
      case DoClear => None
  }

  /**
   * A lookup no earlier than those before it returns the last value written to the key while that is live, and
   * nothing otherwise: that lookups drop expired entries cannot be observed.
   */
  lemma {:induction false} LookupIsLastWrite<V>(ops: seq<Op<V>>, key: string, now: int)
    requires forall i :: 0 <= i < |ops| && ops[i].DoGet? ==> ops[i].now <= now
    ensures Get(Run(ops), key, now).1 == LastWrite(ops, key, now)
  {
    if ops != [] {
      LookupIsLastWrite(ops[..|ops| - 1], key, now);
    }
  }
}
