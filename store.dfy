/** The key-value store behind the cache (a Redis server in the deployed program), modelled abstractly:
    string keys, string values, a per-entry deadline derived from the TTL given to Set, and a clock.
    A transport fault is an explicit input of each operation. */
module KeyValue {
  import opened Wrappers

  /** A stored value; `expiresAt == None` means the entry never expires (a zero TTL). */
  datatype Entry = Entry(value: string, expiresAt: Option<int>)

  /** What Get reports: a value, the distinguished absent-key signal (redis.Nil), or a transport error. */
  datatype GetReply = Value(data: string) | Nil | Failed

  /** As a Redis server judges it: an entry expires only once the clock is past its deadline. */
  predicate Live(e: Entry, now: int) {
    e.expiresAt.None? || now <= e.expiresAt.value
  }

  /** The deadline of an entry written at `now` with time-to-live `ttl`. */
  function ExpiryFor(now: int, ttl: nat): (deadline: Option<int>) {
    if ttl == 0 then None else Some(now + ttl)
  }

  /** A value written at time t with time-to-live ttl is visible at time t' exactly while the TTL has not elapsed. */
  lemma LiveUntilExpiry(v: string, t: int, ttl: nat, t': int)
    ensures Live(Entry(v, ExpiryFor(t, ttl)), t') <==> ttl == 0 || t' <= t + ttl
  {
  }

  class Store {
    var entries: map<string, Entry>
    var now: int

    constructor ()
      ensures entries == map[] && now == 0
    {
      entries := map[];
      now := 0;
    }

    /** The value a reader sees under a key: present and not yet expired. */
    function Lookup(key: string): (v: Option<string>)
      reads this
    {
      if key in entries && Live(entries[key], now) then Some(entries[key].value) else None
    }

    method Get(key: string, fault: bool) returns (r: GetReply)
      ensures fault <==> r.Failed?
      ensures !fault && key in entries && Live(entries[key], now) ==> r == Value(entries[key].value)
      ensures !fault && !(key in entries && Live(entries[key], now)) ==> r == Nil
    {
      if fault {
        return Failed;
      }
      var v := Lookup(key);
      r := if v.Some? then Value(v.value) else Nil;
    }

    /** Set(key, value, ttl): on success exactly one entry changes; on a fault nothing does. */
    method Set(key: string, value: string, ttl: nat, fault: bool) returns (ok: bool)
      modifies this
      ensures ok <==> !fault
      ensures entries == if ok then old(entries)[key := Entry(value, ExpiryFor(old(now), ttl))] else old(entries)
      ensures now == old(now)
    {
      if fault {
        return false;
      }
      entries := entries[key := Entry(value, ExpiryFor(now, ttl))];
      ok := true;
    }

    /** The passage of time, after which entries whose TTL has elapsed are no longer visible. */
    method Advance(dt: nat)
      modifies this
      ensures now == old(now) + dt && entries == old(entries)
    {
      now := now + dt;
    }
  }
}
