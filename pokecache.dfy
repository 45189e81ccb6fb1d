/**
 * The expiring byte cache of internal/pokecache/cache.go: a map from string
 * keys (request URLs) to byte payloads stamped with their creation time, and a
 * sweeper that periodically deletes every entry older than the interval.
 *
 * Wall-clock time is an explicit `nat` argument; the background ticker is
 * the `Tick` method, called once per tick, and cancellation is the `closed`
 * flag that `Close` sets.
 */
module PokeCache {
  import opened Base

  /** `cacheEntry`. `newCacheEntry(val)` is `CacheEntry(now, val)` with `now`
      the clock reading at the call. */
  datatype CacheEntry = CacheEntry(createdAt: nat, val: Bytes)

  type Store = map<string, CacheEntry>

  /** The payload stored under `key`, if any. */
  function Lookup(store: Store, key: string): Option<Bytes> {
    if key in store then Some(store[key].val) else None
  }

  /** The store a sweep with cutoff `min` leaves: `reapLoop` deletes exactly
      the entries created strictly before `min`. */
  function Reaped(store: Store, min: int): Store {
    map k | k in store && store[k].createdAt >= min :: store[k]
  }

  /** The store after successive ticks at the given times, each sweeping with
      cutoff `now - interval`. */
  function Swept(store: Store, interval: nat, ticks: seq<nat>): Store
    decreases |ticks|
  {
    if ticks == [] then store
    else Swept(Reaped(store, ticks[0] - interval), interval, ticks[1..])
  }

  class Cache {
    var store: Store
    const interval: nat
    /** Set once the owner has cancelled the sweeper. */
    var closed: bool

    /** `NewCache` without the goroutine: an empty store and a running
        sweeper. `time.NewTicker` panics unless the interval is positive. */
    constructor (interval: nat)
      requires interval > 0
      ensures store == map[] && this.interval == interval && !closed
    {
      store := map[];
      this.interval := interval;
      closed := false;
    }

    /** `Add`: write or overwrite `key`, stamped with the current time. */
    method Add(key: string, val: Bytes, now: nat)
      modifies this`store
      ensures store == old(store)[key := CacheEntry(now, val)]
    {
      store := store[key := CacheEntry(now, val)];
    }

    /** `reapLoop(min)`: one pass over the entries, deleting in place every
        entry whose creation time is strictly before `min`. */
    method Reap(min: int)
      modifies this`store
      ensures store == Reaped(old(store), min)
    {
      var pending := store.Keys;
      while pending != {}
        invariant pending <= old(store).Keys
        invariant forall k :: k in store <==> k in old(store) && (k in pending || old(store)[k].createdAt >= min)
        invariant forall k :: k in store ==> store[k] == old(store)[k]
        decreases pending
      {
        var key :| key in pending;
        if store[key].createdAt < min {
          store := store - {key};
        }
        pending := pending - {key};
      }
    }

    /** One tick of the sweeper goroutine at time `now`; once the cache is
        closed, the goroutine has stopped and ticks change nothing. */
    method Tick(now: nat)
      modifies this`store
      ensures store == if closed then old(store) else Reaped(old(store), now - interval)
    {
      if !closed {
        Reap(now - interval);
      }
    }

    /** `Close`: cancel the sweeper; the store is left as it is. */
    method Close()
      modifies this`closed
      ensures closed
      ensures store == old(store)
    {
      closed := true;
    }
  }

  /** What `Get` reports for `c`, which may be nil. */
  function Cached(c: Cache?, key: string): Option<Bytes>
    reads c
  {
    if c == null then None else Lookup(c.store, key)
  }

  /**
   * `Get`, callable on a nil cache: the stored payload and true when `key`
   * is present, whatever the entry's age; no payload and false on a miss or
   * a nil cache. It changes nothing.
   */
  method Get(c: Cache?, key: string) returns (val: Bytes, ok: bool)
    ensures ok <==> c != null && key in c.store
    ensures ok ==> val == c.store[key].val
    ensures !ok ==> val == []
    ensures Cached(c, key) == if ok then Some(val) else None
  {
    if c == null {
      return [], false;
    }
    if key in c.store {
      val, ok := c.store[key].val, true;
    } else {
      val, ok := [], false;
    }
  }

  // ----- Laws of Add -----

  /** After `Add(k, v)`, `Get(k)` finds `v`, stamped with the time of the call. */
  lemma AddThenLookup(store: Store, key: string, val: Bytes, now: nat)
    ensures Lookup(store[key := CacheEntry(now, val)], key) == Some(val)
    ensures store[key := CacheEntry(now, val)][key].createdAt == now
  {
  }

  /** Last write wins, and the second write's time replaces the first's. */
  lemma AddOverwrites(store: Store, key: string, v1: Bytes, t1: nat, v2: Bytes, t2: nat)
    ensures store[key := CacheEntry(t1, v1)][key := CacheEntry(t2, v2)] == store[key := CacheEntry(t2, v2)]
    ensures Lookup(store[key := CacheEntry(t1, v1)][key := CacheEntry(t2, v2)], key) == Some(v2)
  {
  }

  /** `Add(k, v)` leaves every other entry as it was and adds at most `k`. */
  lemma AddFrame(store: Store, key: string, val: Bytes, now: nat)
    ensures store[key := CacheEntry(now, val)].Keys == store.Keys + {key}
    ensures forall k :: k in store && k != key ==> store[key := CacheEntry(now, val)][k] == store[k]
  {
  }

  // ----- Laws of the sweep -----

  /** A sweep removes exactly the entries created before the cutoff and
      leaves the others untouched. */
  lemma ReapedExactly(store: Store, min: int)
    ensures Reaped(store, min).Keys <= store.Keys
    ensures forall k :: k in Reaped(store, min) <==> k in store && store[k].createdAt >= min
    ensures forall k :: k in Reaped(store, min) ==> Reaped(store, min)[k] == store[k]
  {
  }

  /** Sweeping twice with the same cutoff is sweeping once; two sweeps are one
      with the later cutoff. */
  lemma ReapedIdempotent(store: Store, m1: int, m2: int)
    ensures Reaped(Reaped(store, m1), m1) == Reaped(store, m1)
    ensures Reaped(Reaped(store, m1), m2) == Reaped(store, if m1 <= m2 then m2 else m1)
  {
  }

  /**
   * The expiration law: an entry survives a run of ticks exactly when no tick
   * came later than its creation time plus the interval, and then it is
   * untouched.
   */
  lemma {:induction false} SweptKeeps(store: Store, interval: nat, ticks: seq<nat>, key: string)
    ensures key in Swept(store, interval, ticks) <==>
              key in store && forall j :: 0 <= j < |ticks| ==> ticks[j] <= store[key].createdAt + interval
    ensures key in Swept(store, interval, ticks) ==> Swept(store, interval, ticks)[key] == store[key]
    decreases |ticks|
  {
    if ticks != [] {
      var rest := Reaped(store, ticks[0] - interval);
      SweptKeeps(rest, interval, ticks[1..], key);
      assert forall j :: 1 <= j < |ticks| ==> ticks[j] == ticks[1..][j - 1];
    }
  }

  /** A tick at exactly `createdAt + interval` keeps the entry: the cutoff
      comparison is strict. Any later tick removes it. */
  lemma TickBoundary(store: Store, interval: nat, key: string, now: nat)
    requires key in store
    ensures now <= store[key].createdAt + interval ==> Lookup(Reaped(store, now - interval), key) == Lookup(store, key)
    ensures now > store[key].createdAt + interval ==> Lookup(Reaped(store, now - interval), key) == None
  {
  }

  // ----- Client scenarios -----

  /** Staggered entries: with interval `interval`, an entry added at `t0` is
      gone after a tick at `t0 + interval + e`, while an entry added half an
      interval later is still there. */
  method StaggeredExpiry(interval: nat, t0: nat, e: nat) returns (oldFound: bool, newFound: bool)
    requires 0 < e && 2 * e <= interval
    ensures !oldFound && newFound
  {
    var c := new Cache(interval);
    c.Add("old-key", [1], t0);
    c.Add("new-key", [2], t0 + interval / 2);
    c.Tick(t0 + interval + e);
    var _, found1 := Get(c, "old-key");
    var _, found2 := Get(c, "new-key");
    oldFound, newFound := found1, found2;
  }

  /** Entries written before `Close` stay retrievable, even past ticks that
      would otherwise have expired them. */
  method CloseKeepsEntries(interval: nat, t0: nat, later: nat, val: Bytes) returns (got: Bytes, found: bool)
    requires interval > 0
    ensures found && got == val
  {
    var c := new Cache(interval);
    c.Add("key", val, t0);
    c.Close();
    c.Tick(t0 + interval + later + 1);
    got, found := Get(c, "key");
  }
}
