/** `storeDataInCache` and `getCachedData` of app.js: the last fetched
    emergency data kept either in the `emergencyData` object store of IndexedDB
    (record id `'latest'`) or, where the Cache API is missing, under a
    localStorage key. */
module CacheStore {
  import opened Wrappers
  import opened Payloads
  import AppConfig

  /** The key of the one IndexedDB record. */
  const LatestId: string := "latest"

  /** The record `{id: 'latest', data, timestamp}`. */
  datatype Record = Record(id: string, data: Payload, timestamp: int)

  /** A localStorage string: the serialisation of `{data, timestamp}`, or a
      string (empty or not JSON) that yields no data. */
  datatype LocalValue = Serialized(data: Payload, timestamp: int) | Unreadable

  /** The two backends: the `emergencyData` object store and localStorage. */
  datatype Backends = Backends(idb: map<string, Record>, local: map<string, LocalValue>)

  /** Nothing was ever written. */
  const Empty: Backends := Backends(map[], map[])

  /** `storeDataInCache(data)` at time `now`. `cachesAvailable` is
      `'caches' in window`; `dbOpens` says that `caches.open` and
      `openDatabase` resolve. A rejection propagates to the caller (`None`). */
  function Put(b: Backends, cachesAvailable: bool, dbOpens: bool, data: Payload, now: int): (r: Option<Backends>)
    ensures r.None? <==> cachesAvailable && !dbOpens
    ensures r.Some? && cachesAvailable ==>
      r.value.local == b.local && r.value.idb.Keys == b.idb.Keys + {LatestId} &&
      r.value.idb[LatestId] == Record(LatestId, data, now) &&
      forall k | k in b.idb && k != LatestId :: r.value.idb[k] == b.idb[k]
    ensures r.Some? && !cachesAvailable ==>
      r.value.idb == b.idb && r.value.local.Keys == b.local.Keys + {AppConfig.OfflineCacheKey} &&
      r.value.local[AppConfig.OfflineCacheKey] == Serialized(data, now) &&
      forall k | k in b.local && k != AppConfig.OfflineCacheKey :: r.value.local[k] == b.local[k]
  {
    if cachesAvailable then
      if dbOpens then Some(b.(idb := b.idb[LatestId := Record(LatestId, data, now)])) else None
    else
      Some(b.(local := b.local[AppConfig.OfflineCacheKey := Serialized(data, now)]))
  }

  /** `getCachedData()`. A failure to open the database is caught and the
      localStorage copy is tried; when neither yields data the result is
      `null` (`Falsy`). */
  function Get(b: Backends, cachesAvailable: bool, dbOpens: bool): (p: Payload)
    ensures cachesAvailable && dbOpens && LatestId in b.idb && Truthy(b.idb[LatestId].data) ==>
      p == b.idb[LatestId].data
    ensures !(cachesAvailable && dbOpens && LatestId in b.idb && Truthy(b.idb[LatestId].data)) &&
            AppConfig.OfflineCacheKey in b.local && b.local[AppConfig.OfflineCacheKey].Serialized? ==>
      p == b.local[AppConfig.OfflineCacheKey].data
    ensures p != Falsy ==>
      (cachesAvailable && dbOpens && LatestId in b.idb && p == b.idb[LatestId].data) ||
      (AppConfig.OfflineCacheKey in b.local && b.local[AppConfig.OfflineCacheKey].Serialized? &&
       b.local[AppConfig.OfflineCacheKey].data == p)
  {
    if cachesAvailable && dbOpens && LatestId in b.idb && Truthy(b.idb[LatestId].data) then
      b.idb[LatestId].data
    else if AppConfig.OfflineCacheKey in b.local && b.local[AppConfig.OfflineCacheKey].Serialized? then
      b.local[AppConfig.OfflineCacheKey].data
    else
      Falsy
  }

  /** A store that was never written gives `null`. */
  lemma NeverWrittenGivesNull(cachesAvailable: bool, dbOpens: bool)
    ensures Get(Empty, cachesAvailable, dbOpens) == Falsy
  {
  }

  /** Reading back after a write gives the written data, unless the write went
      to IndexedDB with falsy data, which `getCachedData` skips. */
  lemma PutThenGet(b: Backends, cachesAvailable: bool, data: Payload, now: int)
    requires !cachesAvailable || Truthy(data)
    ensures Put(b, cachesAvailable, true, data, now).Some?
    ensures Get(Put(b, cachesAvailable, true, data, now).value, cachesAvailable, true) == data
  {
  }

  /** A write replaces the record as a whole: the earlier write leaves no trace. */
  lemma PutReplaces(b: Backends, cachesAvailable: bool, d1: Payload, t1: int, d2: Payload, t2: int)
    requires Put(b, cachesAvailable, true, d1, t1).Some?
    ensures Put(Put(b, cachesAvailable, true, d1, t1).value, cachesAvailable, true, d2, t2) ==
            Put(b, cachesAvailable, true, d2, t2)
  {
    if cachesAvailable {
      var r := Record(LatestId, d2, t2);
      assert b.idb[LatestId := Record(LatestId, d1, t1)][LatestId := r] == b.idb[LatestId := r];
    } else {
      var v := Serialized(d2, t2);
      var k := AppConfig.OfflineCacheKey;
      assert b.local[k := Serialized(d1, t1)][k := v] == b.local[k := v];
    }
  }

  /** The browser storage the two routines work on. */
  class LocalCache {
    const cachesAvailable: bool
    var idb: map<string, Record>
    var local: map<string, LocalValue>

    function Contents(): Backends
      reads this
    {
      Backends(idb, local)
    }

    constructor (cachesAvailable: bool, initial: Backends)
      ensures this.cachesAvailable == cachesAvailable && Contents() == initial
    {
      this.cachesAvailable := cachesAvailable;
      idb := initial.idb;
      local := initial.local;
    }

    /** `storeDataInCache`; `stored` is false when it rejects. */
    method StoreDataInCache(data: Payload, now: int, dbOpens: bool) returns (stored: bool)
      modifies this
      ensures var r := Put(old(Contents()), cachesAvailable, dbOpens, data, now);
        stored == r.Some? && Contents() == if stored then r.value else old(Contents())
    {
      if cachesAvailable {
        if !dbOpens {
          return false;
        }
        idb := idb[LatestId := Record(LatestId, data, now)];
      } else {
        local := local[AppConfig.OfflineCacheKey := Serialized(data, now)];
      }
      stored := true;
    }

    /** `getCachedData`. */
    method GetCachedData(dbOpens: bool) returns (p: Payload)
      ensures p == Get(Contents(), cachesAvailable, dbOpens)
    {
      if cachesAvailable && dbOpens {
        if LatestId in idb && Truthy(idb[LatestId].data) {
          return idb[LatestId].data;
        }
      }
      if AppConfig.OfflineCacheKey in local && local[AppConfig.OfflineCacheKey].Serialized? {
        return local[AppConfig.OfflineCacheKey].data;
      }
      return Falsy;
    }
  }
}
