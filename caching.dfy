/**
 * The cache object: a table from keys to entries, a cache-wide
 * default expiry and a sweep interval, an optional obfuscator, and the
 * encoder that turns values into bytes. Each method changes the table
 * in place as the functions of module CacheSpec describe.
 */
module Caching {
  import opened Wrappers
  import opened Obfuscation
  import opened CacheSpec

  /** Construction parameters: default expiry, sweep interval, whether values are obfuscated. */
  datatype CreateCacheParams = CreateCacheParams(expiry: int, cleanInterval: int, isCacheObfuscated: bool)

  /** New cache-wide settings; both are always applied. */
  datatype UpdateCacheTimeParams = UpdateCacheTimeParams(expiry: int, cleanInterval: int)

  class Cache<K(==), V> {
    var cacheMap: map<K, Entry<V>>
    var expiry: int
    var cleanInterval: int
    const obfuscator: Option<Obfuscator>
    /** The value encoder (`json.Marshal` in caching.go); None when a value cannot be encoded. */
    const encode: V -> Option<Bytes>
    /** The byte-slice type assertion on a raw value: Some exactly when the value is a byte slice. */
    const asBytes: V -> Option<Bytes>

    /**
     * A new, empty cache. The default expiry is the requested one when
     * positive and "never expires" otherwise. `randomKey` is the key
     * drawn from the randomness source, used when values are obfuscated.
     */
    constructor (params: CreateCacheParams, encode: V -> Option<Bytes>, asBytes: V -> Option<Bytes>,
                 aead: Aead, randomKey: Key)
      ensures cacheMap == map[]
      ensures params.expiry > 0 ==> expiry == params.expiry
      ensures params.expiry <= 0 ==> expiry == NeverExpires
      ensures cleanInterval == params.cleanInterval
      ensures params.isCacheObfuscated ==> obfuscator == Some(Obfuscator(randomKey, aead))
      ensures !params.isCacheObfuscated ==> obfuscator == None
      ensures this.encode == encode && this.asBytes == asBytes
    {
      cacheMap := map[];
      cleanInterval := params.cleanInterval;
      expiry := NeverExpires;
      if params.expiry > 0 {
        expiry := params.expiry;
      }
      obfuscator := if params.isCacheObfuscated then Some(Obfuscator(randomKey, aead)) else None;
      this.encode := encode;
      this.asBytes := asBytes;
    }

    /**
     * Overwrite both cache-wide settings. Existing entries keep the
     * expiry they were given when they were inserted.
     */
    method UpdateTime(params: UpdateCacheTimeParams)
      modifies this`expiry, this`cleanInterval
      ensures expiry == params.expiry && cleanInterval == params.cleanInterval
      ensures cacheMap == old(cacheMap)
    {
      expiry := params.expiry;
      cleanInterval := params.cleanInterval;
    }

    /**
     * Replace the payload of an existing entry. The entry is shared
     * with the table, so its slot holds the raw value as soon as it is
     * written, before it is encoded.
     */
    method Update(key: K, value: V, random: Option<Nonce>) returns (err: Option<Error>)
      modifies this`cacheMap
      ensures (cacheMap, err) == UpdateStep(old(cacheMap), key, value, encode, obfuscator, random)
    {
      if key !in cacheMap {
        return Some(NotInCache);
      }
      var entry := cacheMap[key].(payload := Raw(value));
      cacheMap := cacheMap[key := entry];
      err := AddInCache(key, entry, random);
    }

    /** Encode the raw value of `entry`, obfuscate it if configured, and store the entry under `key`. */
    method AddInCache(key: K, entry: Entry<V>, random: Option<Nonce>) returns (err: Option<Error>)
      requires entry.payload.Raw?
      modifies this`cacheMap
      ensures (cacheMap, err) == AddInCacheStep(old(cacheMap), key, entry, encode, obfuscator, random)
    {
      var encoded := encode(entry.payload.value);
      if encoded.None? {
        return Some(EncodeFailed);
      }
      var insertValue := encoded.value;
      if obfuscator.Some? {
        var sealed := Obfuscate(obfuscator.value, random, insertValue);
        if sealed.None? {
          return Some(ObfuscateFailed);
        }
        insertValue := sealed.value;
      }
      cacheMap := cacheMap[key := entry.(payload := Encoded(insertValue))];
      return None;
    }

    /** Store `value` under `key` at time `now`, with the override expiry when it is positive. */
    method Add(key: K, value: V, overrideExpiry: int, now: int, random: Option<Nonce>) returns (err: Option<Error>)
      modifies this`cacheMap
      ensures (cacheMap, err) == AddStep(old(cacheMap), key, value, overrideExpiry, expiry, now, encode, obfuscator, random)
    {
      var entry := Entry(Raw(value), now, expiry);
      if overrideExpiry > 0 {
        entry := entry.(expiry := overrideExpiry);
      }
      err := AddInCache(key, entry, random);
    }

    /** Look up `key` at time `now`, evicting it when it is expired or does not deobfuscate. */
    method Get(key: K, now: int) returns (res: Lookup)
      modifies this`cacheMap
      ensures (res, cacheMap) == GetStep(old(cacheMap), key, now, obfuscator, asBytes)
    {
      if key !in cacheMap {
        return NotFound;
      }
      var entry := cacheMap[key];
      if IsLive(entry, now) {
        var slot := SlotBytes(entry.payload, asBytes);
        if slot.None? {
          // the slot must hold a byte slice; anything else is a run-time panic
          return Panic;
        }
        var insertedValue := slot.value;
        if obfuscator.Some? {
          var plain := Deobfuscate(obfuscator.value, insertedValue);
          if plain.None? {
            Remove(key);
            return NotFound;
          }
          insertedValue := plain.value;
        }
        return Found(insertedValue, entry.insertionTime);
      }
      Remove(key);
      return NotFound;
    }

    /** Delete `key`; nothing happens when it is absent. */
    method Remove(key: K)
      modifies this`cacheMap
      ensures cacheMap == old(cacheMap) - {key}
    {
      cacheMap := cacheMap - {key};
    }

    /**
     * One pass of the background sweep at time `now`, visiting the keys
     * in iteration order `order`: remove each sweepable entry, and stop
     * at the first one that is not.
     */
    method CleanPass(order: seq<K>, now: int)
      requires Enumerates(order, cacheMap)
      modifies this`cacheMap
      ensures cacheMap == SweepPass(old(cacheMap), order, now)
    {
      var i := 0;
      while i < |order|
        invariant 0 <= i <= |order|
        invariant Enumerates(order[i..], cacheMap)
        invariant SweepPass(cacheMap, order[i..], now) == SweepPass(old(cacheMap), order, now)
        decreases |order| - i
      {
        EnumeratesTail(order[i..], cacheMap);
        var key := order[i];
        if !Sweepable(cacheMap[key], now) {
          break;
        }
        Remove(key);
        assert order[i..][1..] == order[i + 1..];
        i := i + 1;
      }
    }
  }
}
