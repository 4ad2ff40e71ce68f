/**
 * Client runs of the cache, each a fixed sequence of calls on a fresh
 * cache whose outcome is proved from the method contracts alone. They
 * pin down the behaviours a caller can observe, including the ones
 * where Get and the sweep disagree and where a failed Update leaves a
 * broken entry behind.
 *
 * Values are integers; the encoder below fails on negative values, and
 * the cipher is a stand-in that satisfies the AEAD round trip.
 */
module Scenarios {
  import opened Wrappers
  import opened Obfuscation
  import opened CacheSpec
  import opened Caching

  /** A one-byte encoding of non-negative integers; negative values cannot be encoded. */
  function SmallEncoder(v: int): (r: Option<Bytes>) {
    if v < 0 then None else Some([(v % 256) as byte])
  }

  /** A cipher that passes the plaintext through; it meets the AEAD round trip. */
  function PassThrough(): (aead: Aead)
    ensures Correct(aead)
  {
    Aead((key: Key, nonce: Nonce, p: Bytes) => p, (key: Key, nonce: Nonce, c: Bytes) => Some(c))
  }

  /** No integer is a byte slice. */
  function NotBytes(v: int): (r: Option<Bytes>) {
    None
  }

  /** A byte slice encodes to itself (JSON's base64 text is abstracted away) and is a byte slice. */
  function SliceCodec(v: Bytes): (r: Option<Bytes>) {
    Some(v)
  }

  const ZeroKey: Key := seq(32, _ => 0)
  const ZeroNonce: Nonce := seq(12, _ => 0)

  /**
   * Entries can end up with an expiry below the sentinel when the
   * default is set negative: Get keeps such an entry as never expiring,
   * while one sweep pass at the same time removes it.
   */
  method ExpiryBelowSentinel() returns (read: Lookup, gone: bool)
    ensures read == Found([7], 0)
    ensures gone
  {
    var c := new Cache<int, int>(CreateCacheParams(10, 1, false), SmallEncoder, NotBytes, PassThrough(), ZeroKey);
    c.UpdateTime(UpdateCacheTimeParams(-5, 0));
    var err := c.Add(1, 7, 0, 0, None);
    assert c.cacheMap.Keys == {1};
    read := c.Get(1, 100);
    c.CleanPass([1], 100);
    gone := 1 !in c.cacheMap;
  }

  /**
   * The sweep stops at the first entry it keeps: with the long-lived
   * key first in iteration order, the expired key behind it survives
   * the pass, and only a Get evicts it.
   */
  method SweepStopsEarly() returns (survived: bool, read: Lookup, evicted: bool)
    ensures survived
    ensures read == NotFound
    ensures evicted
  {
    var c := new Cache<int, int>(CreateCacheParams(10, 1, false), SmallEncoder, NotBytes, PassThrough(), ZeroKey);
    var err1 := c.Add(1, 1, 1000, 0, None);
    var err2 := c.Add(2, 2, 5, 0, None);
    assert c.cacheMap.Keys == {1, 2};
    c.CleanPass([1, 2], 10);
    survived := 2 in c.cacheMap;
    read := c.Get(2, 10);
    evicted := 2 !in c.cacheMap;
  }

  /**
   * An Update whose value cannot be encoded reports the error but
   * leaves the raw value in the live entry, and the next Get panics.
   */
  method FailedUpdate() returns (err: Option<Error>, read: Lookup)
    ensures err == Some(EncodeFailed)
    ensures read == Panic
  {
    var c := new Cache<int, int>(CreateCacheParams(10, 1, false), SmallEncoder, NotBytes, PassThrough(), ZeroKey);
    var added := c.Add(1, 5, 0, 0, None);
    err := c.Update(1, -1, None);
    read := c.Get(1, 3);
  }

  /**
   * Update replaces the payload but not the clock: the entry still
   * expires ten time units after the Add.
   */
  method UpdateKeepsClock() returns (early: Lookup, late: Lookup)
    ensures early == Found([4], 0)
    ensures late == NotFound
  {
    var c := new Cache<int, int>(CreateCacheParams(10, 1, false), SmallEncoder, NotBytes, PassThrough(), ZeroKey);
    var added := c.Add(1, 3, 0, 0, None);
    var updated := c.Update(1, 4, None);
    early := c.Get(1, 10);
    late := c.Get(1, 11);
  }

  /**
   * Lowering the default expiry does not shorten an entry added
   * before; only entries added afterwards get the new default.
   */
  method DefaultChangeNotRetroactive() returns (older: Lookup, newer: Lookup)
    ensures older == Found([3], 0)
    ensures newer == NotFound
  {
    var c := new Cache<int, int>(CreateCacheParams(10, 1, false), SmallEncoder, NotBytes, PassThrough(), ZeroKey);
    var err1 := c.Add(1, 3, 0, 0, None);
    c.UpdateTime(UpdateCacheTimeParams(1, 0));
    older := c.Get(1, 5);
    var err2 := c.Add(2, 4, 0, 5, None);
    newer := c.Get(2, 7);
  }

  /**
   * With obfuscation on, the stored bytes are the nonce followed by
   * the sealed encoding, which is not the encoding itself, and Get
   * still returns the encoding.
   */
  method ObfuscatedRoundTrip() returns (stored: Bytes, read: Lookup)
    ensures stored != [42] && stored == ZeroNonce + [42]
    ensures read == Found([42], 0)
  {
    var c := new Cache<int, int>(CreateCacheParams(10, 1, true), SmallEncoder, NotBytes, PassThrough(), ZeroKey);
    var err := c.Add(1, 42, 0, 0, Some(ZeroNonce));
    stored := c.cacheMap[1].payload.bytes;
    read := c.Get(1, 0);
  }

  /**
   * A raw value that is itself a byte slice passes Get's assertion. In
   * an obfuscated cache whose nonce read fails during an Update, the
   * raw 3-byte slice stays in the entry; Get then rejects it as
   * malformed ciphertext, evicts the entry and reports not found.
   */
  method FailedUpdateWithByteSlice() returns (err: Option<Error>, read: Lookup, evicted: bool)
    ensures err == Some(ObfuscateFailed)
    ensures read == NotFound
    ensures evicted
  {
    var c := new Cache<int, Bytes>(CreateCacheParams(0, 1, true), SliceCodec, SliceCodec, PassThrough(), ZeroKey);
    var added := c.Add(1, [1], 0, 0, Some(ZeroNonce));
    err := c.Update(1, [1, 2, 3], None);
    read := c.Get(1, 5);
    evicted := 1 !in c.cacheMap;
  }
}
