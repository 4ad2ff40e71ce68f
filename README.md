# Expiring cache engine, modelled in Dafny

This project models the in-process key/value cache of `caching.go`: a
table from keys to entries, where each entry holds an encoded (and,
when the cache is obfuscated, AES-GCM sealed) payload, the time it was
inserted, and an expiry fixed at insertion. The cache has a cache-wide
default expiry (the sentinel `-1` means "never expires"), a sweep
interval, an optional obfuscator and a value encoder.

Modules:

- `Wrappers` — `Option` and `Result`.
- `Obfuscation` — the obfuscator. The cipher is an abstract `Aead`
  (a pair of functions `seal`/`open`); what is concrete is the framing
  of `obfuscator.go`: the output is the nonce followed by the sealed
  data, and input shorter than the 12-byte nonce is rejected. The
  random nonce is a parameter (`None` when the randomness source fails).
- `CacheSpec` — entries and the specification of each operation as a
  function on the table `map<K, Entry<V>>`: `AddInCacheStep`, `AddStep`,
  `UpdateStep`, `GetStep`, and `SweepPass` for one sweep pass in a
  given iteration order. The two expiry tests of the source are kept
  apart: `IsLive` (the test of `Get`: any expiry `<= -1` never expires)
  and `Sweepable` (the test of the sweep: only exactly `-1` is spared).
- `CacheProperties` — lemmas that relate operations: round trips
  through Add/Update and Get, the "every slot holds bytes" invariant,
  and the exact set one sweep pass removes.
- `Caching` — the `Cache` class. Its `cacheMap`, `expiry` and
  `cleanInterval` fields are updated in place by the methods. `Update`,
  `AddInCache`, `Add`, `Get` and `CleanPass` are proved equal to
  `UpdateStep`, `AddInCacheStep`, `AddStep`, `GetStep` and `SweepPass`
  of `CacheSpec`. `UpdateTime`, `Remove` and the constructor state
  their new state directly.
- `Scenarios` — fixed call sequences on a fresh cache with a small
  encoder, proved from the method contracts alone.

Things the model exposes rather than hides:

- Get treats every expiry at or below `-1` as never expiring. The sweep
  spares only exactly `-1`. An entry whose expiry is below `-1` (the
  default can be set negative with `UpdateTime`) is kept by Get but
  removed by the sweep (`LiveYetSweepable`, `ExpiryBelowSentinel`).
- The sweep callback returns false for the first entry it keeps. That
  ends the iteration, so a pass removes only the leading run of
  sweepable entries in iteration order (`SweepPassRemovesLeadingRun`,
  `SweepStopsAtFirstSurvivor`, `SweepStopsEarly`).
- Update writes the raw value into the shared entry before encoding
  it. If encoding or obfuscation fails, the entry left in the table
  holds the raw value. The next Get of that live entry then fails the
  byte-slice type assertion and panics; the model reports this as
  `Lookup.Panic` (`FailedUpdateThenGet`, `FailedUpdate`). When the raw
  value is itself a byte slice the assertion succeeds. `json.Marshal`
  of a byte slice cannot fail, so in `caching.go` such a slot is left
  only by an obfuscated cache whose nonce draw fails; Get then tries to
  deobfuscate the slice and evicts the entry when that fails
  (`FailedUpdateWithByteSlice`). Whether a value is a byte slice is the
  cache's `asBytes` function. The model's `encode` is unconstrained, so
  `FailedUpdateThenGet` also covers an unobfuscated cache handing a raw
  slice back, which `caching.go` cannot reach.
- UpdateTime always overwrites both cache-wide fields, so leaving the
  sweep interval out of its parameters sets it to 0.

Behaviours of `caching.go` that a caller might not expect:

- The sweep of `caching.go` stops at the first entry it keeps; it does not evict every expired entry.
- A failed Update is not atomic: it leaves the raw value in the entry.
- UpdateTime stores the given expiry unchanged, unlike cache creation. With 0, new entries expire at once. With a value below -1, new entries never expire for Get but are removed by the first sweep that reaches them.
- Get returns the stored bytes, deobfuscated when the cache is obfuscated, with the insertion time. It does not decode them.
- Building the obfuscator panics when randomness fails; it is not a recoverable error.

## Model

| member | source | states |
|---|---|---|
| `Obfuscation.Obfuscate` | obfuscator.go:34-51 | fails exactly when the randomness source fails; otherwise the output starts with the nonce and the rest is the sealed plaintext |
| `Obfuscation.Deobfuscate` | obfuscator.go:56-72 | input shorter than the nonce fails as malformed; otherwise the result is what opening the remainder under the nonce prefix gives |
| `Obfuscation.DeobfuscateInvertsObfuscate` | obfuscator.go:34-72 | with a correct AEAD, deobfuscating an obfuscated payload gives back the plaintext |
| `CacheSpec.IsLive` | caching.go:155 | the liveness test of Get: an entry is live when its expiry is at most `-1` or its age is at most its expiry |
| `CacheSpec.Sweepable` | caching.go:193 | the removal test of the sweep: an entry is removed when its expiry is not exactly `-1` and its age exceeds its expiry |
| `CacheSpec.SlotBytes` | caching.go:156 | the byte-slice assertion of Get: a stored encoding always passes it; a raw value passes exactly when it is itself a byte slice |
| `CacheSpec.Pack` | caching.go:106-118 | storing a value fails with an encode error exactly when encoding fails, and with an obfuscation error exactly when an obfuscated cache cannot draw a nonce; unobfuscated, the encoding is stored as is; obfuscated, the stored bytes are the nonce followed by the encoding sealed under the cache key and that nonce |
| `CacheSpec.Unpack` | caching.go:158-166 | unobfuscated, the stored bytes are handed back as they are; obfuscated, bytes shorter than the nonce are rejected and otherwise the result is the opening of the rest under the nonce prefix and the cache key |
| `CacheSpec.AddInCacheStep` | caching.go:106-123 | on failure the table is unchanged and the error is returned; on success the entry, with its packed payload, is stored under the key; all other keys are untouched |
| `CacheSpec.AddStep` | caching.go:127-140 | Add fails exactly when packing fails and then stores nothing; on success the key maps to a fresh entry with insertion time `now`, the override expiry when positive and the cache default otherwise, replacing any earlier entry; other keys untouched |
| `CacheSpec.UpdateStep` | caching.go:87-102 | a missing key fails with not-in-cache and changes nothing; on a present key the insertion time and expiry are kept; the payload becomes the packed value on success, and stays the raw value on failure; other keys untouched |
| `CacheSpec.GetStep` | caching.go:143-178 | an absent key is not found and nothing changes; found exactly when the entry is live, holds a byte slice (stored bytes, or a raw value that is itself a byte slice) and that slice deobfuscates, and then the result is the deobfuscated slice with the original insertion time; panics exactly when a live slot holds a raw value that is not a byte slice; the entry is removed exactly when a present key is reported not found; an expired entry is always removed |
| `CacheSpec.SweepPass` | caching.go:191-200 | one sweep pass keeps every surviving entry as it was and removes only sweepable entries, so an entry with expiry `-1` is never removed |
| `CacheSpec.LeadingSweepable` | caching.go:191-200 | the number of leading keys in iteration order that are sweepable; the key just after them, if any, is not sweepable |
| `CacheProperties.UnpackInvertsPack` | caching.go:107-166 | with a correct AEAD, what Get unpacks from a packed payload is the encoding of the value |
| `CacheProperties.AddThenGet` | caching.go:127-177 | after a successful Add, a Get at a later time finds the encoding of the value with the Add's insertion time while the resolved expiry has not elapsed (or is at most `-1`), and afterwards reports not found and evicts the entry |
| `CacheProperties.UpdateThenGet` | caching.go:87-177 | after a successful Update, Get finds the new value with the original insertion time exactly when the entry was live before the Update; Update does not reset the expiry window |
| `CacheProperties.FailedUpdateThenGet` | caching.go:99-171 | an Update whose packing fails returns the error and leaves a raw slot in the table; the next Get of the live entry panics when the raw value is not a byte slice, and otherwise finds that slice deobfuscated, or evicts the entry when it does not deobfuscate |
| `CacheProperties.OperationsKeepAllEncoded` | caching.go:99-120 | Add, Get, Remove and an Update that does not fail while packing keep every slot holding bytes; while that holds, Get never panics |
| `CacheProperties.RemoveThenGet` | caching.go:181-183 | after Remove, Get reports not found and changes nothing |
| `CacheProperties.LiveYetSweepable` | caching.go:155-194 | Get keeps and the sweep removes the same entry exactly when its expiry is below `-1` and its age exceeds the expiry; every entry Get evicts as expired is also sweepable; an entry with expiry `-1` is live and never sweepable |
| `CacheProperties.SweepPassRemovesLeadingRun` | caching.go:191-200 | one sweep pass removes exactly the leading run of sweepable keys in iteration order |
| `CacheProperties.SweepStopsAtFirstSurvivor` | caching.go:191-200 | the first key the sweep keeps, and every key after it in iteration order, survive the pass even when sweepable |
| `Caching.Cache.constructor` | caching.go:58-78 | a new cache is empty; its default expiry is the requested one when positive and `-1` otherwise; it keeps the sweep interval as given; it has an obfuscator holding the random key exactly when obfuscation is requested; it keeps the given encoder and byte-slice test |
| `Caching.Cache.UpdateTime` | caching.go:81-84 | both cache-wide fields are overwritten and the table of entries is unchanged |
| `Caching.Cache.Update` | caching.go:87-102 | the table and the error are those of `UpdateStep` on the old table |
| `Caching.Cache.AddInCache` | caching.go:106-123 | the table and the error are those of `AddInCacheStep` on the old table |
| `Caching.Cache.Add` | caching.go:127-140 | the table and the error are those of `AddStep` on the old table with the current cache-wide expiry |
| `Caching.Cache.Get` | caching.go:143-178 | the result and the new table are those of `GetStep` on the old table |
| `Caching.Cache.Remove` | caching.go:181-183 | exactly the given key is deleted; an absent key leaves the table as it was |
| `Caching.Cache.CleanPass` | caching.go:186-202 | one pass of the sweep loop over an iteration order of the table leaves the table that `SweepPass` gives |
| `Scenarios.ExpiryBelowSentinel` | caching.go:81-200 | after setting the default expiry to -5, an added entry is still found by Get at time 100 and is removed by one sweep pass at that time |
| `Scenarios.SweepStopsEarly` | caching.go:191-200 | with a long-lived key first in iteration order, an expired key behind it survives the sweep pass; the next Get reports it not found and evicts it |
| `Scenarios.FailedUpdate` | caching.go:99-156 | an Update with a value that cannot be encoded returns the encode error, and the next Get panics |
| `Scenarios.UpdateKeepsClock` | caching.go:93-101 | after an Update, the new value is found until the original expiry and not found one unit later |
| `Scenarios.DefaultChangeNotRetroactive` | caching_test.go:351-394 | after the default expiry is lowered, an entry added before is still found, while an entry added afterwards expires under the new default |
| `Scenarios.FailedUpdateWithByteSlice` | caching.go:99-171 | in an obfuscated cache, an Update to a 3-byte slice whose nonce cannot be drawn fails with the obfuscation error; the next Get does not panic, rejects the slice as too short, reports not found and evicts the entry |
| `Scenarios.ObfuscatedRoundTrip` | caching.go:112-171 | in an obfuscated cache the stored bytes are the nonce followed by the sealed encoding, which differ from the encoding, and Get returns the encoding |

## Left out

- Concurrency: `sync.Map` thread safety, the `go cache.clean()` goroutine and the `RLock`/`RUnlock`/`Lock`/`Unlock` wrappers (caching.go:204-218) exist only for concurrent use. All calls are sequential here.
- The sweep loop itself: the endless `for` and `time.Sleep(cleanInterval)` are not modelled; `CleanPass` is one pass of its body. The iteration order is a parameter listing each key of the table once. The weakly consistent order of a concurrent `Range` is not captured.
- Wall-clock time: `time.Now` and `time.Since` become an integer `now` argument. Durations are unbounded integers, so `time.Duration`'s 64-bit overflow is not modelled.
- The `value.(*cacheEntry)` type checks in Update, Get and the sweep (caching.go:93-97, 149-153, 192-194): only addInCache stores into the table, always an entry, so their failing branches cannot be taken and the table holds only entries.
- The `entry.value.([]byte)` type assertion of Get (caching.go:156) is the cache's `asBytes` function on a raw value, since Dafny has no run-time types; a stored encoding always passes it.
- `CacheSpec.GetStep`: unobfuscated, Get hands back the stored slice itself, so a caller's writes into it would change the entry. Likewise, after a failed Update the entry keeps the caller's own value (caching.go:99), and when that is a byte slice the caller's later writes change the entry. The model works on values, so neither aliasing is modelled.
- `json.Marshal` is the abstract `encode` function of the cache, which may fail. Decoding is not part of `caching.go`.
- AES-256-GCM and `crypto/rand` are library calls. The cipher is the abstract `Aead`; its round trip is the assumption `Correct`, used only as a precondition of the round-trip lemmas. `aes.NewCipher` and `cipher.NewGCM` cannot fail with a 32-byte key, so those error returns are not modelled.
- `NewObfuscator` panics when randomness fails (obfuscator.go:22-24). The random key is a constructor parameter, so that failure is not modelled.
- The operations `get`, `GetValue` and `GetAllCacheInfo`, used in `caching_test.go`, are not part of `caching.go` and are not part of this model.
- `tools.go` only pins a build dependency.
