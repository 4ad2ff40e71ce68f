/**
 * The specification of the cache engine on values: entries, the two
 * expiry tests, and what each operation does to the table of entries.
 * The class in module Caching is proved against these functions.
 *
 * Times and durations are plain integers; `now` is the clock reading
 * of the call.
 */
module CacheSpec {
  import opened Wrappers
  import opened Obfuscation

  /** The cache-wide expiry sentinel meaning "never expires". */
  const NeverExpires: int := -1

  /**
   * The value slot of an entry. After a successful store it holds the
   * encoded (and possibly obfuscated) bytes. `Update` writes the raw
   * value into the slot before encoding it, so a failed `Update`
   * leaves the raw value there.
   */
  datatype Payload<V> = Encoded(bytes: Bytes) | Raw(value: V)

  /** One stored entry: its payload, when it was inserted, and its expiry fixed at insertion. */
  datatype Entry<V> = Entry(payload: Payload<V>, insertionTime: int, expiry: int)

  /** Why a store fails: the key is missing (Update only), encoding failed, or obfuscation failed. */
  datatype Error = NotInCache | EncodeFailed | ObfuscateFailed

  /**
   * What `Get` reports: the stored bytes with the entry's insertion
   * time, not found, or a run-time panic because the slot does not
   * hold bytes.
   */
  datatype Lookup = Found(value: Bytes, insertionTime: int) | NotFound | Panic

  /** The liveness test of `Get`: every expiry at or below the sentinel counts as never expiring. */
  predicate IsLive<V>(e: Entry<V>, now: int) {
    e.expiry <= NeverExpires || now - e.insertionTime <= e.expiry
  }

  /** The removal test of the sweep: only the sentinel itself is spared. */
  predicate Sweepable<V>(e: Entry<V>, now: int) {
    e.expiry != NeverExpires && now - e.insertionTime > e.expiry
  }

  /** m and m' agree on every key other than `key`. */
  ghost predicate SameElsewhere<K, V>(m: map<K, Entry<V>>, m': map<K, Entry<V>>, key: K) {
    && m.Keys - {key} == m'.Keys - {key}
    && forall k :: k in m && k != key ==> k in m' && m[k] == m'[k]
  }

  /** Every stored slot holds bytes. */
  ghost predicate AllEncoded<K, V>(m: map<K, Entry<V>>) {
    forall k :: k in m ==> m[k].payload.Encoded?
  }

  /**
   * The byte-slice type assertion of Get on a slot. `asBytes(v)` is
   * Some exactly when the raw value `v` is itself a byte slice.
   */
  function SlotBytes<V>(p: Payload<V>, asBytes: V -> Option<Bytes>): (r: Option<Bytes>)
    ensures p.Encoded? ==> r == Some(p.bytes)
    ensures p.Raw? ==> r == asBytes(p.value)
  {
    match p
    case Encoded(b) => Some(b)
    case Raw(v) => asBytes(v)
  }

  /**
   * The bytes stored for value `v`: encode it, then obfuscate the
   * encoding when the cache has an obfuscator.
   */
  function Pack<V>(encode: V -> Option<Bytes>, obfuscator: Option<Obfuscator>, random: Option<Nonce>, v: V): (r: Result<Bytes, Error>)
    ensures r == Failure(EncodeFailed) <==> encode(v).None?
    ensures r == Failure(ObfuscateFailed) <==> encode(v).Some? && obfuscator.Some? && random.None?
    ensures r.Success? && obfuscator.None? ==> Some(r.value) == encode(v)
    ensures r.Success? && obfuscator.Some? ==> |r.value| >= NonceSize && r.value[..NonceSize] == random.value
    ensures r.Success? && obfuscator.Some? ==>
              && encode(v).Some? && random.Some?
              && r.value[NonceSize..] == obfuscator.value.aead.seal(obfuscator.value.key, random.value, encode(v).value)
  {
    match encode(v)
    case None => Failure(EncodeFailed)
    case Some(b) =>
      if obfuscator.None? then Success(b)
      else match Obfuscate(obfuscator.value, random, b)
        case None => Failure(ObfuscateFailed)
        case Some(sealed) => Success(sealed)
  }

  /** The bytes `Get` hands back for a stored payload: deobfuscated when the cache has an obfuscator. */
  function Unpack(obfuscator: Option<Obfuscator>, stored: Bytes): (r: Option<Bytes>)
    ensures obfuscator.None? ==> r == Some(stored)
    ensures obfuscator.Some? && |stored| < NonceSize ==> r.None?
    ensures obfuscator.Some? && |stored| >= NonceSize ==>
              r == obfuscator.value.aead.open(obfuscator.value.key, stored[..NonceSize], stored[NonceSize..])
  {
    if obfuscator.None? then Some(stored) else Deobfuscate(obfuscator.value, stored)
  }

  /**
   * addInCache: store `entry`, whose slot holds the raw value, under
   * `key` once its value is packed; on failure the table is as given.
   */
  function AddInCacheStep<K, V>(m: map<K, Entry<V>>, key: K, entry: Entry<V>,
                                encode: V -> Option<Bytes>, obfuscator: Option<Obfuscator>,
                                random: Option<Nonce>): (r: (map<K, Entry<V>>, Option<Error>))
    requires entry.payload.Raw?
    ensures r.1.Some? <==> Pack(encode, obfuscator, random, entry.payload.value).Failure?
    ensures r.1.Some? ==> r.0 == m && r.1.value == Pack(encode, obfuscator, random, entry.payload.value).error
    ensures r.1.None? ==> key in r.0 && r.0[key] == entry.(payload := Encoded(Pack(encode, obfuscator, random, entry.payload.value).value))
    ensures SameElsewhere(m, r.0, key)
  {
    match Pack(encode, obfuscator, random, entry.payload.value)
    case Failure(err) => (m, Some(err))
    case Success(b) => (m[key := entry.(payload := Encoded(b))], None)
  }

  /**
   * Add at time `now`: a fresh entry whose expiry is the per-call
   * override when that is positive and the cache-wide expiry
   * otherwise; any previous entry for the key is replaced.
   */
  function AddStep<K, V>(m: map<K, Entry<V>>, key: K, v: V, overrideExpiry: int, cacheExpiry: int, now: int,
                         encode: V -> Option<Bytes>, obfuscator: Option<Obfuscator>,
                         random: Option<Nonce>): (r: (map<K, Entry<V>>, Option<Error>))
    ensures r.1.Some? <==> Pack(encode, obfuscator, random, v).Failure?
    ensures r.1.Some? ==> r.0 == m
    ensures r.1.None? ==> key in r.0 && r.0[key].payload == Encoded(Pack(encode, obfuscator, random, v).value)
    ensures r.1.None? ==> r.0[key].insertionTime == now
    ensures r.1.None? && overrideExpiry > 0 ==> r.0[key].expiry == overrideExpiry
    ensures r.1.None? && overrideExpiry <= 0 ==> r.0[key].expiry == cacheExpiry
    ensures SameElsewhere(m, r.0, key)
  {
    var entry := Entry(Raw(v), now, if overrideExpiry > 0 then overrideExpiry else cacheExpiry);
    AddInCacheStep(m, key, entry, encode, obfuscator, random)
  }

  /**
   * Update: fails on a missing key. Otherwise the raw value is written
   * into the existing entry first and then packed; only the payload
   * changes, never the insertion time or the expiry.
   */
  function UpdateStep<K, V>(m: map<K, Entry<V>>, key: K, v: V,
                            encode: V -> Option<Bytes>, obfuscator: Option<Obfuscator>,
                            random: Option<Nonce>): (r: (map<K, Entry<V>>, Option<Error>))
    ensures key !in m ==> r == (m, Some(NotInCache))
    ensures key in m ==> key in r.0
    ensures key in m ==> r.0[key].insertionTime == m[key].insertionTime && r.0[key].expiry == m[key].expiry
    ensures key in m ==> (r.1.Some? <==> Pack(encode, obfuscator, random, v).Failure?)
    ensures key in m && r.1.None? ==> r.0[key].payload == Encoded(Pack(encode, obfuscator, random, v).value)
    ensures key in m && r.1.Some? ==> r.1.value == Pack(encode, obfuscator, random, v).error && r.0[key].payload == Raw(v)
    ensures SameElsewhere(m, r.0, key)
  {
    if key !in m then (m, Some(NotInCache))
    else
      var entry := m[key].(payload := Raw(v));
      AddInCacheStep(m[key := entry], key, entry, encode, obfuscator, random)
  }

  /**
   * Get at time `now`, with lazy eviction: an expired entry, and one
   * whose payload does not deobfuscate, is removed and reported not
   * found. A live slot that does not hold a byte slice panics.
   */
  function GetStep<K, V>(m: map<K, Entry<V>>, key: K, now: int, obfuscator: Option<Obfuscator>,
                         asBytes: V -> Option<Bytes>): (r: (Lookup, map<K, Entry<V>>))
    ensures key !in m ==> r == (NotFound, m)
    ensures r.0.Found? <==> key in m && IsLive(m[key], now) && SlotBytes(m[key].payload, asBytes).Some?
                            && Unpack(obfuscator, SlotBytes(m[key].payload, asBytes).value).Some?
    ensures r.0.Found? ==> r.0 == Found(Unpack(obfuscator, SlotBytes(m[key].payload, asBytes).value).value, m[key].insertionTime)
    ensures r.0.Panic? <==> key in m && IsLive(m[key], now) && SlotBytes(m[key].payload, asBytes).None?
    ensures key in m && !IsLive(m[key], now) ==> r == (NotFound, m - {key})
    ensures r.1 == if key in m && r.0.NotFound? then m - {key} else m
  {
    if key !in m then (NotFound, m)
    else
      var e := m[key];
      if !IsLive(e, now) then (NotFound, m - {key})
      else match SlotBytes(e.payload, asBytes)
        case None => (Panic, m)
        case Some(stored) =>
          match Unpack(obfuscator, stored)
          case None => (NotFound, m - {key})
          case Some(b) => (Found(b, e.insertionTime), m)
  }

  /** No key occurs twice in `s`. */
  ghost predicate Distinct<K>(s: seq<K>) {
    forall i, j :: 0 <= i < j < |s| ==> s[i] != s[j]
  }

  /** `order` lists every key of `m` exactly once: an iteration order of the table. */
  ghost predicate Enumerates<K, V>(order: seq<K>, m: map<K, Entry<V>>) {
    && Distinct(order)
    && (forall k :: k in m ==> k in order)
    && (forall i :: 0 <= i < |order| ==> order[i] in m)
  }

  /** Dropping the first key of an iteration order leaves an iteration order of the rest of the table. */
  lemma EnumeratesTail<K, V>(order: seq<K>, m: map<K, Entry<V>>)
    requires Enumerates(order, m) && order != []
    ensures order[0] in m
    ensures Enumerates(order[1..], m - {order[0]})
  {
    assert order[0] in order;
    forall k | k in m - {order[0]}
      ensures k in order[1..]
    {
      var j :| 0 <= j < |order| && order[j] == k;
      assert j != 0;
      assert order[1..][j - 1] == k;
    }
  }

  /**
   * One sweep pass over the table in iteration order `order`: remove
   * sweepable entries until the first entry that is not, and stop
   * there.
   */
  function SweepPass<K, V>(m: map<K, Entry<V>>, order: seq<K>, now: int): (r: map<K, Entry<V>>)
    requires Enumerates(order, m)
    ensures forall k :: k in r ==> k in m && r[k] == m[k]
    ensures forall k :: k in m && k !in r ==> Sweepable(m[k], now)
    decreases |order|
  {
    if order == [] then m
    else
      EnumeratesTail(order, m);
      if Sweepable(m[order[0]], now) then SweepPass(m - {order[0]}, order[1..], now)
      else m
  }

  /** How many entries, from the front of `order`, one sweep pass removes. */
  function LeadingSweepable<K, V>(m: map<K, Entry<V>>, order: seq<K>, now: int): (n: nat)
    requires Enumerates(order, m)
    ensures n <= |order|
    ensures forall i :: 0 <= i < n ==> order[i] in m && Sweepable(m[order[i]], now)
    ensures n < |order| ==> order[n] in m && !Sweepable(m[order[n]], now)
    decreases |order|
  {
    if order == [] then 0
    else
      EnumeratesTail(order, m);
      if Sweepable(m[order[0]], now) then 1 + LeadingSweepable(m - {order[0]}, order[1..], now)
      else 0
  }
}
