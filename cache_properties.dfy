/**
 * Properties of the cache engine that relate several operations:
 * round trips through Add/Update and Get, the invariant that every
 * slot holds bytes, and what one sweep pass removes compared with
 * what Get evicts.
 */
module CacheProperties {
  import opened Wrappers
  import opened Obfuscation
  import opened CacheSpec

  /** The cipher of the obfuscator, if any, is a correct AEAD. */
  ghost predicate SoundObfuscator(obfuscator: Option<Obfuscator>) {
    obfuscator.Some? ==> Correct(obfuscator.value.aead)
  }

  /** Unpacking what was packed gives back the encoding of the value. */
  lemma UnpackInvertsPack<V>(encode: V -> Option<Bytes>, obfuscator: Option<Obfuscator>, random: Option<Nonce>, v: V)
    requires SoundObfuscator(obfuscator)
    requires Pack(encode, obfuscator, random, v).Success?
    ensures encode(v).Some?
    ensures Unpack(obfuscator, Pack(encode, obfuscator, random, v).value) == encode(v)
  {
    if obfuscator.Some? {
      DeobfuscateInvertsObfuscate(obfuscator.value, random.value, encode(v).value);
    }
  }

  /**
   * Round trip: a successful Add followed by a Get at time `later`
   * finds the encoding of the value, with the insertion time of the
   * Add, exactly while the resolved expiry has not elapsed; after
   * that, the Get evicts the entry.
   */
  lemma AddThenGet<K, V>(m: map<K, Entry<V>>, key: K, v: V, overrideExpiry: int, cacheExpiry: int, now: int, later: int,
                         encode: V -> Option<Bytes>, obfuscator: Option<Obfuscator>, random: Option<Nonce>,
                         asBytes: V -> Option<Bytes>)
    requires SoundObfuscator(obfuscator)
    requires AddStep(m, key, v, overrideExpiry, cacheExpiry, now, encode, obfuscator, random).1.None?
    ensures var m' := AddStep(m, key, v, overrideExpiry, cacheExpiry, now, encode, obfuscator, random).0;
            var expiry := if overrideExpiry > 0 then overrideExpiry else cacheExpiry;
            && encode(v).Some?
            && ((expiry <= NeverExpires || later - now <= expiry) ==>
                  GetStep(m', key, later, obfuscator, asBytes) == (Found(encode(v).value, now), m'))
            && (!(expiry <= NeverExpires || later - now <= expiry) ==>
                  GetStep(m', key, later, obfuscator, asBytes) == (NotFound, m' - {key}))
  {
    UnpackInvertsPack(encode, obfuscator, random, v);
  }

  /**
   * A successful Update keeps the entry's clock: a later Get finds the
   * new value, with the original insertion time, exactly when the
   * entry as it was before the Update would have been live.
   */
  lemma UpdateThenGet<K, V>(m: map<K, Entry<V>>, key: K, v: V, now: int,
                            encode: V -> Option<Bytes>, obfuscator: Option<Obfuscator>, random: Option<Nonce>,
                            asBytes: V -> Option<Bytes>)
    requires SoundObfuscator(obfuscator)
    requires key in m
    requires UpdateStep(m, key, v, encode, obfuscator, random).1.None?
    ensures var m' := UpdateStep(m, key, v, encode, obfuscator, random).0;
            && encode(v).Some?
            && (IsLive(m[key], now) ==> GetStep(m', key, now, obfuscator, asBytes) == (Found(encode(v).value, m[key].insertionTime), m'))
            && (!IsLive(m[key], now) ==> GetStep(m', key, now, obfuscator, asBytes) == (NotFound, m' - {key}))
  {
    UnpackInvertsPack(encode, obfuscator, random, v);
  }

  /**
   * An Update whose encoding or obfuscation fails still leaves its raw
   * value in the entry. The next Get of that live entry panics on the
   * byte-slice assertion, unless the raw value is itself a byte slice:
   * then that slice is handed back as it is, or, in an obfuscated
   * cache, deobfuscated, and the entry is evicted when that fails.
   */
  lemma FailedUpdateThenGet<K, V>(m: map<K, Entry<V>>, key: K, v: V, now: int,
                                  encode: V -> Option<Bytes>, obfuscator: Option<Obfuscator>, random: Option<Nonce>,
                                  asBytes: V -> Option<Bytes>)
    requires key in m && IsLive(m[key], now)
    requires Pack(encode, obfuscator, random, v).Failure?
    ensures var r := UpdateStep(m, key, v, encode, obfuscator, random);
            && r.1 == Some(Pack(encode, obfuscator, random, v).error)
            && !AllEncoded(r.0)
            && (asBytes(v).None? ==> GetStep(r.0, key, now, obfuscator, asBytes) == (Panic, r.0))
            && (asBytes(v).Some? && Unpack(obfuscator, asBytes(v).value).Some? ==>
                  GetStep(r.0, key, now, obfuscator, asBytes)
                  == (Found(Unpack(obfuscator, asBytes(v).value).value, m[key].insertionTime), r.0))
            && (asBytes(v).Some? && Unpack(obfuscator, asBytes(v).value).None? ==>
                  GetStep(r.0, key, now, obfuscator, asBytes) == (NotFound, r.0 - {key}))
  {
    var r := UpdateStep(m, key, v, encode, obfuscator, random);
    assert r.0[key].payload == Raw(v);
  }

  /**
   * Every operation except a failed Update keeps every slot holding
   * bytes, and while that holds Get never panics.
   */
  lemma OperationsKeepAllEncoded<K, V>(m: map<K, Entry<V>>, key: K, v: V, overrideExpiry: int, cacheExpiry: int, now: int,
                                       encode: V -> Option<Bytes>, obfuscator: Option<Obfuscator>, random: Option<Nonce>,
                                       asBytes: V -> Option<Bytes>)
    requires AllEncoded(m)
    ensures AllEncoded(AddStep(m, key, v, overrideExpiry, cacheExpiry, now, encode, obfuscator, random).0)
    ensures UpdateStep(m, key, v, encode, obfuscator, random).1 != Some(EncodeFailed)
            && UpdateStep(m, key, v, encode, obfuscator, random).1 != Some(ObfuscateFailed)
            ==> AllEncoded(UpdateStep(m, key, v, encode, obfuscator, random).0)
    ensures AllEncoded(GetStep(m, key, now, obfuscator, asBytes).1)
    ensures GetStep(m, key, now, obfuscator, asBytes).0 != Panic
    ensures AllEncoded(m - {key})
  {
    var a := AddStep(m, key, v, overrideExpiry, cacheExpiry, now, encode, obfuscator, random).0;
    forall k | k in a ensures a[k].payload.Encoded? {
      if k != key { assert a[k] == m[k]; }
    }
    var u := UpdateStep(m, key, v, encode, obfuscator, random);
    if u.1.None? {
      forall k | k in u.0 ensures u.0[k].payload.Encoded? {
        if k != key { assert u.0[k] == m[k]; }
      }
    }
  }

  /** Remove then Get: the key is gone and the Get changes nothing. */
  lemma RemoveThenGet<K, V>(m: map<K, Entry<V>>, key: K, now: int, obfuscator: Option<Obfuscator>, asBytes: V -> Option<Bytes>)
    ensures GetStep(m - {key}, key, now, obfuscator, asBytes) == (NotFound, m - {key})
  {
  }

  /**
   * The two expiry tests disagree exactly on entries whose expiry lies
   * below the sentinel and whose age exceeds it: Get keeps those as
   * never expiring, the sweep removes them. Everything Get evicts as
   * expired, the sweep removes too.
   */
  lemma LiveYetSweepable<V>(e: Entry<V>, now: int)
    ensures IsLive(e, now) && Sweepable(e, now) <==> e.expiry < NeverExpires && now - e.insertionTime > e.expiry
    ensures !IsLive(e, now) ==> Sweepable(e, now)
    ensures e.expiry == NeverExpires ==> IsLive(e, now) && !Sweepable(e, now)
  {
  }

  /** The keys at the first `n` positions of `order`. */
  ghost function Front<K>(order: seq<K>, n: nat): (s: set<K>)
    requires n <= |order|
  {
    set i | 0 <= i < n :: order[i]
  }

  /** The front of length n is the first key plus the front of length n - 1 of the tail: the step of the sweep induction. */
  lemma FrontCons<K>(order: seq<K>, n: nat)
    requires 0 < n <= |order|
    ensures Front(order, n) == {order[0]} + Front(order[1..], n - 1)
  {
    var tail := order[1..];
    forall k | k in Front(order, n) ensures k in {order[0]} + Front(tail, n - 1) {
      var i :| 0 <= i < n && order[i] == k;
      if i > 0 { assert tail[i - 1] == k; }
    }
    forall k | k in Front(tail, n - 1) ensures k in Front(order, n) {
      var i :| 0 <= i < n - 1 && tail[i] == k;
      assert order[i + 1] == k;
    }
  }

  /**
   * One sweep pass removes exactly the leading run of sweepable
   * entries in iteration order, and nothing else.
   */
  lemma {:induction false} SweepPassRemovesLeadingRun<K, V>(m: map<K, Entry<V>>, order: seq<K>, now: int)
    requires Enumerates(order, m)
    ensures SweepPass(m, order, now) == m - Front(order, LeadingSweepable(m, order, now))
    decreases |order|
  {
    var n := LeadingSweepable(m, order, now);
    if order == [] || !Sweepable(m[order[0]], now) {
      assert n == 0;
      assert Front(order, n) == {};
    } else {
      EnumeratesTail(order, m);
      var m1, tail := m - {order[0]}, order[1..];
      assert SweepPass(m, order, now) == SweepPass(m1, tail, now);
      assert n == 1 + LeadingSweepable(m1, tail, now);
      SweepPassRemovesLeadingRun(m1, tail, now);
      FrontCons(order, n);
      MinusUnion(m, order[0], Front(tail, n - 1));
    }
  }

  /** Removing the first key and then the rest of the front equals removing the whole front. */
  lemma MinusUnion<K, V>(m: map<K, Entry<V>>, k: K, s: set<K>)
    ensures m - ({k} + s) == (m - {k}) - s
  {
  }

  /**
   * The sweep stops at the first entry it keeps: that entry and every
   * entry after it in iteration order survive the pass, even those
   * that are sweepable.
   */
  lemma SweepStopsAtFirstSurvivor<K, V>(m: map<K, Entry<V>>, order: seq<K>, now: int)
    requires Enumerates(order, m)
    ensures forall j :: LeadingSweepable(m, order, now) <= j < |order| ==> order[j] in SweepPass(m, order, now)
  {
    SweepPassRemovesLeadingRun(m, order, now);
  }
}
