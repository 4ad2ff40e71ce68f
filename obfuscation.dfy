/**
 * The obfuscator: AES-256-GCM sealing of stored payloads, with the
 * cipher itself left abstract. What is concrete here is the framing:
 * an obfuscated payload is the random nonce followed by the sealed
 * data, and input shorter than a nonce is rejected as malformed.
 */
module Obfuscation {
  import opened Wrappers

  newtype byte = x: int | 0 <= x < 256
  type Bytes = seq<byte>

  /** Length of the random obfuscation key: a 256-bit AES key. */
  const KeyBytes: nat := 32

  /** Nonce length of AES-GCM with the standard nonce. */
  const NonceSize: nat := 12

  type Key = s: Bytes | |s| == KeyBytes witness seq(32, _ => 0)
  type Nonce = s: Bytes | |s| == NonceSize witness seq(12, _ => 0)

  /**
   * The authenticated cipher, seen from outside: `seal(key, nonce, p)`
   * gives ciphertext followed by tag, `open(key, nonce, c)` gives the
   * plaintext back or fails when the tag does not verify.
   */
  datatype Aead = Aead(seal: (Key, Nonce, Bytes) -> Bytes, open: (Key, Nonce, Bytes) -> Option<Bytes>)

  /** What any AEAD promises: opening what was sealed under the same key and nonce gives the plaintext back. */
  ghost predicate Correct(aead: Aead) {
    forall key: Key, nonce: Nonce, p: Bytes :: aead.open(key, nonce, aead.seal(key, nonce, p)) == Some(p)
  }

  /** An obfuscator holds one random key for the lifetime of its cache. */
  datatype Obfuscator = Obfuscator(key: Key, aead: Aead)

  /**
   * Obfuscate `plaintext`. `random` is what the randomness source
   * produced for the nonce, None when reading it failed. The result
   * is the nonce followed by the sealed data.
   */
  function Obfuscate(o: Obfuscator, random: Option<Nonce>, plaintext: Bytes): (r: Option<Bytes>)
    ensures r.None? <==> random.None?
    ensures r.Some? ==> |r.value| >= NonceSize && r.value[..NonceSize] == random.value
    ensures r.Some? ==> r.value[NonceSize..] == o.aead.seal(o.key, random.value, plaintext)
  {
    match random
    case None => None
    case Some(nonce) => Some(nonce + o.aead.seal(o.key, nonce, plaintext))
  }

  /**
   * Deobfuscate `ciphertext`: split off the nonce prefix and open the
   * rest. Input shorter than a nonce is malformed and fails.
   */
  function Deobfuscate(o: Obfuscator, ciphertext: Bytes): (r: Option<Bytes>)
    ensures |ciphertext| < NonceSize ==> r.None?
    ensures |ciphertext| >= NonceSize ==> r == o.aead.open(o.key, ciphertext[..NonceSize], ciphertext[NonceSize..])
  {
    if |ciphertext| < NonceSize then None
    else o.aead.open(o.key, ciphertext[..NonceSize], ciphertext[NonceSize..])
  }

  /** With a correct cipher, deobfuscating an obfuscated payload gives back the plaintext. */
  lemma DeobfuscateInvertsObfuscate(o: Obfuscator, nonce: Nonce, plaintext: Bytes)
    requires Correct(o.aead)
    ensures Obfuscate(o, Some(nonce), plaintext).Some?
    ensures Deobfuscate(o, Obfuscate(o, Some(nonce), plaintext).value) == Some(plaintext)
  {
    var sealed := o.aead.seal(o.key, nonce, plaintext);
    var c := nonce + sealed;
    assert c[..NonceSize] == nonce;
    assert c[NonceSize..] == sealed;
  }
}
