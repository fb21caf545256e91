/**
 * The interface of the key-encapsulation library the application calls.
 * The library's algorithms are not part of this model: a scheme is a
 * record of three total functions over byte strings, and the random bytes
 * that key generation and encapsulation draw are an explicit input.
 */
module Kem {

  type Bytes = seq<bv8>

  /** What `keygen` returns: the encapsulation (public) key and the decapsulation (private) key. */
  datatype KeyPair = KeyPair(ek: Bytes, dk: Bytes)

  /** What `encaps` returns: the shared secret and the ciphertext that carries it. */
  datatype Encapsulation = Encapsulation(key: Bytes, ct: Bytes)

  /**
   * One concrete scheme. `keygen(coins)` and `encaps(ek, coins)` take the
   * randomness they would draw; `decaps(dk, ct)` is deterministic.
   */
  datatype Kem = Kem(
    keygen: Bytes -> KeyPair,
    encaps: (Bytes, Bytes) -> Encapsulation,
    decaps: (Bytes, Bytes) -> Bytes)

  /**
   * The one property of a scheme the round-trip lemma depends on, for one
   * choice of randomness: decapsulating the ciphertext made for the public
   * key of a pair with the private key of that pair gives the shared secret back.
   */
  predicate CorrectFor(kem: Kem, keyCoins: Bytes, encCoins: Bytes)
  {
    var pair := kem.keygen(keyCoins);
    var e := kem.encaps(pair.ek, encCoins);
    kem.decaps(pair.dk, e.ct) == e.key
  }
}
