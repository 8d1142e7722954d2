/**
  Byte strings, 32-byte digests and the hash function.

  keccak256 is a parameter of every definition that needs it: any function from byte
  strings to 32-byte digests. Such a function always has collisions, so a statement of the
  form "or there is a collision" would be empty; results that rest on collision resistance
  are stated with a named function that computes the colliding pair from its inputs.
 */
module Hashing {
  newtype byte = x: int | 0 <= x < 256

  type Bytes = seq<byte>

  const DIGEST_BYTES: nat := 32

  type Digest = b: Bytes | |b| == DIGEST_BYTES witness seq(DIGEST_BYTES, _ => 0)

  /** bytes32(0): what the contract returns for a batch that was never anchored. */
  const ZERO_DIGEST: Digest :=
    [0, 0, 0, 0, 0, 0, 0, 0, 0, 0, 0, 0, 0, 0, 0, 0,
     0, 0, 0, 0, 0, 0, 0, 0, 0, 0, 0, 0, 0, 0, 0, 0]

  lemma ZeroDigestIsZero()
    ensures forall i | 0 <= i < DIGEST_BYTES :: ZERO_DIGEST[i] == 0
  {
  }

  type Keccak = Bytes -> Digest

  /** Two different inputs with one digest. */
  predicate IsCollision(k: Keccak, pair: (Bytes, Bytes)) {
    pair.0 != pair.1 && k(pair.0) == k(pair.1)
  }
}
