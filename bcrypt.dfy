/**
 * The password hasher (bcrypt) as the auth controller uses it: `hash(plain, rounds)` and
 * `compare(plain, digest)`. The model is an ideal hash: a digest records the cost factor and,
 * for the proofs only, the plaintext it was made from. Salting, slowness and one-wayness are
 * not modelled; what the controller relies on is that a password compares true against its
 * own digest and, idealising collisions away, false against the digest of any other password.
 */
module Bcrypt {
  /** The cost factor the controller passes to every `hash` call. */
  const Rounds: nat := 12

  datatype Digest = Digest(rounds: nat, preimage: string)

  function Hash(plain: string, rounds: nat): (d: Digest)
    ensures d.rounds == rounds
  {
    Digest(rounds, plain)
  }

  /** `bcrypt.compare`: hash the candidate with the digest's own cost factor and compare. */
  predicate Compare(plain: string, d: Digest): (b: bool)
    ensures b <==> d == Hash(plain, d.rounds)
  {
    d.preimage == plain
  }

  /** A password compares true against its own digest, whatever the cost factor. */
  lemma CompareOwnHash(plain: string, rounds: nat)
    ensures Compare(plain, Hash(plain, rounds))
  {
  }

  /** A different password never compares true against that digest (collisions idealised away). */
  lemma CompareOtherHash(plain: string, other: string, rounds: nat)
    requires plain != other
    ensures !Compare(plain, Hash(other, rounds))
  {
  }
}
