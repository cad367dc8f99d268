/**
 * The foreign cryptographic libraries the controller calls, as values:
 * bcrypt hashing and comparison, and JSON Web Token signing.
 * Salts, signatures and encodings are not modelled; what is kept is the
 * behaviour the controller relies on.
 */
module Crypto {

  /** Cost factor passed to `bcrypt.hash` by the controller. */
  const SaltRounds: nat := 10

  /** bcrypt only looks at the first 72 bytes of a password (ASCII: 72 characters). */
  const BcryptMaxBytes: nat := 72

  /** A stored password hash: the cost factor and the part of the password bcrypt reads. */
  datatype Digest = Bcrypt(rounds: nat, key: string)

  /** The part of a password that bcrypt actually hashes. */
  function Significant(password: string): (k: string)
    ensures |k| <= BcryptMaxBytes && |k| <= |password|
    ensures k == password[..|k|]
    ensures |password| <= BcryptMaxBytes ==> k == password
  {
    if |password| <= BcryptMaxBytes then password else password[..BcryptMaxBytes]
  }

  /** `bcrypt.compare(password, digest)`. */
  predicate Compare(password: string, digest: Digest)
  {
    Significant(password) == digest.key
  }

  /** `bcrypt.hash(password, SaltRounds)`: a digest that the same password matches. */
  function Hash(password: string): (d: Digest)
    ensures Compare(password, d)
    ensures d.rounds == SaltRounds
  {
    Bcrypt(SaltRounds, Significant(password))
  }

  /** Passwords that agree on their first 72 characters are interchangeable for bcrypt. */
  lemma CompareHash(guess: string, password: string)
    ensures Compare(guess, Hash(password)) <==> Significant(guess) == Significant(password)
  {
  }

  /** The claims the controller signs: the account id and its company email. */
  datatype Payload = Payload(id: nat, email: string)

  /** A signed token, recorded as its payload, the secret that signed it and its lifetime. */
  datatype Jwt = Jwt(payload: Payload, secret: string, expiresIn: string)
}
