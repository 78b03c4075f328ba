/**
  The password hasher, as a symbolic one-way function. The users table holds
  a `Digest`, a type distinct from `string`, so a plaintext password cannot
  be stored where a hash is expected; verifying a password against the digest
  of another fails.
*/
module Password {

  /** Digest of a password; the field is the symbolic preimage, never read
      outside this module. */
  datatype Digest = Digest(preimage: string)

  function HashPassword(password: string): Digest
  {
    Digest(password)
  }

  function VerifyPassword(password: string, hashed: Digest): bool
  {
    hashed.preimage == password
  }

  /** Verification accepts a password exactly against its own digest. */
  lemma VerifyMatchesOnlyItsOwnHash(p: string, q: string)
    ensures VerifyPassword(p, HashPassword(q)) <==> p == q
  {
  }
}
