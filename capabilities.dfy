/** The foreign libraries the handlers call, passed in as functions: token signing
    and verification (the signing key and the expiry are inside them) and password
    hashing and comparison. */
module Capabilities {
  import opened Http

  datatype Crypto = Crypto(
    sign: string -> string,              // a token whose claim is the given email
    verify: string -> Option<string>,    // the email claim of a valid token, None on failure
    hash: string -> string,              // the digest stored for a password
    compare: (string, string) -> bool)   // does the password match the digest

  /** A token signed for an email verifies to that email (it has not expired yet).
      `sign` is a function: the `iat` timestamp `jsonwebtoken` embeds is not modelled. */
  ghost predicate SoundTokens(c: Crypto)
  {
    forall email :: c.verify(c.sign(email)) == Some(email)
  }

  /** A password matches exactly the digests made from it. This idealises bcrypt,
      which salts each digest and reads only the first 72 bytes of a password. */
  ghost predicate SoundDigests(c: Crypto)
  {
    forall p, q :: c.compare(p, c.hash(q)) <==> p == q
  }
}
