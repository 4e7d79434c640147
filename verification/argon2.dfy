/**
 * The password-hashing backend (the argon2 crate with its default Argon2id parameters),
 * reduced to the three operations the library calls. They are handed in as a value, so
 * the model states its properties for every backend and names the assumptions about the
 * backend (the stored digest parses back, no collisions) where a property needs them.
 */
module Argon2 {
  import opened Wrappers

  /** A parsed PHC digest string: the salt and the hash output it records. */
  datatype PasswordHash = PasswordHash(salt: string, output: seq<bv8>)

  /**
   * `hash(password, salt)`: `hash_password`, `None` when the backend fails;
   * `render`: `PasswordHash::to_string`, the `$argon2id$v=19$...` text;
   * `parse`: `PasswordHash::new`, `None` for text that is not a PHC digest.
   */
  datatype Hasher = Hasher(
    hash: (string, string) -> Option<seq<bv8>>,
    render: PasswordHash -> string,
    parse: string -> Option<PasswordHash>)

  /** Parsing the rendering of `d` gives back `d`. */
  predicate ParsesBack(h: Hasher, d: PasswordHash)
  {
    h.parse(h.render(d)) == Some(d)
  }

  /** Under one salt, distinct passwords never produce the same output. */
  ghost predicate CollisionFree(h: Hasher)
  {
    forall p, q, salt :: h.hash(p, salt).Some? && h.hash(p, salt) == h.hash(q, salt) ==> p == q
  }
}
