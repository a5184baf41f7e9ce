/**
 * The password hasher (bcryptjs) as the model sees it. Its internals are not
 * modelled: a hasher is a pair of functions, `hash(password, cost, salt)` and
 * `verify(password, hash)`, and the only property the authentication flow relies
 * on is `Sound`: a password always verifies against a hash made from it. The salt
 * is an input because bcrypt draws a fresh one on every call.
 */
module Password {

  type Salt = nat

  /** The cost factor the registration route passes to `bcrypt.hash`. */
  const SaltRounds: nat := 10

  datatype Hasher = Hasher(hash: (string, nat, Salt) -> string, verify: (string, string) -> bool)

  /** `bcrypt.compare(p, bcrypt.hash(p, cost))` succeeds for every password, cost and salt. */
  ghost predicate Sound(h: Hasher) {
    forall p, cost, salt :: h.verify(p, h.hash(p, cost, salt))
  }

  /** A concrete hasher: the salt becomes a one-character prefix and verification strips it. */
  function SaltPrefixHasher(): Hasher {
    Hasher((p: string, cost: nat, salt: Salt) => [(salt % 128) as char] + p,
           (p: string, hashed: string) => |hashed| > 0 && hashed[1..] == p)
  }

  /** Soundness can be met, so lemmas that assume it are not vacuous. */
  lemma SaltPrefixHasherSound()
    ensures Sound(SaltPrefixHasher())
  {
    var h := SaltPrefixHasher();
    forall p, cost, salt ensures h.verify(p, h.hash(p, cost, salt)) {
      assert h.hash(p, cost, salt)[1..] == p;
    }
  }
}
