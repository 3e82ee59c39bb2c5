/**
 * A stand-in for bcryptjs's `hash(password, 10)` and `compare(password, hash)`.
 *
 * The salt bcrypt draws at random is a parameter. Like bcrypt, only the first
 * 72 units of the password take part; unlike bcrypt, the digest is an
 * invertible encoding, so the model says nothing about one-wayness.
 */
module Bcrypt {

  const MaxPasswordLength: nat := 72

  datatype Hashed = Hashed(salt: nat, digest: seq<int>)

  /** The part of a password that bcrypt looks at. */
  function Significant(password: string): (r: string)
    ensures r <= password
    ensures |r| == if |password| < MaxPasswordLength then |password| else MaxPasswordLength
  {
    if |password| <= MaxPasswordLength then password else password[..MaxPasswordLength]
  }

  function Scramble(p: string, salt: nat): seq<int> {
    seq(|p|, i requires 0 <= i < |p| => p[i] as int + salt + i)
  }

  /** `bcrypt.hash(password, 10)` when the generated salt is `salt`. */
  function Hash(password: string, salt: nat): (h: Hashed)
    ensures h.salt == salt
  {
    Hashed(salt, Scramble(Significant(password), salt))
  }

  /** `bcrypt.compare(password, h)`. */
  function Compare(password: string, h: Hashed): bool {
    Scramble(Significant(password), h.salt) == h.digest
  }

  /** A password matches its own hash, whatever the salt. */
  lemma CompareOwnHash(password: string, salt: nat)
    ensures Compare(password, Hash(password, salt))
  {
  }

  /** A password whose significant part differs does not match. */
  lemma CompareOtherPassword(password: string, other: string, salt: nat)
    requires Significant(password) != Significant(other)
    ensures !Compare(other, Hash(password, salt))
  {
    var p, q := Significant(password), Significant(other);
    if |p| == |q| {
      var i :| 0 <= i < |p| && p[i] != q[i];
      assert Scramble(p, salt)[i] != Scramble(q, salt)[i];
    }
  }
}
