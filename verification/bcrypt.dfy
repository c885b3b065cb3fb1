/** The secret hasher. bcrypt is a foreign library; this module keeps its
    observable contract: the digest reads the first 72 UTF-8 bytes of the
    password, a hash records the cost factor and the salt it was made with,
    and comparing a candidate password re-hashes it with that cost and salt.
    The digest function below is a stand-in with bcrypt's output width, not
    the Blowfish key schedule. */
module Bcrypt {

  /** The cost factor passed to `bcrypt.hash`. */
  const SaltRounds: nat := 10

  /** bcrypt reads at most this many bytes of the password. */
  const MaxKeyBytes: nat := 72

  /** bcrypt keeps 23 bytes (184 bits) of its final cipher text. */
  const DigestSpace: nat := 0x1_0000_0000_0000_0000_0000_0000_0000_0000_0000_0000_0000_00

  /** A stored password hash: what the `$2b$<cost>$<salt><digest>` string encodes. */
  datatype PasswordHash = PasswordHash(cost: nat, salt: seq<bv8>, digest: nat)

  /** The UTF-8 encoding of one Unicode scalar value. */
  function Utf8Char(c: char): (b: seq<bv8>)
    ensures 1 <= |b| <= 4
  {
    var n := c as int;
    if n < 0x80 then [n as bv8]
    else if n < 0x800 then [(0xC0 + n / 0x40) as bv8, (0x80 + n % 0x40) as bv8]
    else if n < 0x1_0000 then
      [(0xE0 + n / 0x1000) as bv8, (0x80 + n / 0x40 % 0x40) as bv8, (0x80 + n % 0x40) as bv8]
    else
      [(0xF0 + n / 0x4_0000 % 8) as bv8, (0x80 + n / 0x1000 % 0x40) as bv8,
       (0x80 + n / 0x40 % 0x40) as bv8, (0x80 + n % 0x40) as bv8]
  }

  /** The UTF-8 encoding of a string, as the password reaches the library. */
  function Utf8(p: string): seq<bv8>
    decreases |p|
  {
    if p == [] then [] else Utf8Char(p[0]) + Utf8(p[1..])
  }

  /** Encoding distributes over concatenation. */
  lemma {:induction false} Utf8Append(a: string, b: string)
    ensures Utf8(a + b) == Utf8(a) + Utf8(b)
    decreases |a|
  {
    if a != [] {
      assert (a + b)[0] == a[0];
      assert (a + b)[1..] == a[1..] + b;
      Utf8Append(a[1..], b);
    } else {
      assert a + b == b;
    }
  }

  /** Every character takes at least one byte. */
  lemma {:induction false} Utf8Length(p: string)
    ensures |Utf8(p)| >= |p|
    decreases |p|
  {
    if p != [] {
      Utf8Length(p[1..]);
    }
  }

  /** The first 72 UTF-8 bytes of the password, the most bcrypt reads. */
  function Key(p: string): (k: seq<bv8>)
    ensures |k| <= MaxKeyBytes
    ensures |Utf8(p)| <= MaxKeyBytes ==> k == Utf8(p)
  {
    var u := Utf8(p);
    if |u| <= MaxKeyBytes then u else u[..MaxKeyBytes]
  }

  /** Once a password's first 72 bytes are given, anything appended to it
      is ignored. */
  lemma KeyIgnoresTail(p: string, tail: string)
    requires |Utf8(p)| >= MaxKeyBytes
    ensures Key(p + tail) == Key(p)
  {
    Utf8Append(p, tail);
    assert Utf8(p + tail)[..MaxKeyBytes] == Utf8(p)[..MaxKeyBytes];
  }

  /** Folds `xs` into the running state `acc`, staying inside the digest space. */
  function Absorb(acc: nat, xs: seq<nat>): (d: nat)
    requires acc < DigestSpace
    ensures d < DigestSpace
    decreases |xs|
  {
    if xs == [] then acc
    else Absorb((acc * 0x101 + xs[0] + 1) % DigestSpace, xs[1..])
  }

  function Bytes(b: seq<bv8>): seq<nat>
  {
    seq(|b|, i requires 0 <= i < |b| => b[i] as nat)
  }

  /** The stand-in digest of password `p` under a cost and a salt; it reads
      the password only through its key bytes. */
  function Digest(cost: nat, salt: seq<bv8>, p: string): (d: nat)
    ensures d < DigestSpace
  {
    Absorb(Absorb(cost % DigestSpace, Bytes(salt)), Bytes(Key(p)))
  }

  /** Hashing with an explicit cost factor: the cost and the salt are kept in
      the result so that a later comparison can repeat the computation. */
  function HashWithCost(p: string, cost: nat, salt: seq<bv8>): (h: PasswordHash)
    ensures h.cost == cost && h.salt == salt
  {
    PasswordHash(cost, salt, Digest(cost, salt, p))
  }

  /** `bcrypt.compare(p, h)`: re-hash the candidate with the stored cost and
      salt and compare with the stored hash. */
  predicate Verify(p: string, h: PasswordHash)
  {
    HashWithCost(p, h.cost, h.salt) == h
  }

  /** `bcrypt.hash(p, SaltRounds)` with the random salt made explicit. The
      result carries the salt and the fixed cost, and the password it was
      made from passes the comparison against it. */
  function Hash(p: string, salt: seq<bv8>): (h: PasswordHash)
    ensures h.cost == SaltRounds && h.salt == salt
    ensures Verify(p, h)
  {
    HashWithCost(p, SaltRounds, salt)
  }

  /** The converse of the round trip: a hash made at the routes' cost factor
      accepts `p` exactly when it is the hash of `p` under its own salt. */
  lemma VerifyOnlyOwnHash(p: string, h: PasswordHash)
    requires h.cost == SaltRounds
    ensures Verify(p, h) <==> h == Hash(p, h.salt)
  {
  }

  /** Two hashes of the same password under different salts differ, so equal
      passwords cannot be recognised by comparing stored hashes. */
  lemma DistinctSaltsDistinctHashes(p: string, s1: seq<bv8>, s2: seq<bv8>)
    requires s1 != s2
    ensures Hash(p, s1) != Hash(p, s2)
  {
  }

  /** Passwords that share their first 72 bytes are interchangeable: any
      stored hash accepts both or neither. */
  lemma VerifyIgnoresTail(p: string, tail: string, h: PasswordHash)
    requires |Utf8(p)| >= MaxKeyBytes
    ensures Verify(p + tail, h) <==> Verify(p, h)
  {
    KeyIgnoresTail(p, tail);
  }

  /** In particular a password of 72 or more characters is accepted by its
      hash with anything appended. */
  lemma LongPasswordTailIgnored(p: string, tail: string, salt: seq<bv8>)
    requires |p| >= MaxKeyBytes
    ensures Verify(p + tail, Hash(p, salt))
  {
    Utf8Length(p);
    VerifyIgnoresTail(p, tail, Hash(p, salt));
  }
}
