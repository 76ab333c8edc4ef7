/**
 * The collaborators the backend handlers call into, reduced to the behaviour
 * the handlers depend on: bcrypt hashing and comparison, and the signed
 * session token (`jwt.sign({ userId }, secret, { expiresIn: "7d" })`).
 */
module Primitives {

  import opened Codes

  // ---------------------------------------------------------------------------
  // bcrypt (bcryptjs.hash / bcryptjs.compare)
  // ---------------------------------------------------------------------------

  /** The UTF-8 encoding of one Unicode scalar value. */
  function Utf8Char(c: char): (b: seq<byte>)
    ensures 1 <= |b| <= 4
    ensures c as int < 0x80 <==> |b| == 1
  {
    var n := c as int;
    if n < 0x80 then [n as byte]
    else if n < 0x800 then [(0xC0 + n / 0x40) as byte, (0x80 + n % 0x40) as byte]
    else if n < 0x10000 then
      [(0xE0 + n / 0x1000) as byte, (0x80 + n / 0x40 % 0x40) as byte, (0x80 + n % 0x40) as byte]
    else
      [(0xF0 + n / 0x40000) as byte, (0x80 + n / 0x1000 % 0x40) as byte,
       (0x80 + n / 0x40 % 0x40) as byte, (0x80 + n % 0x40) as byte]
  }

  /** The UTF-8 encoding of a string, the bytes bcrypt reads. */
  function Utf8(s: string): (b: seq<byte>)
    ensures |b| >= |s|
  {
    if s == [] then [] else Utf8Char(s[0]) + Utf8(s[1..])
  }

  /** bcrypt keys its cipher with 72 bytes. */
  const KeyBytes: nat := 72

  /** The buffer bcryptjs keys from: the UTF-8 bytes with a NUL terminator appended. */
  function KeyBuffer(password: string): (b: seq<byte>)
    ensures |b| == |Utf8(password)| + 1 && b[|b| - 1] == 0
  {
    Utf8(password) + [0]
  }

  /**
   * The bytes bcrypt's key schedule reads: 72 bytes taken cyclically from
   * the buffer, so a long password is cut after 72 bytes and a short one is
   * repeated with its terminator.
   */
  function BcryptKey(password: string): (k: seq<byte>)
    ensures |k| == KeyBytes
  {
    var b := KeyBuffer(password);
    seq(KeyBytes, i requires 0 <= i < KeyBytes => b[i % |b|])
  }

  lemma ModBelow(i: nat, m: nat)
    requires i < m
    ensures i % m == i
  {
  }

  /** Before the buffer first wraps, the key is the buffer itself. */
  lemma KeyPrefix(password: string, i: nat)
    requires i < KeyBytes && i < |KeyBuffer(password)|
    ensures BcryptKey(password)[i] == KeyBuffer(password)[i]
  {
    ModBelow(i, |KeyBuffer(password)|);
  }

  /**
   * A bcrypt digest. Hashing is salted, so two hashes of one password differ
   * by their salt; the digest is kept symbolic, remembering the key bytes
   * `compare` needs to decide a match.
   */
  datatype PasswordHash = Bcrypt(salt: nat, key: seq<byte>)

  /** `bcryptjs.hash(password, 10)` with the salt drawn at random. */
  function Hash(password: string, salt: nat): PasswordHash {
    Bcrypt(salt, BcryptKey(password))
  }

  /** `bcryptjs.compare(password, hash)`. */
  predicate Compare(password: string, h: PasswordHash) {
    h.key == BcryptKey(password)
  }

  /**
   * A stored hash accepts the password it was made from, whatever the salt,
   * and accepts a candidate exactly when the two agree on their first 72 bytes.
   */
  lemma CompareHash(candidate: string, password: string, salt: nat)
    ensures Compare(password, Hash(password, salt))
    ensures Compare(candidate, Hash(password, salt)) <==> BcryptKey(candidate) == BcryptKey(password)
  {
  }

  predicate IsAscii(s: string) { forall i :: 0 <= i < |s| ==> s[i] as int < 0x80 }

  /** No character is U+0000, which would read as the terminator. */
  predicate NulFree(s: string) { forall i :: 0 <= i < |s| ==> s[i] != '\0' }

  /** An ASCII string encodes to one byte per character, each its code. */
  lemma {:induction false} AsciiUtf8(s: string)
    requires IsAscii(s)
    ensures |Utf8(s)| == |s|
    ensures forall i :: 0 <= i < |s| ==> Utf8(s)[i] as int == s[i] as int
  {
    if s != [] {
      assert IsAscii(s[1..]) by {
        forall i | 0 <= i < |s[1..]| ensures s[1..][i] as int < 0x80 {
          assert s[1..][i] == s[i + 1];
        }
      }
      AsciiUtf8(s[1..]);
      assert Utf8(s) == [s[0] as int as byte] + Utf8(s[1..]);
    }
  }

  /** A shorter NUL-free ASCII password's terminator meets a non-zero byte of the longer one. */
  lemma ShorterKeyDiffers(shorter: string, longer: string)
    requires IsAscii(shorter) && IsAscii(longer) && NulFree(longer)
    requires |shorter| < |longer| <= KeyBytes
    ensures BcryptKey(shorter) != BcryptKey(longer)
  {
    AsciiUtf8(shorter);
    AsciiUtf8(longer);
    var n := |shorter|;
    KeyPrefix(shorter, n);
    KeyPrefix(longer, n);
    assert KeyBuffer(longer)[n] == Utf8(longer)[n];
    assert longer[n] as int != 0;
  }

  /**
   * For NUL-free ASCII passwords of at most 72 characters, compare accepts
   * exactly the password that was hashed.
   */
  lemma ShortAsciiPasswordsCompareExactly(candidate: string, password: string, salt: nat)
    requires IsAscii(candidate) && IsAscii(password) && NulFree(candidate) && NulFree(password)
    requires |candidate| <= KeyBytes && |password| <= KeyBytes
    ensures Compare(candidate, Hash(password, salt)) <==> candidate == password
  {
    if Compare(candidate, Hash(password, salt)) {
      if |candidate| < |password| {
        ShorterKeyDiffers(candidate, password);
      } else if |password| < |candidate| {
        ShorterKeyDiffers(password, candidate);
      }
      AsciiUtf8(candidate);
      AsciiUtf8(password);
      forall i | 0 <= i < |candidate| ensures candidate[i] == password[i] {
        KeyPrefix(candidate, i);
        KeyPrefix(password, i);
        assert Utf8(candidate)[i] == KeyBuffer(candidate)[i];
        assert Utf8(password)[i] == KeyBuffer(password)[i];
      }
    }
  }

  /** Two long ASCII passwords that share their first 72 characters log in for each other. */
  lemma LongAsciiPasswordsCollide(candidate: string, password: string, salt: nat)
    requires IsAscii(candidate) && IsAscii(password)
    requires |candidate| >= KeyBytes && |password| >= KeyBytes
    requires candidate[..KeyBytes] == password[..KeyBytes]
    ensures Compare(candidate, Hash(password, salt))
  {
    AsciiUtf8(candidate);
    AsciiUtf8(password);
    forall i | 0 <= i < KeyBytes ensures BcryptKey(candidate)[i] == BcryptKey(password)[i] {
      KeyPrefix(candidate, i);
      KeyPrefix(password, i);
      assert candidate[..KeyBytes][i] == candidate[i];
      assert password[..KeyBytes][i] == password[i];
      assert KeyBuffer(candidate)[i] == Utf8(candidate)[i];
      assert KeyBuffer(password)[i] == Utf8(password)[i];
    }
  }

  /** 73 × 'a' and 72 × 'a' followed by 'b' are different passwords with one bcrypt key. */
  lemma TruncationExample(salt: nat)
    ensures var stored := seq(73, _ => 'a');
            var typed := seq(72, _ => 'a') + ['b'];
            stored != typed && Compare(typed, Hash(stored, salt))
  {
    var stored := seq(73, _ => 'a');
    var typed := seq(72, _ => 'a') + ['b'];
    assert typed[72] != stored[72];
    assert typed[..KeyBytes] == stored[..KeyBytes];
    LongAsciiPasswordsCollide(typed, stored, salt);
  }

  /** "a" and "a\0a" are different passwords with one bcrypt key: 61 00 61 00 … */
  lemma NulTerminatorExample(salt: nat)
    ensures "a" != "a\0a" && Compare("a\0a", Hash("a", salt))
  {
    var short, long := KeyBuffer("a"), KeyBuffer("a\0a");
    assert short == [0x61, 0];
    assert long == [0x61, 0, 0x61, 0];
    forall i | 0 <= i < KeyBytes ensures BcryptKey("a\0a")[i] == BcryptKey("a")[i] {
      assert long[i % 4] == short[i % 2];
    }
  }

  const SecondsPerWeek: nat := 7 * 24 * 60 * 60

  /**
   * The payload of a signed session token. `iat` and `exp` are JWT NumericDate
   * values (whole seconds); the signature is not represented.
   */
  datatype SessionToken = Session(userId: nat, iat: nat, exp: nat)

  /** The token issued at time `nowMs` (milliseconds) for a user: valid for seven days. */
  function IssueSession(userId: nat, nowMs: nat): (t: SessionToken)
    ensures t.userId == userId
    ensures t.exp == t.iat + SecondsPerWeek
    ensures t.iat * 1000 <= nowMs < t.iat * 1000 + 1000
  {
    Session(userId, nowMs / 1000, nowMs / 1000 + SecondsPerWeek)
  }
}
