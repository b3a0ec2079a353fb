/**
 * PasswordUtils: the password policy and the salted-hash format
 * "<base64 salt>:<base64 digest>". The random salt, the SHA-256 digest
 * and the Base64 codec are not modelled: the salt is a parameter and the
 * codec and digest are function parameters, so every statement here holds
 * for any deterministic choice of them.
 */
module PasswordUtils {
  import opened Wrappers
  import JavaText

  type Bytes = seq<bv8>

  const SALT_LENGTH := 16
  const DELIMITER := ':'

  predicate IsAsciiLetter(c: char)
  {
    ('A' <= c <= 'Z') || ('a' <= c <= 'z')
  }

  /**
   * String.matches(".*[class].*"): the whole string must match, and `.`
   * matches no line terminator, so the string needs one character of the
   * class and no line terminator anywhere.
   */
  predicate MatchesLetterPattern(s: string)
  {
    JavaText.NoLineTerminator(s) && exists i :: 0 <= i < |s| && IsAsciiLetter(s[i])
  }

  /** The same for `.*\d.*`; without UNICODE_CHARACTER_CLASS `\d` is [0-9]. */
  predicate MatchesDigitPattern(s: string)
  {
    JavaText.NoLineTerminator(s) && exists i :: 0 <= i < |s| && JavaText.IsDigit(s[i])
  }

  /** isValidPassword: non-null, at least 8 characters, a letter and a digit. */
  predicate IsValidPassword(password: Option<string>)
    ensures IsValidPassword(password) <==>
              && password.Some? && |password.value| >= 8 && JavaText.NoLineTerminator(password.value)
              && (exists i :: 0 <= i < |password.value| && IsAsciiLetter(password.value[i]))
              && (exists i :: 0 <= i < |password.value| && JavaText.IsDigit(password.value[i]))
  {
    password.Some? && |password.value| >= 8
    && MatchesLetterPattern(password.value) && MatchesDigitPattern(password.value)
  }

  /** What the policy accepts and refuses, on five passwords. */
  lemma PolicyExamples()
    ensures IsValidPassword(Some("password1"))
    ensures !IsValidPassword(Some("password"))
    ensures !IsValidPassword(Some("12345678"))
    ensures !IsValidPassword(Some("a1"))
    ensures !IsValidPassword(Some("abcd\n1234"))
    ensures !IsValidPassword(None)
  {
    assert IsAsciiLetter("password1"[0]) && JavaText.IsDigit("password1"[8]);
    assert JavaText.IsLineTerminator("abcd\n1234"[4]);
  }

  /** hashPassword: the encoded salt, the delimiter, the encoded digest of salt and password. */
  function HashPassword(password: string, salt: Bytes, encode: Bytes -> string, digest: (Bytes, string) -> Bytes): (h: string)
    ensures JavaText.StartsWith(h, encode(salt) + [DELIMITER])
    ensures JavaText.EndsWith(h, encode(digest(salt, password)))
  {
    encode(salt) + [DELIMITER] + encode(digest(salt, password))
  }

  /**
   * verifyPassword: splits the stored hash on ':' (String.split, which
   * drops trailing empty pieces), refuses anything but two pieces, decodes
   * the salt (a decoding failure is caught and answers false) and compares
   * the encoded digest with the second piece.
   */
  predicate VerifyPassword(password: string, stored: string, decode: string -> Option<Bytes>,
                           encode: Bytes -> string, digest: (Bytes, string) -> Bytes)
    ensures VerifyPassword(password, stored, decode, encode, digest) ==> DELIMITER in stored
  {
    var parts := JavaText.Split(stored, DELIMITER);
    |parts| == 2
    && decode(parts[0]).Some?
    && encode(digest(decode(parts[0]).value, password)) == parts[1]
  }

  /** The stored hashes verifyPassword accepts for a password, as a shape. */
  predicate AcceptedShape(password: string, stored: string, salt: string, hash: string, n: nat,
                          decode: string -> Option<Bytes>, encode: Bytes -> string, digest: (Bytes, string) -> Bytes)
  {
    && stored == salt + [DELIMITER] + hash + JavaText.Repeat(DELIMITER, n)
    && DELIMITER !in salt && DELIMITER !in hash && hash != ""
    && decode(salt).Some? && encode(digest(decode(salt).value, password)) == hash
  }

  /**
   * verifyPassword accepts exactly the strings made of a decodable salt,
   * ':', the matching non-empty digest, and any number of further ':'
   * (the trailing ones are dropped by split and never looked at).
   */
  lemma VerifyIff(password: string, stored: string, decode: string -> Option<Bytes>,
                  encode: Bytes -> string, digest: (Bytes, string) -> Bytes)
    ensures VerifyPassword(password, stored, decode, encode, digest) <==>
              exists salt, hash, n :: AcceptedShape(password, stored, salt, hash, n, decode, encode, digest)
  {
    var parts := JavaText.Split(stored, DELIMITER);
    if VerifyPassword(password, stored, decode, encode, digest) {
      JavaText.SplitRejoin(stored, DELIMITER);
      var joined := JavaText.Join(parts, DELIMITER);
      assert joined == parts[0] + [DELIMITER] + parts[1] by {
        assert JavaText.Join(parts[1..], DELIMITER) == parts[1];
      }
      assert AcceptedShape(password, stored, parts[0], parts[1], |stored| - |joined|, decode, encode, digest);
    }
    if exists salt, hash, n :: AcceptedShape(password, stored, salt, hash, n, decode, encode, digest) {
      var salt, hash, n :| AcceptedShape(password, stored, salt, hash, n, decode, encode, digest);
      assert JavaText.Join([salt, hash], DELIMITER) == salt + [DELIMITER] + hash by {
        assert JavaText.Join([salt, hash][1..], DELIMITER) == hash;
      }
      JavaText.SplitJoin([salt, hash], n, DELIMITER);
    }
  }

  /**
   * A password verifies against its own hash whenever the codec inverts
   * on the salt and never writes ':' and the encoded digest is non-empty
   * (all true of Base64 and SHA-256).
   */
  lemma VerifyOwnHash(password: string, salt: Bytes, decode: string -> Option<Bytes>,
                      encode: Bytes -> string, digest: (Bytes, string) -> Bytes)
    requires decode(encode(salt)) == Some(salt)
    requires DELIMITER !in encode(salt) && DELIMITER !in encode(digest(salt, password))
    requires encode(digest(salt, password)) != ""
    ensures VerifyPassword(password, HashPassword(password, salt, encode, digest), decode, encode, digest)
  {
    var h := HashPassword(password, salt, encode, digest);
    assert h == encode(salt) + [DELIMITER] + encode(digest(salt, password)) + JavaText.Repeat(DELIMITER, 0);
    assert AcceptedShape(password, h, encode(salt), encode(digest(salt, password)), 0, decode, encode, digest);
    VerifyIff(password, h, decode, encode, digest);
  }
}
