/**
 * The checks the service-layer validators share. The email pattern
 * `^[A-Za-z0-9+_.-]+@(.+)$`, applied with String.matches to the whole
 * string, accepts a non-empty run of the allowed characters, an '@', and a
 * non-empty rest of any characters but line terminators (the rest may hold
 * further '@' signs).
 */
module Validators {
  import JavaText

  /** The characters of `[A-Za-z0-9+_.-]`. */
  predicate IsLocalChar(c: char)
  {
    ('A' <= c <= 'Z') || ('a' <= c <= 'z') || ('0' <= c <= '9') || c == '+' || c == '_' || c == '.' || c == '-'
  }

  /** The regular expression matches `s` with its '@' at position `k`. */
  predicate MatchesAt(s: string, k: int)
  {
    0 < k && k + 1 < |s| && s[k] == '@'
    && (forall i :: 0 <= i < k ==> IsLocalChar(s[i]))
    && JavaText.NoLineTerminator(s[k + 1..])
  }

  /**
   * The decision as a scan: since '@' is not an allowed character, the
   * pattern's '@' can only be the first one in the string.
   */
  predicate IsValidEmail(s: string)
    ensures IsValidEmail(s) <==> exists k :: MatchesAt(s, k)
  {
    IsValidEmailIff(s);
    MatchesAt(s, JavaText.IndexOf(s, '@'))
  }

  /** Testing the first '@' alone accepts exactly the strings the pattern matches at some '@'. */
  lemma IsValidEmailIff(s: string)
    ensures MatchesAt(s, JavaText.IndexOf(s, '@')) <==> exists k :: MatchesAt(s, k)
  {
    if exists j :: MatchesAt(s, j) {
      var j :| MatchesAt(s, j);
      assert forall i :: 0 <= i < j ==> s[i] != '@' by {
        forall i | 0 <= i < j ensures s[i] != '@' {
          assert IsLocalChar(s[i]);
        }
      }
      JavaText.IndexOfIsFirst(s, '@', j);
    }
  }

  /** Three strings the pattern accepts or refuses, for the record. */
  lemma EmailExamples()
    ensures IsValidEmail("a@b")
    ensures !IsValidEmail("@b")
    ensures !IsValidEmail("a@")
    ensures IsValidEmail("a@b@c")
    ensures !IsValidEmail("a b@c")
  {
    assert JavaText.IndexOf("a@b", '@') == 1;
    assert JavaText.IndexOf("@b", '@') == 0;
    assert JavaText.IndexOf("a@", '@') == 1;
    assert JavaText.IndexOf("a@b@c", '@') == 1;
    assert !IsLocalChar("a b@c"[1]);
  }
}
