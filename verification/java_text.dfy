/**
 * The few java.lang.String operations the application's logic relies on,
 * with Java's own edge cases: `trim` strips every character up to U+0020,
 * `indexOf`/`lastIndexOf` answer -1 when the character is absent, and
 * `split` with a one-character pattern drops trailing empty pieces but
 * answers the whole string when the pattern does not occur at all.
 * A Java `char` is modelled as one Dafny `char`, so lengths count Unicode
 * scalar values where Java counts UTF-16 units: a character outside the
 * Basic Multilingual Plane is one here and two in Java.
 */
module JavaText {

  /** Characters String.trim removes from both ends: every code point up to U+0020. */
  predicate IsTrimmable(c: char) { c <= ' ' }

  /** Line terminators, which the regular-expression `.` does not match. */
  predicate IsLineTerminator(c: char)
  {
    c == '\n' || c == '\r' || c == '\U{0085}' || c == '\U{2028}' || c == '\U{2029}'
  }

  predicate NoLineTerminator(s: string)
  {
    forall i :: 0 <= i < |s| ==> !IsLineTerminator(s[i])
  }

  predicate StartsWith(s: string, prefix: string)
  {
    |prefix| <= |s| && s[..|prefix|] == prefix
  }

  predicate EndsWith(s: string, suffix: string)
  {
    |suffix| <= |s| && s[|s| - |suffix|..] == suffix
  }

  /** Some entry of `prefixes` is a prefix of `s`. */
  predicate StartsWithAny(s: string, prefixes: seq<string>)
  {
    exists i :: 0 <= i < |prefixes| && StartsWith(s, prefixes[i])
  }

  /** `t` occurs in `s` starting at position `i`. */
  predicate OccursAt(s: string, t: string, i: int)
  {
    0 <= i && i + |t| <= |s| && s[i..i + |t|] == t
  }

  /** String.contains: `t` occurs somewhere in `s`. */
  predicate Contains(s: string, t: string)
  {
    exists i :: 0 <= i <= |s| - |t| && OccursAt(s, t, i)
  }

  lemma StartsWithContains(s: string, t: string)
    requires StartsWith(s, t)
    ensures Contains(s, t)
  {
    assert OccursAt(s, t, 0);
  }

  function TrimLeading(s: string): (r: string)
    ensures |r| <= |s| && r == s[|s| - |r|..]
    ensures r == [] || !IsTrimmable(r[0])
    ensures forall i :: 0 <= i < |s| - |r| ==> IsTrimmable(s[i])
    decreases |s|
  {
    if s != [] && IsTrimmable(s[0]) then TrimLeading(s[1..]) else s
  }

  function TrimTrailing(s: string): (r: string)
    ensures |r| <= |s| && r == s[..|r|]
    ensures r == [] || !IsTrimmable(r[|r| - 1])
    ensures forall i :: |r| <= i < |s| ==> IsTrimmable(s[i])
    decreases |s|
  {
    if s != [] && IsTrimmable(s[|s| - 1]) then TrimTrailing(s[..|s| - 1]) else s
  }

  /**
   * String.trim: the longest infix of `s` that neither starts nor ends with
   * a trimmable character; everything cut off on either side is trimmable.
   */
  function Trim(s: string): (r: string)
    ensures exists a :: TrimmedAt(s, r, a)
    ensures r == [] || (!IsTrimmable(r[0]) && !IsTrimmable(r[|r| - 1]))
  {
    var t := TrimLeading(s);
    var r := TrimTrailing(t);
    var a := |s| - |t|;
    assert r == s[a..a + |r|];
    assert TrimmedAt(s, r, a);
    r
  }

  /** `r` is the infix of `s` at `a`, and everything around it is trimmable. */
  predicate TrimmedAt(s: string, r: string, a: int)
  {
    0 <= a && a + |r| <= |s| && r == s[a..a + |r|]
    && (forall i :: 0 <= i < a ==> IsTrimmable(s[i]))
    && (forall i :: a + |r| <= i < |s| ==> IsTrimmable(s[i]))
  }

  /** String.indexOf(char): the first position of `c`, or -1. */
  function IndexOf(s: string, c: char): (r: int)
    ensures -1 <= r < |s|
    ensures r == -1 <==> c !in s
    ensures r >= 0 ==> s[r] == c && forall j :: 0 <= j < r ==> s[j] != c
    decreases |s|
  {
    if s == [] then -1
    else if s[0] == c then 0
    else
      var k := IndexOf(s[1..], c);
      if k < 0 then -1 else k + 1
  }

  lemma IndexOfIsFirst(s: string, c: char, k: int)
    requires 0 <= k < |s| && s[k] == c
    requires forall j :: 0 <= j < k ==> s[j] != c
    ensures IndexOf(s, c) == k
  {
  }

  /** String.lastIndexOf(char): the last position of `c`, or -1. */
  function LastIndexOf(s: string, c: char): (r: int)
    ensures -1 <= r < |s|
    ensures r == -1 <==> c !in s
    ensures r >= 0 ==> s[r] == c && forall j :: r < j < |s| ==> s[j] != c
    decreases |s|
  {
    if s == [] then -1
    else if s[|s| - 1] == c then |s| - 1
    else
      var init := s[..|s| - 1];
      assert s == init + [s[|s| - 1]];
      LastIndexOf(init, c)
  }

  /** String.replace(x, "") for a one-character x: every occurrence of `c` removed, order kept. */
  function RemoveAll(s: string, c: char): (r: string)
    ensures c !in r
    ensures multiset(r) == multiset(s)[c := 0]
    ensures c !in s ==> r == s
    decreases |s|
  {
    if s == [] then []
    else
      assert s == [s[0]] + s[1..];
      (if s[0] == c then [] else [s[0]]) + RemoveAll(s[1..], c)
  }

  /** The ASCII part of String.toUpperCase. */
  function UpperAscii(s: string): (r: string)
    ensures |r| == |s|
    ensures forall i :: 0 <= i < |s| ==> r[i] == if 'a' <= s[i] <= 'z' then (s[i] as int - 32) as char else s[i]
  {
    seq(|s|, i requires 0 <= i < |s| => if 'a' <= s[i] <= 'z' then (s[i] as int - 32) as char else s[i])
  }

  /** Every piece of `s` between occurrences of `d`, trailing empty pieces included. */
  function Pieces(s: string, d: char): (r: seq<string>)
    ensures |r| >= 1
    ensures forall i :: 0 <= i < |r| ==> d !in r[i]
    decreases |s|
  {
    var k := IndexOf(s, d);
    if k < 0 then [s] else [s[..k]] + Pieces(s[k + 1..], d)
  }

  /** The pieces joined back with `d` between them (String.join). */
  function Join(parts: seq<string>, d: char): string
    decreases |parts|
  {
    if parts == [] then ""
    else if |parts| == 1 then parts[0]
    else parts[0] + [d] + Join(parts[1..], d)
  }

  lemma {:induction false} JoinPieces(s: string, d: char)
    ensures Join(Pieces(s, d), d) == s
    decreases |s|
  {
    var k := IndexOf(s, d);
    if k >= 0 {
      var rest := Pieces(s[k + 1..], d);
      JoinPieces(s[k + 1..], d);
      JoinCons(s[..k], rest, d);
      assert s == s[..k] + [d] + s[k + 1..];
    }
  }

  lemma JoinCons(x: string, rest: seq<string>, d: char)
    requires |rest| >= 1
    ensures Join([x] + rest, d) == x + [d] + Join(rest, d)
  {
    assert ([x] + rest)[1..] == rest;
  }

  /** A delimiter-free first piece splits off at the first delimiter. */
  lemma PiecesCons(x: string, rest: string, d: char)
    requires d !in x
    ensures Pieces(x + [d] + rest, d) == [x] + Pieces(rest, d)
  {
    var s := x + [d] + rest;
    var k := |x|;
    assert forall j :: 0 <= j < k ==> s[j] == x[j];
    IndexOfIsFirst(s, d, k);
    assert s[..k] == x && s[k + 1..] == rest;
  }

  lemma {:induction false} PiecesJoin(parts: seq<string>, d: char)
    requires |parts| >= 1
    requires forall i :: 0 <= i < |parts| ==> d !in parts[i]
    ensures Pieces(Join(parts, d), d) == parts
    decreases |parts|
  {
    if |parts| > 1 {
      var tail := parts[1..];
      assert forall i :: 0 <= i < |tail| ==> d !in tail[i] by {
        forall i | 0 <= i < |tail| ensures d !in tail[i] {
          assert tail[i] == parts[i + 1];
        }
      }
      PiecesJoin(tail, d);
      assert d !in parts[0];
      PiecesCons(parts[0], Join(tail, d), d);
      assert parts == [parts[0]] + tail;
    }
  }

  /** Drops the empty pieces at the end, as String.split does. */
  function DropTrailingEmpty(parts: seq<string>): (r: seq<string>)
    ensures |r| <= |parts| && r == parts[..|r|]
    ensures r == [] || r[|r| - 1] != ""
    ensures forall i :: |r| <= i < |parts| ==> parts[i] == ""
    decreases |parts|
  {
    if parts != [] && parts[|parts| - 1] == "" then DropTrailingEmpty(parts[..|parts| - 1]) else parts
  }

  /**
   * String.split with a pattern of one ordinary character: the whole string
   * when `d` does not occur (so "" splits to [""]), otherwise the pieces
   * with the trailing empty ones removed (so ":" splits to []).
   */
  function Split(s: string, d: char): (r: seq<string>)
    ensures forall i :: 0 <= i < |r| ==> d !in r[i]
    ensures d !in s ==> r == [s]
    ensures d in s ==> |r| <= |Pieces(s, d)| && r == Pieces(s, d)[..|r|]
    ensures d in s ==> forall i :: |r| <= i < |Pieces(s, d)| ==> Pieces(s, d)[i] == ""
  {
    if d !in s then [s] else DropTrailingEmpty(Pieces(s, d))
  }

  /** `n` copies of `c`. */
  function Repeat(c: char, n: nat): (r: string)
    ensures |r| == n && forall i :: 0 <= i < n ==> r[i] == c
  {
    seq(n, _ => c)
  }

  /** `n` empty strings. */
  function Empties(n: nat): (r: seq<string>)
    ensures |r| == n && forall i :: 0 <= i < n ==> r[i] == ""
  {
    seq(n, _ => "")
  }

  lemma {:induction false} JoinSnoc(parts: seq<string>, x: string, d: char)
    requires |parts| >= 1
    ensures Join(parts + [x], d) == Join(parts, d) + [d] + x
    decreases |parts|
  {
    if |parts| > 1 {
      assert (parts + [x])[1..] == parts[1..] + [x];
      JoinSnoc(parts[1..], x, d);
    }
  }

  /** Empty pieces at the end join back as that many delimiters. */
  lemma {:induction false} JoinEmpties(parts: seq<string>, n: nat, d: char)
    requires |parts| >= 1
    ensures Join(parts + Empties(n), d) == Join(parts, d) + Repeat(d, n)
    decreases n
  {
    if n > 0 {
      assert parts + Empties(n) == (parts + Empties(n - 1)) + [""];
      JoinSnoc(parts + Empties(n - 1), "", d);
      JoinEmpties(parts, n - 1, d);
      assert Repeat(d, n) == Repeat(d, n - 1) + [d];
    } else {
      assert parts + Empties(0) == parts && Repeat(d, 0) == "";
    }
  }

  lemma {:induction false} DropEmpties(parts: seq<string>, n: nat)
    requires |parts| >= 1 && parts[|parts| - 1] != ""
    ensures DropTrailingEmpty(parts + Empties(n)) == parts
    decreases n
  {
    if n > 0 {
      assert (parts + Empties(n))[..|parts| + n - 1] == parts + Empties(n - 1);
      DropEmpties(parts, n - 1);
    } else {
      assert parts + Empties(0) == parts;
    }
  }

  /**
   * What split throws away: a string that splits into at least one piece
   * is those pieces joined back, followed by nothing but delimiters.
   */
  lemma SplitRejoin(s: string, d: char)
    requires |Split(s, d)| >= 1
    ensures var r := Split(s, d);
            |Join(r, d)| <= |s| && s == Join(r, d) + Repeat(d, |s| - |Join(r, d)|)
  {
    var r := Split(s, d);
    if d in s {
      var ps := Pieces(s, d);
      var m := |ps| - |r|;
      assert ps == r + Empties(m);
      JoinPieces(s, d);
      JoinEmpties(r, m, d);
    } else {
      assert Join(r, d) == s;
    }
  }

  /**
   * The converse: pieces free of `d` whose last one is non-empty, joined
   * and followed by any number of delimiters, split back into themselves.
   */
  lemma SplitJoin(parts: seq<string>, n: nat, d: char)
    requires |parts| >= 2 || (|parts| == 1 && n >= 1)
    requires parts[|parts| - 1] != ""
    requires forall i :: 0 <= i < |parts| ==> d !in parts[i]
    ensures Split(Join(parts, d) + Repeat(d, n), d) == parts
  {
    var all := parts + Empties(n);
    JoinEmpties(parts, n, d);
    PiecesJoin(all, d);
    DropEmpties(parts, n);
    var s := Join(parts, d) + Repeat(d, n);
    if |parts| >= 2 {
      assert Join(parts, d) == parts[0] + [d] + Join(parts[1..], d);
      assert s[|parts[0]|] == d;
    } else {
      assert s[|parts[0]|] == d;
    }
  }

  predicate IsDigit(c: char) { '0' <= c <= '9' }

  /** String.valueOf(int) as string concatenation renders it: decimal digits, '-' first when negative. */
  function DecimalString(n: int): (r: string)
    ensures |r| >= 1
    ensures n >= 0 ==> forall i :: 0 <= i < |r| ==> IsDigit(r[i])
    ensures n < 0 ==> r[0] == '-'
    decreases if n < 0 then 1 - n else n
  {
    if n < 0 then "-" + DecimalString(-n)
    else if n < 10 then [('0' as int + n) as char]
    else DecimalString(n / 10) + DecimalString(n % 10)
  }

  /** The value a string of decimal digits denotes. */
  function DigitsValue(s: string): int
    decreases |s|
  {
    if s == [] then 0 else 10 * DigitsValue(s[..|s| - 1]) + (s[|s| - 1] as int - '0' as int)
  }

  lemma DigitsValueAppend(a: string, c: char)
    ensures DigitsValue(a + [c]) == 10 * DigitsValue(a) + (c as int - '0' as int)
  {
    assert (a + [c])[..|a|] == a;
  }

  /** Reading the decimal rendering of a non-negative number gives the number back. */
  lemma {:induction false} DecimalStringValue(n: int)
    requires n >= 0
    ensures DigitsValue(DecimalString(n)) == n
    decreases n
  {
    if n >= 10 {
      DecimalStringValue(n / 10);
      var last := DecimalString(n % 10);
      assert |last| == 1;
      DigitsValueAppend(DecimalString(n / 10), last[0]);
      assert DecimalString(n / 10) + [last[0]] == DecimalString(n);
    } else {
      DigitsValueAppend([], DecimalString(n)[0]);
      assert [] + [DecimalString(n)[0]] == DecimalString(n);
    }
  }
}
