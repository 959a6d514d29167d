/**
 * The Kotlin string operations the app relies on: `trim()`, `length`, `isEmpty()`
 * and `split(",")`. Strings are sequences of Unicode scalar values.
 */
module Text {

  /**
   * Kotlin's `Char.isWhitespace()` on the JVM: Java's `isWhitespace` or `isSpaceChar`,
   * that is the controls U+0009..U+000D and U+001C..U+001F plus every space, line and
   * paragraph separator (Unicode categories Zs, Zl, Zp).
   */
  predicate IsWhitespace(c: char) {
    ('\t' <= c <= '\r') || ('\U{1C}' <= c <= '\U{1F}') || c == ' ' || c == '\U{A0}'
    || c == '\U{1680}' || ('\U{2000}' <= c <= '\U{200A}') || c == '\U{2028}' || c == '\U{2029}'
    || c == '\U{202F}' || c == '\U{205F}' || c == '\U{3000}'
  }

  /** The number of whitespace characters `s` starts with. */
  function LeadingWhitespace(s: string): (k: nat)
    ensures k <= |s|
    ensures forall i :: 0 <= i < k ==> IsWhitespace(s[i])
    ensures k < |s| ==> !IsWhitespace(s[k])
  {
    if s != [] && IsWhitespace(s[0]) then 1 + LeadingWhitespace(s[1..]) else 0
  }

  /** The number of whitespace characters `s` ends with. */
  function TrailingWhitespace(s: string): (k: nat)
    ensures k <= |s|
    ensures forall i :: |s| - k <= i < |s| ==> IsWhitespace(s[i])
    ensures k < |s| ==> !IsWhitespace(s[|s| - k - 1])
  {
    if s != [] && IsWhitespace(s[|s| - 1]) then 1 + TrailingWhitespace(s[..|s| - 1]) else 0
  }

  /**
   * Kotlin's `String.trim()`: `s` without its leading and trailing whitespace. The result is
   * the slice of `s` that starts after the leading whitespace, and everything after it is
   * whitespace; it is empty exactly when `s` is all whitespace, and otherwise starts and ends
   * with a non-whitespace character.
   */
  function Trim(s: string): (r: string)
    ensures |r| <= |s|
    ensures var k := LeadingWhitespace(s);
            k + |r| <= |s| && r == s[k..k + |r|]
            && forall i :: k + |r| <= i < |s| ==> IsWhitespace(s[i])
    ensures r != [] ==> !IsWhitespace(r[0]) && !IsWhitespace(r[|r| - 1])
    ensures r == [] <==> forall i :: 0 <= i < |s| ==> IsWhitespace(s[i])
  {
    var k := LeadingWhitespace(s);
    var t := s[k..];
    var r := t[..|t| - TrailingWhitespace(t)];
    assert forall i :: k + |r| <= i < |s| ==> s[i] == t[i - k];
    r
  }

  /** A string with no whitespace at either end is its own trim. */
  lemma {:induction false} TrimOfTrimmed(s: string)
    requires s == [] || (!IsWhitespace(s[0]) && !IsWhitespace(s[|s| - 1]))
    ensures Trim(s) == s
  {
  }

  /** Trimming twice is trimming once. */
  lemma TrimIdempotent(s: string)
    ensures Trim(Trim(s)) == Trim(s)
  {
    TrimOfTrimmed(Trim(s));
  }

  /** The UTF-16 code unit of a character: one unit in the Basic Multilingual Plane, a surrogate pair above it. */
  function Utf16Units(c: char): (n: nat)
    ensures 1 <= n <= 2
  {
    if c as int < 0x1_0000 then 1 else 2
  }

  /**
   * Kotlin's `String.length`: the number of UTF-16 code units, so a character outside the
   * Basic Multilingual Plane counts twice. It is zero exactly for the empty string.
   */
  function Utf16Length(s: string): (n: nat)
    ensures |s| <= n <= 2 * |s|
    ensures n == 0 <==> s == []
    ensures (forall i :: 0 <= i < |s| ==> s[i] as int < 0x1_0000) ==> n == |s|
  {
    if s == [] then 0 else Utf16Units(s[0]) + Utf16Length(s[1..])
  }

  /** The number of occurrences of `d` in `s`. */
  function Count(s: string, d: char): (n: nat)
    ensures n <= |s|
    ensures n == 0 <==> d !in s
  {
    if s == [] then 0 else (if s[0] == d then 1 else 0) + Count(s[1..], d)
  }

  /**
   * Kotlin's `split(d)` with no limit: the pieces of `s` between occurrences of `d`, empty
   * pieces included; the empty string splits into one empty piece.
   */
  function Split(s: string, d: char): (parts: seq<string>)
    ensures |parts| == Count(s, d) + 1
    ensures forall p :: p in parts ==> d !in p
  {
    if s == [] then [[]]
    else
      var rest := Split(s[1..], d);
      if s[0] == d then [[]] + rest else [[s[0]] + rest[0]] + rest[1..]
  }

  /** `parts` joined with `d` between consecutive pieces (Kotlin's `joinToString(d)`). */
  function Join(parts: seq<string>, d: char): string
    requires |parts| >= 1
  {
    if |parts| == 1 then parts[0] else parts[0] + [d] + Join(parts[1..], d)
  }

  /** Joining the pieces of a split gives back the original string. */
  lemma {:induction false} JoinSplit(s: string, d: char)
    ensures Join(Split(s, d), d) == s
  {
    if s != [] {
      var rest := Split(s[1..], d);
      JoinSplit(s[1..], d);
      if s[0] == d {
        assert Split(s, d)[1..] == rest;
      } else if |rest| == 1 {
        assert Split(s, d) == [[s[0]] + rest[0]];
      } else {
        assert Split(s, d)[1..] == rest[1..];
        assert Join(rest, d) == rest[0] + [d] + Join(rest[1..], d);
      }
    }
  }

  /** Splitting pieces that do not contain `d`, once joined with `d`, gives back the pieces. */
  lemma {:induction false} SplitJoin(parts: seq<string>, d: char)
    requires |parts| >= 1
    requires forall p :: p in parts ==> d !in p
    ensures Split(Join(parts, d), d) == parts
  {
    if |parts| == 1 {
      SplitNoDelimiter(parts[0], d);
    } else {
      var tail := Join(parts[1..], d);
      SplitJoin(parts[1..], d);
      SplitPrefix(parts[0], tail, d);
      assert Join(parts, d) == parts[0] + ([d] + tail);
      assert [parts[0]] + parts[1..] == parts;
    }
  }

  /** A string without `d` splits into itself alone. */
  lemma {:induction false} SplitNoDelimiter(s: string, d: char)
    requires d !in s
    ensures Split(s, d) == [s]
  {
    if s != [] {
      assert d !in s[1..];
      SplitNoDelimiter(s[1..], d);
      assert [s[0]] + s[1..] == s;
    }
  }

  /** A `d`-free prefix, then `d`, then `t`: the prefix is the first piece and the rest is the split of `t`. */
  lemma {:induction false} SplitPrefix(a: string, t: string, d: char)
    requires d !in a
    ensures Split(a + ([d] + t), d) == [a] + Split(t, d)
  {
    var u := a + ([d] + t);
    if a != [] {
      assert u[0] == a[0] != d;
      assert u[1..] == a[1..] + ([d] + t);
      assert d !in a[1..];
      SplitPrefix(a[1..], t, d);
      var rest := Split(u[1..], d);
      assert rest == [a[1..]] + Split(t, d);
      assert Split(u, d) == [[a[0]] + rest[0]] + rest[1..];
      assert [a[0]] + a[1..] == a;
    } else {
      assert u == [d] + t && u[0] == d && u[1..] == t;
    }
  }
}
