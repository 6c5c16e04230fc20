/**
 * The string operations the pages rely on: `trim`, `toLowerCase`, `includes`
 * and the regular-expression test `/\S+@\S+\.\S+/.test(s)`.
 *
 * Whitespace and letter case are restricted to ASCII: `IsSpace` is the ASCII
 * part of JavaScript's white-space and line-terminator classes, and
 * `LowerChar` maps only `A`..`Z`.
 */
module Text {

  /** Space, tab, line feed, vertical tab, form feed and carriage return. */
  predicate IsSpace(c: char) {
    c == ' ' || '\t' <= c <= '\r'
  }

  /** A string with at least one character that is not whitespace. */
  predicate HasText(s: string) {
    exists i | 0 <= i < |s| :: !IsSpace(s[i])
  }

  // ----- trim -----

  /** `s.trimStart()` */
  function TrimStart(s: string): string {
    if s != [] && IsSpace(s[0]) then TrimStart(s[1..]) else s
  }

  /** `s.trimEnd()` */
  function TrimEnd(s: string): string {
    if s != [] && IsSpace(s[|s| - 1]) then TrimEnd(s[..|s| - 1]) else s
  }

  /** `s.trim()` */
  function Trim(s: string): string {
    TrimEnd(TrimStart(s))
  }

  /** `!s.trim()`: the trimmed string is empty, hence falsy. */
  predicate IsBlank(s: string) {
    Trim(s) == ""
  }

  /** `trimStart` removes exactly the whitespace prefix: it keeps a suffix that does not start with whitespace. */
  lemma {:induction false} TrimStartRemovesLeadingSpace(s: string)
    ensures var r := TrimStart(s);
      && |r| <= |s| && r == s[|s| - |r|..]
      && (r != [] ==> !IsSpace(r[0]))
      && forall i | 0 <= i < |s| - |r| :: IsSpace(s[i])
  {
    if s != [] && IsSpace(s[0]) {
      TrimStartRemovesLeadingSpace(s[1..]);
    }
  }

  /** `trimEnd` removes exactly the whitespace suffix: it keeps a prefix that does not end with whitespace. */
  lemma {:induction false} TrimEndRemovesTrailingSpace(s: string)
    ensures var r := TrimEnd(s);
      && |r| <= |s| && r == s[..|r|]
      && (r != [] ==> !IsSpace(r[|r| - 1]))
      && forall i | |r| <= i < |s| :: IsSpace(s[i])
  {
    if s != [] && IsSpace(s[|s| - 1]) {
      TrimEndRemovesTrailingSpace(s[..|s| - 1]);
    }
  }

  /** A string trims to nothing exactly when it consists of whitespace only. */
  lemma BlankIffNoText(s: string)
    ensures IsBlank(s) <==> !HasText(s)
  {
    TrimStartRemovesLeadingSpace(s);
    TrimEndRemovesTrailingSpace(TrimStart(s));
  }

  // ----- toLowerCase -----

  /** ASCII lower-casing of one character. */
  function LowerChar(c: char): (r: char)
    ensures !('A' <= r <= 'Z')
    ensures 'A' <= c <= 'Z' ==> r as int == c as int + 32
    ensures !('A' <= c <= 'Z') ==> r == c
  {
    if 'A' <= c <= 'Z' then (c as int + 32) as char else c
  }

  /** `s.toLowerCase()`, character by character. */
  function ToLower(s: string): (r: string)
    ensures |r| == |s|
    ensures forall i | 0 <= i < |s| :: r[i] == LowerChar(s[i])
  {
    seq(|s|, i requires 0 <= i < |s| => LowerChar(s[i]))
  }

  // ----- includes -----

  /** `hay.includes(needle)`: `needle` occurs in `hay` at some offset. */
  predicate Contains(hay: string, needle: string) {
    exists i | 0 <= i <= |hay| - |needle| :: OccursAt(hay, needle, i)
  }

  predicate OccursAt(hay: string, needle: string, i: int) {
    0 <= i <= |hay| - |needle| && hay[i..i + |needle|] == needle
  }

  // ----- the email test -----

  /** `s[i..j]` is a non-empty run of non-whitespace characters: one match of `\S+`. */
  predicate NonSpaceRun(s: string, i: int, j: int) {
    0 <= i < j <= |s| && forall k | i <= k < j :: !IsSpace(s[k])
  }

  /** `s[a..e]` matches `\S+@\S+\.\S+` with its `@` at `p` and its `.` at `q`. */
  predicate EmailMatchAt(s: string, a: int, p: int, q: int, e: int) {
    && NonSpaceRun(s, a, p)
    && NonSpaceRun(s, p + 1, q)
    && NonSpaceRun(s, q + 1, e)
    && s[p] == '@'
    && s[q] == '.'
  }

  /**
   * `/\S+@\S+\.\S+/.test(s)`: the pattern is not anchored, so it holds when
   * some substring of `s` matches it.
   */
  predicate MatchesEmailPattern(s: string) {
    exists a, p, q, e | 0 <= a < p < q < e <= |s| :: EmailMatchAt(s, a, p, q, e)
  }

  /**
   * The same test stated on a window of characters: an `@` at `p` and a `.`
   * at `q` with a non-whitespace character before the `@`, only
   * non-whitespace (at least one) between them, and a non-whitespace
   * character after the `.`.
   */
  predicate EmailShapeAt(s: string, p: int, q: int) {
    && 1 <= p && p + 1 < q && q + 1 < |s|
    && s[p] == '@' && s[q] == '.'
    && !IsSpace(s[p - 1])
    && (forall k | p < k < q :: !IsSpace(s[k]))
    && !IsSpace(s[q + 1])
  }

  predicate EmailShape(s: string) {
    exists p, q | 0 <= p < q < |s| :: EmailShapeAt(s, p, q)
  }

  /** The regular-expression test and the window characterisation agree on every string. */
  lemma EmailPatternIffShape(s: string)
    ensures MatchesEmailPattern(s) <==> EmailShape(s)
  {
    if MatchesEmailPattern(s) {
      var a, p, q, e :| 0 <= a < p < q < e <= |s| && EmailMatchAt(s, a, p, q, e);
      assert EmailShapeAt(s, p, q);
    }
    if EmailShape(s) {
      var p, q :| 0 <= p < q < |s| && EmailShapeAt(s, p, q);
      assert EmailMatchAt(s, p - 1, p, q, q + 2);
    }
  }
}
