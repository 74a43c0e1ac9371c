/**
 * The few functions of Go's `strings` package that the system relies on,
 * over `string == seq<char>`.
 */
module GoStrings {

  /** `strings.HasSuffix(s, suffix)`. */
  predicate HasSuffix(s: string, suffix: string) {
    |suffix| <= |s| && s[|s| - |suffix|..] == suffix
  }

  /** `pat` occurs in `s` starting at index `i`. */
  predicate OccursAt(s: string, pat: string, i: nat) {
    i + |pat| <= |s| && s[i..i + |pat|] == pat
  }

  /** `strings.Contains(s, pat)`. */
  ghost predicate Contains(s: string, pat: string) {
    exists i: nat :: OccursAt(s, pat, i)
  }

  /**
   * `strings.TrimRight(s, cutset)` for a one-character cutset: drops every
   * trailing `c`.
   */
  function TrimRight(s: string, c: char): (r: string)
    ensures |r| <= |s| && r == s[..|r|]
    ensures r == [] || r[|r| - 1] != c
    ensures forall i :: |r| <= i < |s| ==> s[i] == c
  {
    if s != [] && s[|s| - 1] == c then TrimRight(s[..|s| - 1], c) else s
  }

  /**
   * `strings.Replace(s, pat, rep, 1)` for a non-empty `pat`: the first
   * occurrence of `pat`, if any, becomes `rep`.
   */
  function ReplaceFirst(s: string, pat: string, rep: string): string
    requires pat != []
    decreases |s|
  {
    if |s| < |pat| then s
    else if s[..|pat|] == pat then rep + s[|pat|..]
    else [s[0]] + ReplaceFirst(s[1..], pat, rep)
  }

  /** Trimming the end of `a + b` reaches into `a` only when all of `b` is trimmed. */
  lemma {:induction false} TrimRightAppend(a: string, b: string, c: char)
    ensures TrimRight(a + b, c) == if TrimRight(b, c) == [] then TrimRight(a, c) else a + TrimRight(b, c)
  {
    if b != [] {
      var init := b[..|b| - 1];
      assert (a + b)[..|a + b| - 1] == a + init;
      if b[|b| - 1] == c {
        TrimRightAppend(a, init, c);
      }
    } else {
      assert a + b == a;
    }
  }

  /** A string without `c` is left as it is. */
  lemma TrimRightWithout(s: string, c: char)
    requires forall i :: 0 <= i < |s| ==> s[i] != c
    ensures TrimRight(s, c) == s
  {
  }
}
