/** The few operations of Go's `strings` and `unicode` packages that the scanner relies on,
    over Dafny strings (sequences of Unicode scalar values, i.e. Go runes). */
module GoStrings {

  /** strings.Contains: `sub` occurs somewhere in `s` (the empty string occurs everywhere). */
  predicate Contains(s: string, sub: string) {
    exists i | 0 <= i <= |s| :: sub <= s[i..]
  }

  /** strings.TrimPrefix: drop `prefix` from the front of `s` when it is there. */
  function TrimPrefix(s: string, prefix: string): (r: string)
    ensures prefix <= s ==> prefix + r == s
    ensures !(prefix <= s) ==> r == s
  {
    if prefix <= s then s[|prefix|..] else s
  }

  /** A position as the scanner prints it: relative to the root directory when it lies under it. */
  function RelativePosition(pos: string, root: string, separator: char): (r: string)
    ensures root + [separator] <= pos ==> root + [separator] + r == pos
    ensures !(root + [separator] <= pos) ==> r == pos
  {
    TrimPrefix(pos, root + [separator])
  }

  /** unicode.IsLower, restricted to the ASCII letters. */
  predicate IsLower(c: char) {
    'a' <= c <= 'z'
  }

  /** Substring occurrence is transitive. */
  lemma {:induction false} ContainsTransitive(s: string, mid: string, sub: string)
    requires Contains(s, mid) && Contains(mid, sub)
    ensures Contains(s, sub)
  {
    var i :| 0 <= i <= |s| && mid <= s[i..];
    var j :| 0 <= j <= |mid| && sub <= mid[j..];
    forall k | 0 <= k < |sub|
      ensures s[i + j + k] == sub[k]
    {
      assert sub[k] == mid[j + k];
      assert mid[j + k] == s[i + j + k];
    }
    assert sub <= s[i + j..];
  }

  /** A string that occurs at index `i` of `s` is contained in `s`. */
  lemma OccursAt(s: string, sub: string, i: nat)
    requires i + |sub| <= |s| && s[i..i + |sub|] == sub
    ensures Contains(s, sub)
  {
    assert sub <= s[i..];
  }

  /** The number of characters after the last dot of `s` (all of `s` when it holds no dot). */
  function DotFreeSuffixLength(s: string): (n: nat)
    ensures n <= |s|
  {
    if s == [] || s[|s| - 1] == '.' then 0 else 1 + DotFreeSuffixLength(s[..|s| - 1])
  }

  /** In `left + "." + right`, with no dot in `right`, the part after the last dot is `right`. */
  lemma {:induction false} DotFreeSuffixOfJoin(left: string, right: string)
    requires '.' !in right
    ensures DotFreeSuffixLength(left + "." + right) == |right|
  {
    var s := left + "." + right;
    if right != [] {
      assert s[..|s| - 1] == left + "." + right[..|right| - 1];
      DotFreeSuffixOfJoin(left, right[..|right| - 1]);
    }
  }

  /** A key `left + "." + right` splits back into its halves when neither right half holds a dot:
      two such keys are equal only if their halves are. */
  lemma DotJoinInjective(a: string, b: string, c: string, d: string)
    requires '.' !in b && '.' !in d
    requires a + "." + b == c + "." + d
    ensures a == c && b == d
  {
    var s := a + "." + b;
    DotFreeSuffixOfJoin(a, b);
    DotFreeSuffixOfJoin(c, d);
    assert |b| == |d|;
    assert a == s[..|a|] == c;
    assert b == s[|a| + 1..] == d;
  }
}
