/** The few Python string operations the modelled code relies on:
    `str.startswith`, `str.split("\n")[0]` and `str.strip()`. */
module Text {

  /** Python's `s.startswith(p)`. */
  predicate StartsWith(s: string, p: string) {
    |p| <= |s| && s[..|p|] == p
  }

  /** Python's `str.isspace()` for one character: the ASCII whitespace and
      separator controls and the Unicode space characters. */
  predicate IsSpace(c: char) {
    var n := c as int;
    || (0x09 <= n <= 0x0D) || (0x1C <= n <= 0x20) || n == 0x85 || n == 0xA0 || n == 0x1680
    || (0x2000 <= n <= 0x200A) || n == 0x2028 || n == 0x2029 || n == 0x202F || n == 0x205F || n == 0x3000
  }

  /** `s.split("\n")[0]`: everything before the first line feed. */
  function FirstLine(s: string): (r: string)
    ensures |r| <= |s| && r == s[..|r|]
    ensures forall k :: 0 <= k < |r| ==> r[k] != '\n'
    ensures |r| < |s| ==> s[|r|] == '\n'
  {
    if |s| == 0 || s[0] == '\n' then "" else [s[0]] + FirstLine(s[1..])
  }

  /** The first line of `u + "\n" + t` is `u` whenever `u` holds no line feed. */
  lemma {:induction false} FirstLineOfJoin(u: string, t: string)
    requires forall k :: 0 <= k < |u| ==> u[k] != '\n'
    ensures FirstLine(u + "\n" + t) == u
    decreases |u|
  {
    var s := u + "\n" + t;
    if |u| > 0 {
      assert s[0] == u[0];
      assert s[1..] == u[1..] + "\n" + t;
      FirstLineOfJoin(u[1..], t);
      assert [u[0]] + u[1..] == u;
    }
  }

  /** `a` opens `a + b`, and what follows it is `b`. */
  lemma SplitJoin(a: string, b: string)
    ensures StartsWith(a + b, a) && (a + b)[|a|..] == b
  {
  }

  /** `r` sits at index `i` of `s` with only whitespace before and after it. */
  ghost predicate FramedBySpace(s: string, r: string, i: int) {
    && 0 <= i <= |s| - |r|
    && s[i..i + |r|] == r
    && (forall k :: 0 <= k < i ==> IsSpace(s[k]))
    && (forall k :: i + |r| <= k < |s| ==> IsSpace(s[k]))
  }

  /** The index of the first non-space character of `s` at or after `from`,
      or `|s|` when there is none: where a left strip from `from` stops. */
  function SpaceRunEnd(s: string, from: nat): (n: nat)
    requires from <= |s|
    ensures from <= n <= |s|
    ensures forall k :: from <= k < n ==> IsSpace(s[k])
    ensures n < |s| ==> !IsSpace(s[n])
    decreases |s| - from
  {
    if from < |s| && IsSpace(s[from]) then SpaceRunEnd(s, from + 1) else from
  }

  /** The index just past the last non-space character of `s[lo..hi]`, or
      `lo` when there is none: where a right strip down to `lo` stops. */
  function SpaceRunStart(s: string, lo: nat, hi: nat): (n: nat)
    requires lo <= hi <= |s|
    ensures lo <= n <= hi
    ensures forall k :: n <= k < hi ==> IsSpace(s[k])
    ensures n > lo ==> !IsSpace(s[n - 1])
    decreases hi
  {
    if lo < hi && IsSpace(s[hi - 1]) then SpaceRunStart(s, lo, hi - 1) else hi
  }

  /** `s.strip()`: the input with its whitespace margins removed, and only
      them; an all-space input strips to the empty string. */
  function Strip(s: string): (r: string)
    ensures FramedBySpace(s, r, SpaceRunEnd(s, 0))
    ensures |r| > 0 ==> !IsSpace(r[0]) && !IsSpace(r[|r| - 1])
  {
    var i := SpaceRunEnd(s, 0);
    s[i..SpaceRunStart(s, i, |s|)]
  }

  /** Conversely, a text that neither starts nor ends with whitespace and
      sits in `s` with only whitespace around it is what stripping `s` gives. */
  lemma StripOfFramed(s: string, r: string, i: int)
    requires FramedBySpace(s, r, i)
    requires |r| > 0 && !IsSpace(r[0]) && !IsSpace(r[|r| - 1])
    ensures Strip(s) == r
  {
  }
}
