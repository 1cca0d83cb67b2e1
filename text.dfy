/** String helpers standing in for the Python `str` methods the source calls. */
module Text {

  /** Python's `str.isspace()` for one character (the characters Python counts as
      whitespace; the same set is matched by `\s` in a `str` regular expression). */
  predicate IsSpace(c: char)
  {
    var n := c as int;
    c == ' ' || 9 <= n <= 13 || 28 <= n <= 31 || n == 0x85 || n == 0xA0 || n == 0x1680
    || 0x2000 <= n <= 0x200A || n == 0x2028 || n == 0x2029 || n == 0x202F || n == 0x205F
    || n == 0x3000
  }

  predicate IsAsciiDigit(c: char)
  {
    '0' <= c <= '9'
  }

  /** Lower-cases the ASCII letters of `c` (`str.lower()` on ASCII text). */
  function LowerChar(c: char): (r: char)
    ensures 'A' <= c <= 'Z' ==> r as int == c as int + 32
    ensures !('A' <= c <= 'Z') ==> r == c
  {
    if 'A' <= c <= 'Z' then (c as int + 32) as char else c
  }

  /** `s.lower()`, for ASCII letters. */
  function Lower(s: string): (r: string)
    ensures |r| == |s|
    ensures forall i :: 0 <= i < |s| ==> r[i] == LowerChar(s[i])
  {
    seq(|s|, i requires 0 <= i < |s| => LowerChar(s[i]))
  }

  /** `s.lstrip()`. */
  function StripLeft(s: string): (r: string)
    ensures |r| <= |s| && r == s[|s| - |r|..]
    ensures |r| > 0 ==> !IsSpace(r[0])
    ensures forall i :: 0 <= i < |s| - |r| ==> IsSpace(s[i])
  {
    if |s| > 0 && IsSpace(s[0]) then StripLeft(s[1..]) else s
  }

  /** `s.rstrip()`. */
  function StripRight(s: string): (r: string)
    ensures |r| <= |s| && r == s[..|r|]
    ensures |r| > 0 ==> !IsSpace(r[|r| - 1])
    ensures forall i :: |r| <= i < |s| ==> IsSpace(s[i])
  {
    if |s| > 0 && IsSpace(s[|s| - 1]) then StripRight(s[..|s| - 1]) else s
  }

  /** Every character of `t` is whitespace. */
  predicate AllSpace(t: string)
  {
    forall k :: 0 <= k < |t| ==> IsSpace(t[k])
  }

  /** `r` is `s[i..j]`, and `s[..i]` and `s[j..]` are all whitespace. */
  predicate TrimmedTo(s: string, r: string, i: int, j: int)
  {
    0 <= i <= j <= |s| && r == s[i..j] && AllSpace(s[..i]) && AllSpace(s[j..])
  }

  /** `s.strip()`: whitespace removed from both ends. The result is what is
      left after dropping a whitespace prefix and a whitespace suffix, and it
      neither starts nor ends with whitespace; together these determine it. */
  function Strip(s: string): (r: string)
    ensures exists i, j :: TrimmedTo(s, r, i, j)
    ensures |r| > 0 ==> !IsSpace(r[0]) && !IsSpace(r[|r| - 1])
  {
    StripSlice(s);
    StripRight(StripLeft(s))
  }

  /** `Strip` keeps the slice between the two stripped runs. */
  lemma StripSlice(s: string)
    ensures exists i, j :: TrimmedTo(s, StripRight(StripLeft(s)), i, j)
  {
    var left := StripLeft(s);
    var i := |s| - |left|;
    var r := StripRight(left);
    var j := i + |r|;
    assert r == s[i..j] by {
      assert left == s[i..];
      assert r == left[..|r|];
    }
    LeftRun(s);
    RightRun(left);
    assert s[j..] == left[|r|..];
    assert TrimmedTo(s, r, i, j);
  }

  /** What `StripLeft` drops is whitespace. */
  lemma LeftRun(s: string)
    ensures AllSpace(s[..|s| - |StripLeft(s)|])
  {
    var n := |s| - |StripLeft(s)|;
    forall k | 0 <= k < n ensures IsSpace(s[..n][k]) {
      assert s[..n][k] == s[k];
    }
  }

  /** What `StripRight` drops is whitespace. */
  lemma RightRun(s: string)
    ensures AllSpace(s[|StripRight(s)|..])
  {
    var n := |StripRight(s)|;
    forall k | 0 <= k < |s| - n ensures IsSpace(s[n..][k]) {
      assert s[n..][k] == s[n + k];
    }
  }

  /** The two properties of `Strip` determine it: a whitespace-trimmed slice
      of `s` that neither starts nor ends with whitespace is `Strip(s)`. */
  lemma StripUnique(s: string, t: string, i: int, j: int)
    requires TrimmedTo(s, t, i, j)
    requires |t| > 0 ==> !IsSpace(t[0]) && !IsSpace(t[|t| - 1])
    ensures Strip(s) == t
  {
    var r := Strip(s);
    var i', j' :| TrimmedTo(s, r, i', j');
    if |t| == 0 && |r| > 0 {
      SpaceAt(s, i, j, i');
    } else if |t| > 0 && |r| == 0 {
      SpaceAt(s, i', j', i);
    } else if |t| > 0 {
      FirstNonSpace(s, i, i');
      FirstNonSpace(s, i', i);
      LastNonSpace(s, j, j');
      LastNonSpace(s, j', j);
    }
  }

  /** With an empty slice between two whitespace runs, `s[k]` is whitespace. */
  lemma SpaceAt(s: string, i: int, j: int, k: int)
    requires 0 <= i == j <= |s| && AllSpace(s[..i]) && AllSpace(s[j..]) && 0 <= k < |s|
    ensures IsSpace(s[k])
  {
    if k < i {
      assert s[..i][k] == s[k];
    } else {
      assert s[j..][k - j] == s[k];
    }
  }

  /** A non-space character lies after any all-space prefix. */
  lemma FirstNonSpace(s: string, i: int, i': int)
    requires 0 <= i < |s| && !IsSpace(s[i]) && 0 <= i' <= |s| && AllSpace(s[..i'])
    ensures i' <= i
  {
  }

  /** A non-space character lies before any all-space suffix. */
  lemma LastNonSpace(s: string, j: int, j': int)
    requires 0 < j <= |s| && !IsSpace(s[j - 1]) && 0 <= j' <= |s| && AllSpace(s[j'..])
    ensures j <= j'
  {
  }

  /** `s.startswith(p)`. */
  predicate StartsWith(s: string, p: string)
  {
    |p| <= |s| && s[..|p|] == p
  }

  /** `s.endswith(p)`. */
  predicate EndsWith(s: string, p: string)
  {
    |p| <= |s| && s[|s| - |p|..] == p
  }

  /** `p in s`: `p` occurs in `s` as a contiguous substring. */
  predicate Contains(s: string, p: string)
    decreases |s|
  {
    StartsWith(s, p) || (|s| > 0 && Contains(s[1..], p))
  }

  /** `p` occurs in `s` starting at index `i`. */
  predicate OccursAt(s: string, p: string, i: int)
  {
    0 <= i <= |s| - |p| && s[i..i + |p|] == p
  }

  /** `Contains` is exactly "`p` occurs somewhere in `s`". */
  lemma {:induction false} ContainsIff(s: string, p: string)
    ensures Contains(s, p) <==> exists i :: OccursAt(s, p, i)
  {
    if StartsWith(s, p) {
      assert OccursAt(s, p, 0);
    } else if |s| > 0 {
      ContainsIff(s[1..], p);
      if Contains(s[1..], p) {
        var i :| OccursAt(s[1..], p, i);
        assert s[i + 1..i + 1 + |p|] == s[1..][i..i + |p|];
        assert OccursAt(s, p, i + 1);
      }
      if exists i :: OccursAt(s, p, i) {
        var i :| OccursAt(s, p, i);
        assert i != 0;
        assert s[1..][i - 1..i - 1 + |p|] == s[i..i + |p|];
        assert OccursAt(s[1..], p, i - 1);
      }
    }
  }

  /** A suffix of `s` is contained in `s`. */
  lemma EndsWithContains(s: string, p: string)
    requires EndsWith(s, p)
    ensures Contains(s, p)
  {
    ContainsIff(s, p);
    assert OccursAt(s, p, |s| - |p|);
  }
}
