/** Version bumping (scripts/bump_version.py): parsing and bumping X.Y.Z
    versions, reading and replacing the version line of src/meta.py and
    pyproject.toml, and the decisions of `main`. The two files are strings
    and the git repository is a set of tags. */
module Version {
  import opened Wrappers
  import opened Text

  /** Why the script raises `ValueError`. */
  datatype Failure = VersionNotFound | InvalidVersion | UnknownBump | UpdateFailed | TagRefused

  /** A version as the three integers `_parse_semver` returns. */
  datatype Semver = Semver(major: nat, minor: nat, patch: nat)

  /** A non-empty run of ASCII digits: `\d+`. */
  predicate Digits(s: string)
  {
    |s| > 0 && forall i :: 0 <= i < |s| ==> IsAsciiDigit(s[i])
  }

  /** `int(s)` for a string of ASCII digits; leading zeros are allowed. */
  function Value(s: string): nat
    requires forall i :: 0 <= i < |s| ==> IsAsciiDigit(s[i])
  {
    if s == [] then 0
    else
      assert IsAsciiDigit(s[|s| - 1]);
      Value(s[..|s| - 1]) * 10 + (s[|s| - 1] as int - '0' as int)
  }

  function DigitChar(d: nat): (c: char)
    requires d < 10
    ensures IsAsciiDigit(c) && c as int - '0' as int == d
  {
    ('0' as int + d) as char
  }

  /** `str(n)`: decimal digits without leading zeros. */
  function Show(n: nat): (r: string)
    ensures Digits(r)
    ensures r[0] == '0' ==> r == "0"
  {
    if n < 10 then [DigitChar(n)] else Show(n / 10) + [DigitChar(n % 10)]
  }

  /** `int(str(n)) == n`. */
  lemma {:induction false} ValueShow(n: nat)
    ensures Value(Show(n)) == n
  {
    if n >= 10 {
      ValueShow(n / 10);
      var s := Show(n);
      assert s[..|s| - 1] == Show(n / 10);
    }
  }

  /** `s.split(c)`. */
  function Split(s: string, c: char): (r: seq<string>)
    ensures |r| >= 1
  {
    if s == [] then [""]
    else
      var rest := Split(s[1..], c);
      if s[0] == c then [""] + rest else [[s[0]] + rest[0]] + rest[1..]
  }

  /** `c.join(parts)`. */
  function Join(parts: seq<string>, c: char): string
    requires |parts| >= 1
  {
    if |parts| == 1 then parts[0] else parts[0] + [c] + Join(parts[1..], c)
  }

  /** Splitting and joining again gives back the string. */
  lemma {:induction false} JoinSplit(s: string, c: char)
    ensures Join(Split(s, c), c) == s
  {
    if s != [] {
      var rest := Split(s[1..], c);
      JoinSplit(s[1..], c);
      if s[0] == c {
        assert Split(s, c)[1..] == rest;
      } else if |rest| == 1 {
        assert Join(Split(s, c), c) == [s[0]] + rest[0];
      } else {
        var r := Split(s, c);
        assert r[1..] == rest[1..];
        assert Join(rest, c) == rest[0] + [c] + Join(rest[1..], c);
      }
    }
  }

  /** A string without the separator is one part. */
  lemma {:induction false} SplitWithout(x: string, c: char)
    requires forall i :: 0 <= i < |x| ==> x[i] != c
    ensures Split(x, c) == [x]
  {
    if x != [] {
      SplitWithout(x[1..], c);
      assert [x[0]] + x[1..] == x;
    }
  }

  /** A separator after a part without one splits there. */
  lemma {:induction false} SplitAt(x: string, y: string, c: char)
    requires forall i :: 0 <= i < |x| ==> x[i] != c
    ensures Split(x + [c] + y, c) == [x] + Split(y, c)
  {
    if x == [] {
      assert ([c] + y)[1..] == y;
    } else {
      SplitAt(x[1..], y, c);
      assert (x + [c] + y)[1..] == x[1..] + [c] + y;
      assert [x[0]] + x[1..] == x;
    }
  }

  /** What `$` leaves to match: the text, less one final newline. */
  function Body(v: string): string
  {
    if |v| > 0 && v[|v| - 1] == '\n' then v[..|v| - 1] else v
  }

  /** `body` is three digit runs joined by dots. */
  predicate IsTriple(body: string, a: string, b: string, c: string)
  {
    Digits(a) && Digits(b) && Digits(c) && body == a + "." + b + "." + c
  }

  /** `_parse_semver`: the anchored match of `(\d+)\.(\d+)\.(\d+)`, the
      three groups read as integers; no match raises. */
  function ParseSemver(v: string): (r: Option<Semver>)
  {
    var parts := Split(Body(v), '.');
    if |parts| == 3 && Digits(parts[0]) && Digits(parts[1]) && Digits(parts[2])
    then Some(Semver(Value(parts[0]), Value(parts[1]), Value(parts[2])))
    else None
  }

  /** Three digit runs with dots between them split into those three runs. */
  lemma TripleSplits(a: string, b: string, c: string)
    requires Digits(a) && Digits(b) && Digits(c)
    ensures Split(a + "." + b + "." + c, '.') == [a, b, c]
  {
    SplitWithout(c, '.');
    SplitAt(b, c, '.');
    SplitAt(a, b + "." + c, '.');
    assert a + "." + b + "." + c == a + ['.'] + (b + ['.'] + c);
  }

  /** A version is accepted exactly when, less one final newline, it is
      three digit runs joined by dots; the result is their values. */
  lemma ParseSemverIff(v: string)
    ensures ParseSemver(v).Some? <==> exists a, b, c :: IsTriple(Body(v), a, b, c)
    ensures forall a, b, c :: IsTriple(Body(v), a, b, c) ==>
              ParseSemver(v) == Some(Semver(Value(a), Value(b), Value(c)))
  {
    var parts := Split(Body(v), '.');
    if ParseSemver(v).Some? {
      JoinSplit(Body(v), '.');
      assert parts[1..][0] == parts[1] && parts[1..][1..] == [parts[2]];
      assert Join(parts[1..], '.') == parts[1] + ['.'] + parts[2];
      assert Join(parts, '.') == parts[0] + "." + parts[1] + "." + parts[2];
      assert IsTriple(Body(v), parts[0], parts[1], parts[2]);
    }
    forall a, b, c | IsTriple(Body(v), a, b, c)
      ensures ParseSemver(v) == Some(Semver(Value(a), Value(b), Value(c)))
    {
      TripleSplits(a, b, c);
    }
  }

  /** `f"{major}.{minor}.{patch}"`. */
  function ShowSemver(s: Semver): string
  {
    Show(s.major) + "." + Show(s.minor) + "." + Show(s.patch)
  }

  /** A rendered version parses back to itself, with or without a final
      newline. */
  lemma ParseShow(s: Semver)
    ensures ParseSemver(ShowSemver(s)) == Some(s)
    ensures ParseSemver(ShowSemver(s) + "\n") == Some(s)
  {
    var a, b, c := Show(s.major), Show(s.minor), Show(s.patch);
    ValueShow(s.major);
    ValueShow(s.minor);
    ValueShow(s.patch);
    assert Body(ShowSemver(s)) == ShowSemver(s);
    assert (ShowSemver(s) + "\n")[..|ShowSemver(s)|] == ShowSemver(s);
    assert IsTriple(ShowSemver(s), a, b, c);
    ParseSemverIff(ShowSemver(s));
    ParseSemverIff(ShowSemver(s) + "\n");
  }

  /** Two parts are refused. */
  lemma RejectsTwoParts()
    ensures ParseSemver("1.2") == None
  {
    TwoSplit("1", "2");
  }

  /** An empty middle part is refused. */
  lemma RejectsEmptyPart()
    ensures ParseSemver("1..3") == None
  {
    SplitAt("1", ".3", '.');
  }

  /** Only one final newline is tolerated. */
  lemma RejectsTwoNewlines()
    ensures ParseSemver("1.2.3\n\n") == None
  {
    assert Body("1.2.3\n\n") == "1.2.3\n";
    SplitWithout("3\n", '.');
    SplitAt("2", "3\n", '.');
    SplitAt("1", "2.3\n", '.');
    assert !Digits("3\n");
  }

  lemma TwoSplit(a: string, b: string)
    requires Digits(a) && Digits(b)
    ensures Split(a + "." + b, '.') == [a, b]
  {
    SplitWithout(b, '.');
    SplitAt(a, b, '.');
  }

  /** `_bump`: the version is parsed first, then the kind is looked up. */
  function Bump(version: string, kind: string): (r: Result<string, Failure>)
    ensures r.Err? ==> r.error in {InvalidVersion, UnknownBump}
  {
    match ParseSemver(version)
    case None => Err(InvalidVersion)
    case Some(s) =>
      if kind == "major" then Ok(ShowSemver(Semver(s.major + 1, 0, 0)))
      else if kind == "minor" then Ok(ShowSemver(Semver(s.major, s.minor + 1, 0)))
      else if kind == "patch" then Ok(ShowSemver(Semver(s.major, s.minor, s.patch + 1)))
      else Err(UnknownBump)
  }

  /** What a bump means, read back through `_parse_semver`: a major bump
      gives (M+1).0.0, a minor bump M.(m+1).0, a patch bump M.m.(p+1); an
      invalid version or any other kind is an error. */
  lemma BumpReparses(version: string, kind: string)
    ensures ParseSemver(version).None? ==> Bump(version, kind) == Err(InvalidVersion)
    ensures ParseSemver(version).Some? && kind !in {"major", "minor", "patch"} ==>
              Bump(version, kind) == Err(UnknownBump)
    ensures ParseSemver(version).Some? && kind in {"major", "minor", "patch"} ==>
              var s := ParseSemver(version).value;
              Bump(version, kind).Ok?
              && ParseSemver(Bump(version, kind).value)
                 == Some(if kind == "major" then Semver(s.major + 1, 0, 0)
                         else if kind == "minor" then Semver(s.major, s.minor + 1, 0)
                         else Semver(s.major, s.minor, s.patch + 1))
  {
    if ParseSemver(version).Some? {
      var s := ParseSemver(version).value;
      ParseShow(Semver(s.major + 1, 0, 0));
      ParseShow(Semver(s.major, s.minor + 1, 0));
      ParseShow(Semver(s.major, s.minor, s.patch + 1));
    }
  }

  /** The two files that carry the version. */
  datatype VersionFile = Meta | Pyproject

  predicate IsQuote(c: char)
  {
    c == '"' || c == '\''
  }

  /** A literal that can open a version line: it starts with a character
      that is not a space, `=` or a quote, and holds no newline. */
  predicate KeyOk(key: string)
  {
    |key| > 0 && !IsSpace(key[0]) && key[0] != '=' && !IsQuote(key[0])
    && forall i :: 0 <= i < |key| ==> key[i] != '\n'
  }

  /** Lines 16-17: the literal at the start of `META_VERSION_RE` and of
      `PYPROJECT_VERSION_RE`. */
  function Key(f: VersionFile): (k: string)
    ensures KeyOk(k)
  {
    match f
    case Meta => "APP_VERSION"
    case Pyproject => "version"
  }

  /** The end of the run of `\s` characters starting at `i`. */
  function SkipSpaces(t: string, i: nat): (j: nat)
    requires i <= |t|
    ensures i <= j <= |t| && (j < |t| ==> !IsSpace(t[j]))
    decreases |t| - i
  {
    if i < |t| && IsSpace(t[i]) then SkipSpaces(t, i + 1) else i
  }

  /** Everything the run of spaces skips is a space. */
  lemma {:induction false} SkipSpacesAll(t: string, i: nat)
    requires i <= |t|
    ensures forall k :: i <= k < SkipSpaces(t, i) ==> IsSpace(t[k])
    decreases |t| - i
  {
    if i < |t| && IsSpace(t[i]) {
      SkipSpacesAll(t, i + 1);
    }
  }

  /** The end of the run of `\d` characters starting at `i`. */
  function SkipDigits(t: string, i: nat): (j: nat)
    requires i <= |t|
    ensures i <= j <= |t| && (j < |t| ==> !IsAsciiDigit(t[j]))
    decreases |t| - i
  {
    if i < |t| && IsAsciiDigit(t[i]) then SkipDigits(t, i + 1) else i
  }

  /** Everything the run of digits skips is a digit. */
  lemma {:induction false} SkipDigitsAll(t: string, i: nat)
    requires i <= |t|
    ensures forall k :: i <= k < SkipDigits(t, i) ==> IsAsciiDigit(t[k])
    decreases |t| - i
  {
    if i < |t| && IsAsciiDigit(t[i]) {
      SkipDigitsAll(t, i + 1);
    }
  }

  /** The run of spaces is determined by where it stops. */
  lemma {:induction false} SkipSpacesIs(t: string, i: nat, j: nat)
    requires i <= j <= |t|
    requires forall k :: i <= k < j ==> IsSpace(t[k])
    requires j < |t| ==> !IsSpace(t[j])
    ensures SkipSpaces(t, i) == j
    decreases j - i
  {
    if i < j {
      SkipSpacesIs(t, i + 1, j);
    }
  }

  /** The run of digits is determined by where it stops. */
  lemma {:induction false} SkipDigitsIs(t: string, i: nat, j: nat)
    requires i <= j <= |t|
    requires forall k :: i <= k < j ==> IsAsciiDigit(t[k])
    requires j < |t| ==> !IsAsciiDigit(t[j])
    ensures SkipDigits(t, i) == j
    decreases j - i
  {
    if i < j {
      SkipDigitsIs(t, i + 1, j);
    }
  }

  /** A match: where it starts, where groups 1 and 2 end, and where the
      match ends (after group 3, the closing quote). */
  datatype Match = Match(start: nat, g1End: nat, g2End: nat, end: nat)

  /** `key\s*=\s*["']` at position `p` (group 1): where it ends. The
      greedy `\s*` never gives anything back, as `=` and the quotes are not
      spaces. */
  function Opening(t: string, key: string, p: nat): (r: Option<nat>)
    requires p <= |t|
    ensures r.Some? ==> p + |key| < r.value <= |t|
  {
    if !(p + |key| <= |t| && t[p..p + |key|] == key) then None
    else
      var i1 := SkipSpaces(t, p + |key|);
      if i1 == |t| || t[i1] != '=' then None
      else
        var i2 := SkipSpaces(t, i1 + 1);
        if i2 == |t| || !IsQuote(t[i2]) then None
        else Some(i2 + 1)
  }

  /** `\d+\.\d+\.\d+` at position `i` (group 2): where it ends. The greedy
      `\d+` never gives anything back, as `.` and the quotes are not
      digits. */
  function Triple(t: string, i: nat): (r: Option<nat>)
    requires i <= |t|
    ensures r.Some? ==> i < r.value <= |t|
  {
    var d1 := SkipDigits(t, i);
    if d1 == i || d1 == |t| || t[d1] != '.' then None
    else
      var d2 := SkipDigits(t, d1 + 1);
      if d2 == d1 + 1 || d2 == |t| || t[d2] != '.' then None
      else
        var d3 := SkipDigits(t, d2 + 1);
        if d3 == d2 + 1 then None else Some(d3)
  }

  /** The version pattern of lines 16-17 tried at position `p`: group 1,
      group 2, then a closing quote (group 3). */
  function MatchAt(t: string, key: string, p: nat): (r: Option<Match>)
    requires p <= |t|
    ensures r.Some? ==> r.value.start == p && p + |key| < r.value.g1End < r.value.g2End < r.value.end <= |t|
  {
    match Opening(t, key, p)
    case None => None
    case Some(g1End) =>
      match Triple(t, g1End)
      case None => None
      case Some(g2End) =>
        if g2End < |t| && IsQuote(t[g2End]) then Some(Match(p, g1End, g2End, g2End + 1)) else None
  }

  /** `^` under `re.M`: the start of the text or of a line. */
  predicate LineStart(t: string, p: nat)
  {
    p == 0 || (0 < p <= |t| && t[p - 1] == '\n')
  }

  /** `pattern.search(text)` from position `from`: the match at the first
      line start where the pattern matches. */
  function FirstMatch(t: string, key: string, from: nat): (r: Option<Match>)
    requires from <= |t|
    ensures r.Some? ==> from <= r.value.start <= |t| && LineStart(t, r.value.start)
                        && MatchAt(t, key, r.value.start) == r
    decreases |t| - from
  {
    if LineStart(t, from) && MatchAt(t, key, from).Some? then MatchAt(t, key, from)
    else if from == |t| then None
    else FirstMatch(t, key, from + 1)
  }

  /** No line start before the first match, and none at all when there is
      no match, matches. */
  lemma {:induction false} FirstMatchFirst(t: string, key: string, from: nat, q: nat)
    requires from <= q <= |t| && LineStart(t, q)
    requires FirstMatch(t, key, from).None? || q < FirstMatch(t, key, from).value.start
    ensures MatchAt(t, key, q).None?
    decreases |t| - from
  {
    if q > from {
      FirstMatchFirst(t, key, from + 1, q);
    }
  }

  /** A matching line start with no matching line start before it is the
      first match. */
  lemma {:induction false} FirstMatchIs(t: string, key: string, from: nat, p: nat)
    requires from <= p <= |t| && LineStart(t, p) && MatchAt(t, key, p).Some?
    requires forall q :: from <= q < p && LineStart(t, q) ==> MatchAt(t, key, q).None?
    ensures FirstMatch(t, key, from) == MatchAt(t, key, p)
    decreases p - from
  {
    if from < p {
      assert !(LineStart(t, from) && MatchAt(t, key, from).Some?);
      FirstMatchIs(t, key, from + 1, p);
    }
  }

  /** `_read_version`: group 2 of the first match; no match raises. */
  function ReadVersion(t: string, f: VersionFile): (r: Result<string, Failure>)
    ensures r.Err? ==> r.error == VersionNotFound
  {
    match FirstMatch(t, Key(f), 0)
    case None => Err(VersionNotFound)
    case Some(m) => Ok(t[m.g1End..m.g2End])
  }

  /** `_write_version`: the first match only (`count=1`) becomes group 1,
      the new version and group 3; no match raises. */
  function WriteVersion(t: string, f: VersionFile, v: string): (r: Result<string, Failure>)
    ensures r.Err? ==> r.error == UpdateFailed
  {
    match FirstMatch(t, Key(f), 0)
    case None => Err(UpdateFailed)
    case Some(m) => Ok(t[..m.g1End] + v + t[m.g2End..])
  }

  /** What a version line holds is a valid version: the value read always
      parses. */
  lemma ReadParses(t: string, f: VersionFile)
    ensures ReadVersion(t, f).Ok? ==> ParseSemver(ReadVersion(t, f).value).Some?
  {
    var key := Key(f);
    if FirstMatch(t, key, 0).Some? {
      MatchedParses(t, key, FirstMatch(t, key, 0).value.start);
    }
  }

  /** Group 2 of any match is three digit runs joined by dots. */
  lemma MatchedParses(t: string, key: string, p: nat)
    requires p <= |t| && MatchAt(t, key, p).Some?
    ensures var m := MatchAt(t, key, p).value; ParseSemver(t[m.g1End..m.g2End]).Some?
  {
    var m := MatchAt(t, key, p).value;
    TripleParses(t, m.g1End);
  }

  /** What `Triple` spans is three digit runs joined by dots. */
  lemma TripleParses(t: string, i: nat)
    requires i <= |t| && Triple(t, i).Some?
    ensures ParseSemver(t[i..Triple(t, i).value]).Some?
  {
    var d1 := SkipDigits(t, i);
    var d2 := SkipDigits(t, d1 + 1);
    var d3 := SkipDigits(t, d2 + 1);
    SkipDigitsAll(t, i);
    SkipDigitsAll(t, d1 + 1);
    SkipDigitsAll(t, d2 + 1);
    var a, b, c := t[i..d1], t[d1 + 1..d2], t[d2 + 1..d3];
    assert Digits(a) && Digits(b) && Digits(c);
    var v := t[i..d3];
    assert v == a + [t[d1]] + b + [t[d2]] + c;
    assert Body(v) == v;
    assert IsTriple(v, a, b, c);
    ParseSemverIff(v);
  }

  /** Writing never fails where reading succeeds: both use the first
      match. */
  lemma WriteWhereRead(t: string, f: VersionFile, v: string)
    ensures WriteVersion(t, f, v).Ok? <==> ReadVersion(t, f).Ok?
  {
  }

  /** `t` and `u` agree on their first `n` characters. */
  predicate Agree(t: string, u: string, n: nat)
  {
    n <= |t| && n <= |u| && forall k :: 0 <= k < n ==> t[k] == u[k]
  }

  /** Group 1 depends only on the text up to its end. */
  lemma OpeningLocal(t: string, u: string, key: string, p: nat, n: nat)
    requires p <= n && Agree(t, u, n)
    requires Opening(t, key, p).Some? && Opening(t, key, p).value <= n
    ensures Opening(u, key, p) == Opening(t, key, p)
  {
    assert u[p..p + |key|] == t[p..p + |key|];
    var i1 := SkipSpaces(t, p + |key|);
    SkipSpacesAll(t, p + |key|);
    SkipSpacesIs(u, p + |key|, i1);
    var i2 := SkipSpaces(t, i1 + 1);
    SkipSpacesAll(t, i1 + 1);
    SkipSpacesIs(u, i1 + 1, i2);
  }

  /** Group 2 depends only on the text up to the character after it. */
  lemma TripleLocal(t: string, u: string, i: nat, n: nat)
    requires i <= n && Agree(t, u, n)
    requires Triple(t, i).Some? && Triple(t, i).value < n
    ensures Triple(u, i) == Triple(t, i)
  {
    var d1 := SkipDigits(t, i);
    var d2 := SkipDigits(t, d1 + 1);
    var d3 := SkipDigits(t, d2 + 1);
    SkipDigitsAll(t, i);
    SkipDigitsAll(t, d1 + 1);
    SkipDigitsAll(t, d2 + 1);
    SkipDigitsIs(u, i, d1);
    SkipDigitsIs(u, d1 + 1, d2);
    SkipDigitsIs(u, d2 + 1, d3);
  }

  /** `u` holds the digit run `x` at `i`, followed by a non-digit or the end. */
  lemma DigitsAt(u: string, i: nat, x: string)
    requires Digits(x) && i + |x| <= |u|
    requires forall k :: 0 <= k < |x| ==> u[i + k] == x[k]
    requires i + |x| < |u| ==> !IsAsciiDigit(u[i + |x|])
    ensures SkipDigits(u, i) == i + |x|
  {
    forall k | i <= k < i + |x|
      ensures IsAsciiDigit(u[k])
    {
      assert u[i + (k - i)] == x[k - i];
    }
    SkipDigitsIs(u, i, i + |x|);
  }

  /** Where the parts of `a.b.c` sit. */
  lemma TripleLayout(v: string, a: string, b: string, c: string)
    requires IsTriple(v, a, b, c)
    ensures |v| == |a| + 1 + |b| + 1 + |c|
    ensures v[|a|] == '.' && v[|a| + 1 + |b|] == '.'
    ensures v[..|a|] == a && v[|a| + 1..|a| + 1 + |b|] == b && v[|a| + 1 + |b| + 1..] == c
  {
    assert v == a + ['.'] + b + ['.'] + c;
  }

  /** A copy of `v` at `i` holds a copy of `v`'s part at `off` at `i + off`. */
  lemma CopyPart(u: string, i: nat, v: string, off: nat, x: string, j: nat)
    requires i + |v| <= |u| && off + |x| <= |v| && j == i + off
    requires forall k :: 0 <= k < |v| ==> u[i + k] == v[k]
    requires forall k :: 0 <= k < |x| ==> v[off + k] == x[k]
    ensures forall k :: 0 <= k < |x| ==> u[j + k] == x[k]
  {
    forall k | 0 <= k < |x|
      ensures u[j + k] == x[k]
    {
      assert u[i + (off + k)] == v[off + k];
    }
  }

  /** Three digit runs joined by dots, followed by something that is not a
      digit, are group 2. */
  lemma TripleOf(u: string, i: nat, v: string, a: string, b: string, c: string)
    requires IsTriple(v, a, b, c) && i + |v| <= |u|
    requires forall k :: 0 <= k < |v| ==> u[i + k] == v[k]
    requires i + |v| < |u| ==> !IsAsciiDigit(u[i + |v|])
    ensures Triple(u, i) == Some(i + |v|)
  {
    var d1, d2 := i + |a|, i + |a| + 1 + |b|;
    TripleLayout(v, a, b, c);
    PartDigits(u, i, v, 0, a, i);
    PartDigits(u, i, v, |a| + 1, b, d1 + 1);
    PartDigits(u, i, v, |a| + 1 + |b| + 1, c, d2 + 1);
    assert u[i + |a|] == v[|a|];
    assert u[i + (|a| + 1 + |b|)] == v[|a| + 1 + |b|];
    TripleAt(u, i, d1, d2, i + |v|);
  }

  /** A digit run of `v` copied at `i` is a digit run of `u`, ending where
      the copy of the part ends. */
  lemma PartDigits(u: string, i: nat, v: string, off: nat, x: string, j: nat)
    requires Digits(x) && i + |v| <= |u| && off + |x| <= |v| && j == i + off
    requires forall k :: 0 <= k < |v| ==> u[i + k] == v[k]
    requires v[off..off + |x|] == x
    requires off + |x| < |v| ==> !IsAsciiDigit(v[off + |x|])
    requires off + |x| == |v| && i + |v| < |u| ==> !IsAsciiDigit(u[i + |v|])
    ensures SkipDigits(u, j) == j + |x|
  {
    forall k | 0 <= k < |x|
      ensures v[off + k] == x[k]
    {
      assert v[off..off + |x|][k] == v[off + k];
    }
    CopyPart(u, i, v, off, x, j);
    if off + |x| < |v| {
      assert u[i + (off + |x|)] == v[off + |x|];
    }
    DigitsAt(u, j, x);
  }

  /** The three digit runs and the two dots, by their ends. */
  lemma TripleAt(u: string, i: nat, d1: nat, d2: nat, d3: nat)
    requires i < d1 < d2 < d3 <= |u|
    requires SkipDigits(u, i) == d1 && u[d1] == '.'
    requires SkipDigits(u, d1 + 1) == d2 && d1 + 1 < d2 && u[d2] == '.'
    requires SkipDigits(u, d2 + 1) == d3 && d2 + 1 < d3
    ensures Triple(u, i) == Some(d3)
  {
  }

  /** A match cannot run over a line that starts with the key: the newline
      before it could only be inside a `\s*`, and the key's first character
      is neither a space nor what follows the `\s*`. */
  lemma NoCrossing(u: string, key: string, q: nat, p: nat)
    requires KeyOk(key) && q < p && p + |key| <= |u|
    requires u[p - 1] == '\n' && u[p..p + |key|] == key
    requires MatchAt(u, key, q).Some?
    ensures MatchAt(u, key, q).value.end <= p
  {
    AfterNewlineInMatch(u, key, q, p - 1);
    assert u[p] == key[0];
  }

  /** Inside a match, a newline can only sit in one of the `\s*` runs, so
      what follows it is a space, the `=` or the opening quote. */
  lemma AfterNewlineInMatch(u: string, key: string, q: nat, k: nat)
    requires KeyOk(key) && q <= |u| && MatchAt(u, key, q).Some? && q <= k
    ensures k + 1 < MatchAt(u, key, q).value.end && u[k] == '\n' ==>
              IsSpace(u[k + 1]) || u[k + 1] == '=' || IsQuote(u[k + 1])
  {
    var m := MatchAt(u, key, q).value;
    if k + 1 < m.end {
      var i1 := SkipSpaces(u, q + |key|);
      var i2 := SkipSpaces(u, i1 + 1);
      MatchParts(u, key, q);
      OpeningKey(u, key, q);
      if k < q + |key| {
        assert u[k] == key[k - q];
      } else if k < i1 {
        SkipSpacesAll(u, q + |key|);
      } else if i1 < k < i2 {
        SkipSpacesAll(u, i1 + 1);
      } else if k > i2 {
        TripleChars(u, m.g1End, k);
      }
    }
  }

  /** `\d+\.\d+\.\d+` holds only digits and dots. */
  lemma TripleChars(t: string, i: nat, k: nat)
    requires i <= |t| && Triple(t, i).Some? && i <= k < Triple(t, i).value
    ensures IsAsciiDigit(t[k]) || t[k] == '.'
  {
    var d1 := SkipDigits(t, i);
    var d2 := SkipDigits(t, d1 + 1);
    SkipDigitsAll(t, i);
    SkipDigitsAll(t, d1 + 1);
    SkipDigitsAll(t, d2 + 1);
  }

  /** A whole match depends only on the text up to its end. */
  lemma MatchAtLocal(t: string, u: string, key: string, q: nat, n: nat)
    requires q <= n && Agree(t, u, n)
    requires MatchAt(t, key, q).Some? && MatchAt(t, key, q).value.end <= n
    ensures MatchAt(u, key, q) == MatchAt(t, key, q)
  {
    var m := MatchAt(t, key, q).value;
    MatchParts(t, key, q);
    OpeningLocal(t, u, key, q, n);
    TripleLocal(t, u, m.g1End, n);
    assert u[m.g2End] == t[m.g2End];
  }

  /** Group 1 begins with the key. */
  lemma OpeningKey(t: string, key: string, p: nat)
    requires p <= |t| && Opening(t, key, p).Some?
    ensures t[p..p + |key|] == key
  {
  }

  /** After the text from `g` on is replaced by `v` and the rest, the line
      at `p` matches with `v` as group 2. */
  lemma RewrittenMatches(t: string, u: string, key: string, p: nat, v: string, a: string, b: string, c: string)
    requires p <= |t| && Opening(t, key, p).Some?
    requires IsTriple(v, a, b, c)
    requires var g := Opening(t, key, p).value;
      Agree(t, u, g) && g + |v| < |u| && IsQuote(u[g + |v|])
      && forall k :: 0 <= k < |v| ==> u[g + k] == v[k]
    ensures var g := Opening(t, key, p).value;
      MatchAt(u, key, p) == Some(Match(p, g, g + |v|, g + |v| + 1))
  {
    var g := Opening(t, key, p).value;
    OpeningLocal(t, u, key, p, g);
    TripleOf(u, g, v, a, b, c);
  }

  /** What replacing `t[g..e]` by `v` leaves where. */
  lemma Spliced(t: string, g: nat, e: nat, v: string)
    requires g <= e < |t|
    ensures var u := t[..g] + v + t[e..];
      Agree(t, u, g) && (forall k :: 0 <= k < |v| ==> u[g + k] == v[k])
      && u[g + |v|] == t[e] && u[g..g + |v|] == v
  {
  }

  /** The parts of a match. */
  lemma MatchParts(t: string, key: string, p: nat)
    requires p <= |t| && MatchAt(t, key, p).Some?
    ensures var m := MatchAt(t, key, p).value;
      Opening(t, key, p) == Some(m.g1End) && Triple(t, m.g1End) == Some(m.g2End)
      && IsQuote(t[m.g2End]) && m.end == m.g2End + 1
  {
  }

  /** Reading after writing gives the version written, when it is three
      digit runs joined by dots: the rewritten line is still the first
      match. */
  lemma WriteThenRead(t: string, f: VersionFile, v: string, a: string, b: string, c: string)
    requires IsTriple(v, a, b, c)
    ensures WriteVersion(t, f, v).Ok? ==> ReadVersion(WriteVersion(t, f, v).value, f) == Ok(v)
  {
    var key := Key(f);
    if FirstMatch(t, key, 0).Some? {
      var m := FirstMatch(t, key, 0).value;
      var p, g, e := m.start, m.g1End, m.g2End;
      var u := t[..g] + v + t[e..];
      Spliced(t, g, e, v);
      MatchParts(t, key, p);
      RewrittenMatches(t, u, key, p, v, a, b, c);
      NoEarlierMatch(t, u, key);
      FirstMatchIs(u, key, 0, p);
    }
  }

  /** No line start before the first match matches after the text from the
      end of its group 1 on has changed. */
  lemma NoEarlierMatch(t: string, u: string, key: string)
    requires KeyOk(key) && FirstMatch(t, key, 0).Some?
    requires Agree(t, u, FirstMatch(t, key, 0).value.g1End)
    ensures forall q :: 0 <= q < FirstMatch(t, key, 0).value.start && LineStart(u, q) ==>
              MatchAt(u, key, q).None?
  {
    forall q | 0 <= q < FirstMatch(t, key, 0).value.start && LineStart(u, q)
      ensures MatchAt(u, key, q).None?
    {
      EarlierLineFails(t, u, key, q);
    }
  }

  /** One line start before the first match, in the rewritten text. */
  lemma EarlierLineFails(t: string, u: string, key: string, q: nat)
    requires KeyOk(key) && FirstMatch(t, key, 0).Some?
    requires Agree(t, u, FirstMatch(t, key, 0).value.g1End)
    requires q < FirstMatch(t, key, 0).value.start && LineStart(u, q)
    ensures MatchAt(u, key, q).None?
  {
    var m := FirstMatch(t, key, 0).value;
    var p, g := m.start, m.g1End;
    OpeningKey(t, key, p);
    assert LineStart(t, q);
    FirstMatchFirst(t, key, 0, q);
    EarlierStillFails(t, u, key, q, p, g);
  }

  /** A line start before a line that begins with the key, and that fails to
      match, still fails after the text from past the key on has changed. */
  lemma EarlierStillFails(t: string, u: string, key: string, q: nat, p: nat, g: nat)
    requires KeyOk(key) && q < p && p + |key| < g && Agree(t, u, g)
    requires t[p - 1] == '\n' && t[p..p + |key|] == key
    requires MatchAt(t, key, q).None?
    ensures MatchAt(u, key, q).None?
  {
    if MatchAt(u, key, q).Some? {
      assert u[p..p + |key|] == t[p..p + |key|];
      NoCrossing(u, key, q, p);
      MatchAtLocal(u, t, key, q, p);
    }
  }

  /** The command line after `parse_args`: an optional explicit version, an
      optional bump kind, `--dry-run`, and `--tag`/`--no-tag` (default on). */
  datatype Args = Args(version: Option<string>, bump: Option<string>, dryRun: bool, tag: bool)

  /** The result of a run: the exit status or the error raised, and the two
      files and the repository's tags afterwards. */
  datatype Run = Run(status: Result<int, Failure>, meta: string, pyproject: string, tags: set<string>)

  /** The bump kinds `--bump` accepts (line 103). */
  const Choices: set<string> := {"major", "minor", "patch"}

  /** Whether an explicit version is accepted: as written, `_parse_semver`
      succeeds; with `fullMatch`, the version must in addition not end in
      a newline (a full match). */
  predicate Accepts(v: string, fullMatch: bool)
  {
    ParseSemver(v).Some? && (!fullMatch || Body(v) == v)
  }

  /** Lines 124-131: the new version, or none when neither a version nor a
      bump is given. */
  function Chosen(args: Args, metaVersion: string, fullMatch: bool): (r: Result<Option<string>, Failure>)
    ensures r.Ok? && r.value.Some? && args.version.Some? && args.version.value != "" ==>
              r.value.value == args.version.value
    ensures r.Err? ==> r.error in {InvalidVersion, UnknownBump}
  {
    if args.version.Some? && args.version.value != "" then
      if Accepts(args.version.value, fullMatch) then Ok(Some(args.version.value)) else Err(InvalidVersion)
    else if args.bump.Some? then
      match Bump(metaVersion, args.bump.value)
      case Ok(v) => Ok(Some(v))
      case Err(e) => Err(e)
    else Ok(None)
  }

  /** `main` (lines 92-147) on the two files and the tags. `fullMatch`
      selects the validation of an explicit version: `false` is the code as
      written. */
  function MainOutcome(args: Args, meta: string, pyproject: string, tags: set<string>,
                       gitAvailable: bool, fullMatch: bool): Run
  {
    if args.bump.Some? && args.bump.value !in Choices then Run(Ok(2), meta, pyproject, tags)
    else if ReadVersion(meta, Meta).Err? || ReadVersion(pyproject, Pyproject).Err? then
      Run(Err(VersionNotFound), meta, pyproject, tags)
    else
      match Chosen(args, ReadVersion(meta, Meta).value, fullMatch)
      case Err(e) => Run(Err(e), meta, pyproject, tags)
      case Ok(None) => Run(Ok(2), meta, pyproject, tags)
      case Ok(Some(v)) =>
        if args.dryRun then Run(Ok(0), meta, pyproject, tags)
        else Update(meta, pyproject, tags, v, args.tag && gitAvailable)
  }

  /** A character git never accepts in a ref name: an ASCII control
      character, DEL, or one of ` ~^:?*[\` (rules 4 and 5 of
      `git check-ref-format`). */
  predicate ForbiddenInRef(c: char)
  {
    c < ' ' || c as int == 0x7f || c in " ~^:?*[\\"
  }

  /** A tag name free of the characters git refuses. */
  predicate GitAcceptsTag(tag: string)
  {
    forall i :: 0 <= i < |tag| ==> !ForbiddenInRef(tag[i])
  }

  /** `git tag v<version>` runs (the tag is asked for and absent) and git
      refuses the name, so `check=True` raises. */
  predicate TagRefusedFor(tags: set<string>, v: string, tagIt: bool)
  {
    tagIt && "v" + v !in tags && !GitAcceptsTag("v" + v)
  }

  /** Lines 137-146: write the meta file, then pyproject, then tag the new
      version unless that tag exists. A failed write raises, leaving what
      was written before it; so does a tag name git refuses. */
  function Update(meta: string, pyproject: string, tags: set<string>, v: string, tagIt: bool): Run
  {
    match WriteVersion(meta, Meta, v)
    case Err(e) => Run(Err(e), meta, pyproject, tags)
    case Ok(meta') =>
      match WriteVersion(pyproject, Pyproject, v)
      case Err(e) => Run(Err(e), meta', pyproject, tags)
      case Ok(pyproject') =>
        if TagRefusedFor(tags, v, tagIt) then Run(Err(TagRefused), meta', pyproject', tags)
        else Run(Ok(0), meta', pyproject', if tagIt then tags + {"v" + v} else tags)
  }

  /** Git accepts the tag of a version made of three digit runs. */
  lemma TripleTagAccepted(v: string, a: string, b: string, c: string)
    requires IsTriple(v, a, b, c)
    ensures GitAcceptsTag("v" + v)
  {
    var tag := "v" + v;
    forall i | 0 <= i < |tag|
      ensures !ForbiddenInRef(tag[i])
    {
      if i == 0 {
      } else if i <= |a| {
        assert tag[i] == a[i - 1];
      } else if i == |a| + 1 || i == |a| + |b| + 2 {
        assert tag[i] == '.';
      } else if i <= |a| + |b| + 1 {
        assert tag[i] == b[i - |a| - 2];
      } else {
        assert tag[i] == c[i - |a| - |b| - 3];
      }
    }
  }

  /** Git refuses the tag of a version that ends in a newline. */
  lemma NewlineTagRefused(v: string)
    requires |v| > 0 && v[|v| - 1] == '\n'
    ensures !GitAcceptsTag("v" + v)
  {
    var tag := "v" + v;
    assert tag[|tag| - 1] == '\n';
  }

  /** Once both files were read, both writes succeed: each file is
      rewritten at its version line. The run then returns 0 with the tag
      `v<version>` present when tagging was asked for, unless git refuses
      that name, which leaves the tags as they were. */
  lemma UpdateSucceeds(meta: string, pyproject: string, tags: set<string>, v: string, tagIt: bool)
    requires ReadVersion(meta, Meta).Ok? && ReadVersion(pyproject, Pyproject).Ok?
    ensures var r := Update(meta, pyproject, tags, v, tagIt);
      && r.status == (if TagRefusedFor(tags, v, tagIt) then Err(TagRefused) else Ok(0))
      && r.meta == WriteVersion(meta, Meta, v).value
      && r.pyproject == WriteVersion(pyproject, Pyproject, v).value
      && r.tags == (if tagIt && r.status.Ok? then tags + {"v" + v} else tags)
  {
    WriteWhereRead(meta, Meta, v);
    WriteWhereRead(pyproject, Pyproject, v);
  }

  /** Whatever the arguments, the writes never fail; a run that ends
      neither in status 0 after writing nor in a refused tag leaves the
      files and tags as they were, and a refused tag leaves the tags. */
  lemma MainLeavesOrWrites(args: Args, meta: string, pyproject: string, tags: set<string>,
                           gitAvailable: bool, fullMatch: bool)
    ensures var r := MainOutcome(args, meta, pyproject, tags, gitAvailable, fullMatch);
      && r.status != Err(UpdateFailed)
      && ((r.status != Ok(0) && r.status != Err(TagRefused)) || args.dryRun ==>
            r == Run(r.status, meta, pyproject, tags))
      && (r.status == Err(TagRefused) ==> r.tags == tags)
  {
    var r := MainOutcome(args, meta, pyproject, tags, gitAvailable, fullMatch);
    if args.bump.Some? && args.bump.value !in Choices {
    } else if ReadVersion(meta, Meta).Err? || ReadVersion(pyproject, Pyproject).Err? {
    } else {
      var c := Chosen(args, ReadVersion(meta, Meta).value, fullMatch);
      if c.Err? {
        assert r.status == Err(c.error);
      } else if c.value.Some? && !args.dryRun {
        UpdateSucceeds(meta, pyproject, tags, c.value.value, args.tag && gitAvailable);
        assert r == Update(meta, pyproject, tags, c.value.value, args.tag && gitAvailable);
      }
    }
  }

  /** With neither a version nor `--bump`, the run ends with status 2 once
      both files carry a version. */
  lemma MainNeedsVersion(args: Args, meta: string, pyproject: string, tags: set<string>,
                         gitAvailable: bool, fullMatch: bool)
    requires args.version.None? || args.version.value == ""
    requires args.bump.None?
    ensures var r := MainOutcome(args, meta, pyproject, tags, gitAvailable, fullMatch);
      r.meta == meta && r.pyproject == pyproject && r.tags == tags
      && r.status == if ReadVersion(meta, Meta).Ok? && ReadVersion(pyproject, Pyproject).Ok?
                     then Ok(2) else Err(VersionNotFound)
  {
  }

  /** An explicit version is validated before anything is written: one
      `_parse_semver` refuses raises and changes nothing. */
  lemma MainValidatesVersion(args: Args, meta: string, pyproject: string, tags: set<string>,
                             gitAvailable: bool, fullMatch: bool)
    requires args.version.Some? && args.version.value != "" && ParseSemver(args.version.value).None?
    requires args.bump.None? || args.bump.value in Choices
    ensures var r := MainOutcome(args, meta, pyproject, tags, gitAvailable, fullMatch);
      r.meta == meta && r.pyproject == pyproject && r.tags == tags && r.status.Err?
  {
  }

  /** A dry run returns 0 without writing or tagging whenever a new version
      was settled on. */
  lemma MainDryRun(args: Args, meta: string, pyproject: string, tags: set<string>,
                   gitAvailable: bool, fullMatch: bool)
    requires args.dryRun
    ensures var r := MainOutcome(args, meta, pyproject, tags, gitAvailable, fullMatch);
      r.meta == meta && r.pyproject == pyproject && r.tags == tags
      && ((ReadVersion(meta, Meta).Ok? && ReadVersion(pyproject, Pyproject).Ok?
           && (args.bump.None? || args.bump.value in Choices)
           && Chosen(args, ReadVersion(meta, Meta).value, fullMatch).Ok?
           && Chosen(args, ReadVersion(meta, Meta).value, fullMatch).value.Some?) ==> r.status == Ok(0))
  {
  }

  /** A bump of a version read from the file always succeeds: what a version
      line holds parses, and the kind is one of the choices. */
  lemma BumpOfRead(meta: string, kind: string)
    requires ReadVersion(meta, Meta).Ok? && kind in Choices
    ensures Bump(ReadVersion(meta, Meta).value, kind).Ok?
    ensures ParseSemver(Bump(ReadVersion(meta, Meta).value, kind).value).Some?
  {
    ReadParses(meta, Meta);
    BumpReparses(ReadVersion(meta, Meta).value, kind);
  }

  /** The two version files and the repository's tags, as `main` finds
      and leaves them. */
  class Release {
    var meta: string
    var pyproject: string
    var tags: set<string>

    constructor(meta: string, pyproject: string, tags: set<string>)
      ensures this.meta == meta && this.pyproject == pyproject && this.tags == tags
    {
      this.meta := meta;
      this.pyproject := pyproject;
      this.tags := tags;
    }

    /** `main` after argument parsing: read both versions, settle on the new
        one, then write the meta file, pyproject and the tag in turn. A
        rejected `--bump` choice is argparse's exit status 2. */
    method Execute(args: Args, gitAvailable: bool) returns (status: Result<int, Failure>)
      modifies this
      ensures Run(status, meta, pyproject, tags)
              == MainOutcome(args, old(meta), old(pyproject), old(tags), gitAvailable, false)
    {
      if args.bump.Some? && args.bump.value !in Choices {
        return Ok(2);
      }
      var metaVersion := ReadVersion(meta, Meta);
      if metaVersion.Err? {
        return Err(metaVersion.error);
      }
      var pyprojectVersion := ReadVersion(pyproject, Pyproject);
      if pyprojectVersion.Err? {
        return Err(pyprojectVersion.error);
      }
      var newVersion: string;
      if args.version.Some? && args.version.value != "" {
        newVersion := args.version.value;
        if ParseSemver(newVersion).None? {
          return Err(InvalidVersion);
        }
      } else if args.bump.Some? {
        var bumped := Bump(metaVersion.value, args.bump.value);
        if bumped.Err? {
          return Err(bumped.error);
        }
        newVersion := bumped.value;
      } else {
        return Ok(2);
      }
      if args.dryRun {
        return Ok(0);
      }
      assert Chosen(args, metaVersion.value, false) == Ok(Some(newVersion));
      status := WriteAll(newVersion, args.tag && gitAvailable);
    }

    /** Lines 137-145: `_write_version` on the meta file, then on
        pyproject, then `_create_git_tag` when asked to and git is
        available. */
    method WriteAll(v: string, tagIt: bool) returns (status: Result<int, Failure>)
      modifies this
      ensures Run(status, meta, pyproject, tags) == Update(old(meta), old(pyproject), old(tags), v, tagIt)
    {
      var written := WriteVersion(meta, Meta, v);
      if written.Err? {
        return Err(written.error);
      }
      meta := written.value;
      written := WriteVersion(pyproject, Pyproject, v);
      if written.Err? {
        return Err(written.error);
      }
      pyproject := written.value;
      if tagIt {
        var tagged := CreateTag(v);
        if tagged.Err? {
          return Err(tagged.error);
        }
      }
      return Ok(0);
    }

    /** `_create_git_tag`: tag `v<version>` unless that tag exists; the
        result says whether a tag was created. `git tag` with `check=True`
        raises when git refuses the name. */
    method CreateTag(v: string) returns (r: Result<bool, Failure>)
      modifies this
      ensures r.Err? <==> TagRefusedFor(old(tags), v, true)
      ensures r.Err? ==> r.error == TagRefused
      ensures r.Ok? ==> (r.value <==> "v" + v !in old(tags))
      ensures tags == if r.Ok? then old(tags) + {"v" + v} else old(tags)
      ensures meta == old(meta) && pyproject == old(pyproject)
    {
      var tag := "v" + v;
      if tag in tags {
        assert tags + {tag} == tags;
        return Ok(false);
      }
      if !GitAcceptsTag(tag) {
        return Err(TagRefused);
      }
      tags := tags + {tag};
      return Ok(true);
    }
  }

  /** A bump is three digit runs joined by dots. */
  lemma BumpIsTriple(version: string, kind: string)
    requires Bump(version, kind).Ok?
    ensures exists a, b, c :: IsTriple(Bump(version, kind).value, a, b, c)
  {
    var s := ParseSemver(version).value;
    var t := if kind == "major" then Semver(s.major + 1, 0, 0)
             else if kind == "minor" then Semver(s.major, s.minor + 1, 0)
             else Semver(s.major, s.minor, s.patch + 1);
    assert IsTriple(Bump(version, kind).value, Show(t.major), Show(t.minor), Show(t.patch));
  }

  /** A run with `--bump` writes the bumped version of the meta file into
      both files, where it reads back, and tags it when asked to. */
  lemma MainBumps(args: Args, meta: string, pyproject: string, tags: set<string>,
                  gitAvailable: bool, fullMatch: bool)
    requires args.version.None? || args.version.value == ""
    requires args.bump.Some? && args.bump.value in Choices && !args.dryRun
    requires ReadVersion(meta, Meta).Ok? && ReadVersion(pyproject, Pyproject).Ok?
    ensures Bump(ReadVersion(meta, Meta).value, args.bump.value).Ok?
    ensures var v := Bump(ReadVersion(meta, Meta).value, args.bump.value).value;
            var r := MainOutcome(args, meta, pyproject, tags, gitAvailable, fullMatch);
      && r.status == Ok(0)
      && ReadVersion(r.meta, Meta) == Ok(v)
      && ReadVersion(r.pyproject, Pyproject) == Ok(v)
      && r.tags == (if args.tag && gitAvailable then tags + {"v" + v} else tags)
  {
    BumpOfRead(meta, args.bump.value);
    var v := Bump(ReadVersion(meta, Meta).value, args.bump.value).value;
    BumpIsTriple(ReadVersion(meta, Meta).value, args.bump.value);
    var a, b, c :| IsTriple(v, a, b, c);
    assert Chosen(args, ReadVersion(meta, Meta).value, fullMatch) == Ok(Some(v));
    TripleTagAccepted(v, a, b, c);
    UpdateSucceeds(meta, pyproject, tags, v, args.tag && gitAvailable);
    WriteThenRead(meta, Meta, v, a, b, c);
    WriteThenRead(pyproject, Pyproject, v, a, b, c);
  }

  /** A run with an explicit version that ends in a digit writes it into
      both files, where it reads back, and tags it when asked to; both
      validations accept it. */
  lemma MainSetsVersion(args: Args, meta: string, pyproject: string, tags: set<string>,
                        gitAvailable: bool, fullMatch: bool)
    requires args.version.Some? && Accepts(args.version.value, true)
    requires (args.bump.None? || args.bump.value in Choices) && !args.dryRun
    requires ReadVersion(meta, Meta).Ok? && ReadVersion(pyproject, Pyproject).Ok?
    ensures var v := args.version.value;
            var r := MainOutcome(args, meta, pyproject, tags, gitAvailable, fullMatch);
      && r.status == Ok(0)
      && ReadVersion(r.meta, Meta) == Ok(v)
      && ReadVersion(r.pyproject, Pyproject) == Ok(v)
      && r.tags == (if args.tag && gitAvailable then tags + {"v" + v} else tags)
  {
    var v := args.version.value;
    ParseSemverIff(v);
    var a, b, c :| IsTriple(Body(v), a, b, c);
    TripleTagAccepted(v, a, b, c);
    UpdateSucceeds(meta, pyproject, tags, v, args.tag && gitAvailable);
    WriteThenRead(meta, Meta, v, a, b, c);
    WriteThenRead(pyproject, Pyproject, v, a, b, c);
  }

  /** With the full-match validation, every run that writes leaves both
      files carrying one and the same valid version. */
  lemma MainKeepsFilesReadable(args: Args, meta: string, pyproject: string, tags: set<string>,
                               gitAvailable: bool)
    ensures var r := MainOutcome(args, meta, pyproject, tags, gitAvailable, true);
      r.status == Ok(0) && !args.dryRun ==>
        && ReadVersion(r.meta, Meta).Ok?
        && ReadVersion(r.pyproject, Pyproject) == ReadVersion(r.meta, Meta)
        && ParseSemver(ReadVersion(r.meta, Meta).value).Some?
  {
    var r := MainOutcome(args, meta, pyproject, tags, gitAvailable, true);
    if r.status == Ok(0) && !args.dryRun {
      if args.version.Some? && args.version.value != "" {
        MainSetsVersion(args, meta, pyproject, tags, gitAvailable, true);
      } else {
        MainBumps(args, meta, pyproject, tags, gitAvailable, true);
      }
      ReadParses(r.meta, Meta);
    }
  }

  /** No matching line start from `from` on means no match. */
  lemma {:induction false} FirstMatchNone(t: string, key: string, from: nat)
    requires from <= |t|
    requires forall q :: from <= q <= |t| && LineStart(t, q) ==> MatchAt(t, key, q).None?
    ensures FirstMatch(t, key, from).None?
    decreases |t| - from
  {
    if from < |t| {
      FirstMatchNone(t, key, from + 1);
    }
  }

  /** A version read from a file ends in a digit, never in a newline. */
  lemma ReadEndsInDigit(t: string, f: VersionFile)
    ensures ReadVersion(t, f).Ok? ==>
              var r := ReadVersion(t, f).value; |r| > 0 && IsAsciiDigit(r[|r| - 1])
  {
    if FirstMatch(t, Key(f), 0).Some? {
      MatchEndsInDigit(t, Key(f), FirstMatch(t, Key(f), 0).value.start);
    }
  }

  /** Group 2 of a match ends in a digit. */
  lemma MatchEndsInDigit(t: string, key: string, p: nat)
    requires p <= |t| && MatchAt(t, key, p).Some?
    ensures var m := MatchAt(t, key, p).value;
      var r := t[m.g1End..m.g2End]; |r| > 0 && IsAsciiDigit(r[|r| - 1])
  {
    var m := MatchAt(t, key, p).value;
    MatchParts(t, key, p);
    TripleEndsInDigit(t, m.g1End);
    var r := t[m.g1End..m.g2End];
    assert r[|r| - 1] == t[m.g2End - 1];
  }

  /** The `\d+\.\d+\.\d+` run ends in a digit. */
  lemma TripleEndsInDigit(t: string, i: nat)
    requires i <= |t| && Triple(t, i).Some?
    ensures IsAsciiDigit(t[Triple(t, i).value - 1])
  {
    var d1 := SkipDigits(t, i);
    var d2 := SkipDigits(t, d1 + 1);
    var d3 := SkipDigits(t, d2 + 1);
    SkipDigitsAll(t, d2 + 1);
    assert Triple(t, i).value == d3 && d2 + 1 <= d3 - 1;
  }

  /** Writing a version with a final newline breaks the line it rewrites:
      the newline now stands between the digits and the closing quote, so
      the pattern no longer matches there. */
  lemma NewlineLineBreaks(t: string, f: VersionFile, a: string, b: string, c: string)
    requires Digits(a) && Digits(b) && Digits(c)
    requires FirstMatch(t, Key(f), 0).Some?
    ensures var m := FirstMatch(t, Key(f), 0).value;
            var u := WriteVersion(t, f, a + "." + b + "." + c + "\n").value;
      m.start <= |u| && MatchAt(u, Key(f), m.start).None?
  {
    var m := FirstMatch(t, Key(f), 0).value;
    NewlineBreaksAt(t, Key(f), m.start, a, b, c);
  }

  /** The line at `p`, rewritten with a version and a final newline, no
      longer matches. */
  lemma NewlineBreaksAt(t: string, key: string, p: nat, a: string, b: string, c: string)
    requires Digits(a) && Digits(b) && Digits(c)
    requires p <= |t| && MatchAt(t, key, p).Some?
    ensures var m := MatchAt(t, key, p).value;
            var u := t[..m.g1End] + (a + "." + b + "." + c + "\n") + t[m.g2End..];
      p <= |u| && MatchAt(u, key, p).None?
  {
    var m := MatchAt(t, key, p).value;
    var g, e := m.g1End, m.g2End;
    var w := a + "." + b + "." + c;
    var v := w + "\n";
    var u := t[..g] + v + t[e..];
    MatchParts(t, key, p);
    Spliced(t, g, e, v);
    forall k | 0 <= k < |w|
      ensures u[g + k] == w[k]
    {
      assert u[g + k] == v[k];
    }
    assert u[g + |w|] == v[|w|];
    RewrittenBreaks(t, u, key, p, w, a, b, c);
  }

  /** After the text from `g` on is replaced by `w` and a newline, the line
      at `p` no longer matches. */
  lemma RewrittenBreaks(t: string, u: string, key: string, p: nat, w: string, a: string, b: string, c: string)
    requires p <= |t| && Opening(t, key, p).Some?
    requires IsTriple(w, a, b, c)
    requires var g := Opening(t, key, p).value;
      Agree(t, u, g) && g + |w| < |u| && u[g + |w|] == '\n'
      && forall k :: 0 <= k < |w| ==> u[g + k] == w[k]
    ensures p <= |u| && MatchAt(u, key, p).None?
  {
    var g := Opening(t, key, p).value;
    OpeningLocal(t, u, key, p, g);
    TripleOf(u, g, w, a, b, c);
  }


  /** A valid version with a final newline passes the validation as
      written and fails the full match. */
  lemma NewlineAccepted(a: string, b: string, c: string)
    requires Digits(a) && Digits(b) && Digits(c)
    ensures Accepts(a + "." + b + "." + c + "\n", false)
    ensures !Accepts(a + "." + b + "." + c + "\n", true)
  {
    var v := a + "." + b + "." + c + "\n";
    assert Body(v) == a + "." + b + "." + c;
    assert IsTriple(Body(v), a, b, c);
    ParseSemverIff(v);
  }

  /** As written, `$` lets a valid version followed by a newline through
      the validation: both files are rewritten, yet neither reads back the
      version it was given; the run returns 0 unless the tag is to be
      created, which git then refuses. The full-match validation refuses
      the version before anything is written. */
  lemma NewlineVersionBreaksFiles(args: Args, meta: string, pyproject: string, tags: set<string>,
                                  gitAvailable: bool, a: string, b: string, c: string)
    requires Digits(a) && Digits(b) && Digits(c)
    requires args.version == Some(a + "." + b + "." + c + "\n")
    requires (args.bump.None? || args.bump.value in Choices) && !args.dryRun
    requires ReadVersion(meta, Meta).Ok? && ReadVersion(pyproject, Pyproject).Ok?
    ensures var r := MainOutcome(args, meta, pyproject, tags, gitAvailable, false);
      && r.status == (if args.tag && gitAvailable && "v" + args.version.value !in tags
                      then Err(TagRefused) else Ok(0))
      && ReadVersion(r.meta, Meta) != Ok(args.version.value)
      && ReadVersion(r.pyproject, Pyproject) != Ok(args.version.value)
    ensures MainOutcome(args, meta, pyproject, tags, gitAvailable, true).status == Err(InvalidVersion)
  {
    var v := args.version.value;
    NewlineAccepted(a, b, c);
    assert v[|v| - 1] == '\n';
    NewlineTagRefused(v);
    assert Chosen(args, ReadVersion(meta, Meta).value, false) == Ok(Some(v));
    assert Chosen(args, ReadVersion(meta, Meta).value, true) == Err(InvalidVersion);
    UpdateSucceeds(meta, pyproject, tags, v, args.tag && gitAvailable);
    var r := MainOutcome(args, meta, pyproject, tags, gitAvailable, false);
    assert r == Update(meta, pyproject, tags, v, args.tag && gitAvailable);
    ReadEndsInDigit(r.meta, Meta);
    ReadEndsInDigit(r.pyproject, Pyproject);
  }
}
