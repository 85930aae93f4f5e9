/**
 * The string operations the launcher applies to environment values and
 * cookie file names: Python's `str.strip()`, the case-insensitive `.json`
 * suffix test and POSIX `os.path.basename`.
 */
module Text {

  /** Python's `str.isspace()` for one character: the characters `str.strip()` removes. */
  predicate IsSpace(c: char) {
    || ('\U{9}' <= c <= '\U{D}')
    || ('\U{1C}' <= c <= '\U{20}')
    || c == '\U{85}' || c == '\U{A0}' || c == '\U{1680}'
    || ('\U{2000}' <= c <= '\U{200A}')
    || c == '\U{2028}' || c == '\U{2029}' || c == '\U{202F}'
    || c == '\U{205F}' || c == '\U{3000}'
  }

  predicate AllSpace(s: string) {
    forall i :: 0 <= i < |s| ==> IsSpace(s[i])
  }

  /** Index of the first non-blank character, or |s| when there is none. */
  function FirstNonSpace(s: string): (k: nat)
    ensures k <= |s|
    ensures AllSpace(s[..k])
    ensures k < |s| ==> !IsSpace(s[k])
  {
    if s == [] || !IsSpace(s[0]) then 0
    else
      var k' := FirstNonSpace(s[1..]);
      assert s[..k' + 1] == [s[0]] + s[1..][..k'];
      k' + 1
  }

  /** Index just past the last non-blank character, or 0 when there is none. */
  function EndNonSpace(s: string): (k: nat)
    ensures k <= |s|
    ensures AllSpace(s[k..])
    ensures 0 < k ==> !IsSpace(s[k - 1])
  {
    if s == [] || !IsSpace(s[|s| - 1]) then |s|
    else
      var k := EndNonSpace(s[..|s| - 1]);
      assert s[k..] == s[..|s| - 1][k..] + [s[|s| - 1]];
      k
  }

  /** `r` is the slice s[i..j] of `s`, has only blanks around it, and neither starts nor ends with a blank. */
  ghost predicate StripAt(r: string, s: string, i: int, j: int) {
    && 0 <= i <= j <= |s|
    && r == s[i..j]
    && AllSpace(s[..i])
    && AllSpace(s[j..])
    && (r == [] || (!IsSpace(r[0]) && !IsSpace(r[|r| - 1])))
  }

  /** `r` is what `str.strip()` makes of `s`. */
  ghost predicate IsStripOf(r: string, s: string) {
    exists i, j :: StripAt(r, s, i, j)
  }

  /** Python's `str.strip()` with no arguments. */
  function Strip(s: string): (r: string)
    ensures IsStripOf(r, s)
    ensures r == [] <==> AllSpace(s)
  {
    var i := FirstNonSpace(s);
    var e := EndNonSpace(s[i..]);
    assert s[i..][e..] == s[i + e..];
    assert i < |s| ==> 0 < e && s[i..i + e][0] == s[i];
    assert StripAt(s[i..i + e], s, i, i + e);
    s[i..i + e]
  }

  /** A strip is empty exactly when the whole string is blank. */
  lemma StripEmptyIff(r: string, s: string, i: int, j: int)
    requires StripAt(r, s, i, j)
    ensures r == [] <==> AllSpace(s)
  {
    if r == [] {
      forall k | 0 <= k < |s| ensures IsSpace(s[k]) {
        if k < i { assert s[..i][k] == s[k]; } else { assert s[j..][k - j] == s[k]; }
      }
    } else {
      assert s[i] == r[0];
    }
  }

  /** Two non-empty strips of one string start and end at the same place. */
  lemma NonEmptyStripBounds(r1: string, r2: string, s: string, i1: int, j1: int, i2: int, j2: int)
    requires StripAt(r1, s, i1, j1) && r1 != []
    requires StripAt(r2, s, i2, j2) && r2 != []
    ensures i2 <= i1 && j1 <= j2
  {
    assert s[i1] == r1[0] && s[j1 - 1] == r1[|r1| - 1];
    forall k | 0 <= k < i2 ensures IsSpace(s[k]) { assert s[..i2][k] == s[k]; }
    forall k | j2 <= k < |s| ensures IsSpace(s[k]) { assert s[j2..][k - j2] == s[k]; }
  }

  /** The strip of a string is unique: IsStripOf determines the result. */
  lemma StripOfUnique(r1: string, r2: string, s: string)
    requires IsStripOf(r1, s) && IsStripOf(r2, s)
    ensures r1 == r2
  {
    var i1, j1 :| StripAt(r1, s, i1, j1);
    var i2, j2 :| StripAt(r2, s, i2, j2);
    StripEmptyIff(r1, s, i1, j1);
    StripEmptyIff(r2, s, i2, j2);
    if !AllSpace(s) {
      NonEmptyStripBounds(r1, r2, s, i1, j1, i2, j2);
      NonEmptyStripBounds(r2, r1, s, i2, j2, i1, j1);
    }
  }

  lemma {:induction false} StripIdempotent(s: string)
    ensures Strip(Strip(s)) == Strip(s)
  {
    var r := Strip(s);
    var i, j :| StripAt(r, s, i, j);
    assert r[..0] == [] && r[|r|..] == [] && r[0..|r|] == r;
    assert StripAt(r, r, 0, |r|);
    StripOfUnique(Strip(r), r, r);
  }

  /** Python's `str.lower()` on one character, for ASCII letters. */
  function LowerChar(c: char): (l: char)
    ensures 'A' <= c <= 'Z' ==> 'a' <= l <= 'z' && l as int - c as int == 32
    ensures !('A' <= c <= 'Z') ==> l == c
  {
    if 'A' <= c <= 'Z' then (c as int - 'A' as int + 'a' as int) as char else c
  }

  function Lower(s: string): (l: string)
    ensures |l| == |s|
    ensures forall i :: 0 <= i < |s| ==> l[i] == LowerChar(s[i])
  {
    seq(|s|, i requires 0 <= i < |s| => LowerChar(s[i]))
  }

  predicate EndsWith(s: string, suffix: string) {
    |suffix| <= |s| && s[|s| - |suffix|..] == suffix
  }

  /** `name.lower().endswith('.json')`. */
  predicate IsJsonName(name: string) {
    EndsWith(Lower(name), ".json")
  }

  /** The test accepts exactly the names whose last five characters spell `.json` in any letter case. */
  lemma IsJsonNameIff(name: string)
    ensures IsJsonName(name) <==>
      && |name| >= 5
      && name[|name| - 5] == '.'
      && name[|name| - 4] in "jJ"
      && name[|name| - 3] in "sS"
      && name[|name| - 2] in "oO"
      && name[|name| - 1] in "nN"
  {
    var l := Lower(name);
    if |name| >= 5 {
      var n := |name|;
      assert l[n - 5..] == [l[n - 5], l[n - 4], l[n - 3], l[n - 2], l[n - 1]];
    }
  }

  /** `p.rfind('/')`: the index of the last `/`, or -1 when there is none. */
  function RFindSlash(p: string): (k: int)
    ensures -1 <= k < |p|
    ensures 0 <= k ==> p[k] == '/'
    ensures forall j :: k < j < |p| ==> p[j] != '/'
  {
    if p == [] then -1
    else if p[|p| - 1] == '/' then |p| - 1
    else RFindSlash(p[..|p| - 1])
  }

  /** POSIX `os.path.basename`: `p[p.rfind('/') + 1:]`, the text after the last `/`. */
  function Basename(p: string): (r: string)
    ensures '/' !in r
    ensures |r| <= |p| && r == p[|p| - |r|..]
    ensures '/' in p ==> p[|p| - |r| - 1] == '/'
    ensures '/' !in p ==> r == p
  {
    var k := RFindSlash(p);
    p[k + 1..]
  }

  /** A name is its own base name exactly when it has no `/`. */
  lemma BasenameFixedIff(p: string)
    ensures Basename(p) == p <==> '/' !in p
  {
    var k := RFindSlash(p);
    if 0 <= k {
      assert p[k] in p;
      assert |Basename(p)| < |p|;
    } else {
      assert p[k + 1..] == p;
    }
  }
}
