/**
 * Lexical model of `(cookies_root / name).resolve()` and of the
 * "lies under the cookies root" test. A path is the list of its components
 * below `/`, so `[]` is `/` itself.
 */
module Paths {

  type Path = seq<string>

  /** A component that `resolve()` never leaves in a result. */
  predicate IsSpecial(c: string) {
    c == "" || c == "." || c == ".."
  }

  /** What `Path.resolve()` returns: no empty, `.` or `..` component, no `/` inside one. */
  predicate IsResolved(p: Path) {
    forall k :: 0 <= k < |p| ==> !IsSpecial(p[k]) && '/' !in p[k]
  }

  /** The cookies directory after `resolve()`. */
  type Root = p: Path | IsResolved(p) witness []

  /** The pieces of `s` between its `/` separators (Python's `s.split('/')`). */
  function SplitSlash(s: string): (parts: seq<string>)
    ensures |parts| >= 1
    ensures forall k :: 0 <= k < |parts| ==> '/' !in parts[k]
    ensures '/' !in s ==> parts == [s]
  {
    if s == [] then [[]]
    else
      var rest := SplitSlash(s[1..]);
      if s[0] == '/' then [[]] + rest
      else
        assert '/' !in s ==> '/' !in s[1..] && s == [s[0]] + s[1..];
        [[s[0]] + rest[0]] + rest[1..]
  }

  /** Python's `'/'.join(parts)`. */
  function JoinSlash(parts: seq<string>): string
    requires |parts| >= 1
  {
    if |parts| == 1 then parts[0] else parts[0] + "/" + JoinSlash(parts[1..])
  }

  /** Splitting loses nothing: joining the pieces again gives back the string. */
  lemma {:induction false} SplitJoin(s: string)
    ensures JoinSlash(SplitSlash(s)) == s
  {
    if s != [] {
      var rest := SplitSlash(s[1..]);
      SplitJoin(s[1..]);
      if s[0] == '/' {
        assert SplitSlash(s)[1..] == rest;
      } else if |rest| == 1 {
        assert s == [s[0]] + s[1..];
      } else {
        assert rest == [rest[0]] + rest[1..];
        assert JoinSlash(rest) == rest[0] + "/" + JoinSlash(rest[1..]);
        assert SplitSlash(s)[1..] == rest[1..];
        assert s == [s[0]] + s[1..];
      }
    }
  }

  /** Walks `parts` from `base`: empty and `.` stay, `..` goes up (not above `/`), a name goes down. */
  function Normalize(base: Path, parts: seq<string>): (r: Path)
    requires IsResolved(base)
    requires forall k :: 0 <= k < |parts| ==> '/' !in parts[k]
    ensures IsResolved(r)
    decreases |parts|
  {
    if parts == [] then base
    else
      var p := parts[0];
      var next :=
        if p == "" || p == "." then base
        else if p == ".." then (if base == [] then [] else base[..|base| - 1])
        else base + [p];
      Normalize(next, parts[1..])
  }

  /** `(root / name).resolve()`, without symbolic links: an absolute `name` replaces `root`. */
  function Resolve(root: Root, name: string): (r: Path)
    ensures IsResolved(r)
  {
    var base := if |name| > 0 && name[0] == '/' then [] else root;
    Normalize(base, SplitSlash(name))
  }

  /** `root in p.parents or p == root`. */
  predicate Within(root: Path, p: Path) {
    root <= p
  }

  /** Without a `..` component a walk never leaves the directory it starts in. */
  lemma {:induction false} NormalizeWithoutParentStaysWithin(base: Path, parts: seq<string>)
    requires IsResolved(base)
    requires forall k :: 0 <= k < |parts| ==> '/' !in parts[k] && parts[k] != ".."
    ensures Within(base, Normalize(base, parts))
    decreases |parts|
  {
    if parts != [] {
      var p := parts[0];
      var next := if p == "" || p == "." then base else base + [p];
      NormalizeWithoutParentStaysWithin(next, parts[1..]);
    }
  }

  /** A relative name with no `..` component resolves inside the root. */
  lemma RelativeWithoutParentStaysWithin(root: Root, name: string)
    requires |name| == 0 || name[0] != '/'
    requires ".." !in SplitSlash(name)
    ensures Within(root, Resolve(root, name))
  {
    NormalizeWithoutParentStaysWithin(root, SplitSlash(name));
  }

  /** A plain file name (no `/`, not `.` or `..`) resolves to the root's own child of that name. */
  lemma ResolvePlainName(root: Root, name: string)
    requires '/' !in name && !IsSpecial(name)
    ensures Resolve(root, name) == root + [name]
    ensures Within(root, Resolve(root, name))
  {
    assert SplitSlash(name) == [name];
    assert Normalize(root, [name]) == Normalize(root + [name], []);
  }

  /** The containment test does reject traversal: `..` leaves any root but `/`. */
  lemma ParentEscapes(root: Root)
    requires root != []
    ensures !Within(root, Resolve(root, ".."))
  {
    assert SplitSlash("..") == [".."];
    assert Normalize(root, [".."]) == Normalize(root[..|root| - 1], []);
  }
}
