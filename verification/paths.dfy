/**
 * POSIX path helpers as Python's `posixpath` computes them, purely on
 * strings: `join` (two arguments), `basename`, `dirname`, `normpath` and the
 * `~` form of `expanduser`.
 */
module Paths {
  import opened Strings

  /** `os.path.join(a, b)`: an absolute `b` discards `a`; otherwise one `/` separates them. */
  function Join(a: string, b: string): string {
    if IsPrefix("/", b) then b
    else if a == [] || a[|a| - 1] == '/' then a + b
    else a + "/" + b
  }

  /** Index of the last `c` in `s`, or -1. */
  function LastIndexOf(s: string, c: char): (i: int)
    ensures -1 <= i < |s|
    ensures i >= 0 ==> s[i] == c && c !in s[i + 1..]
    ensures i < 0 <==> c !in s
    decreases |s|
  {
    if s == [] then -1
    else if s[|s| - 1] == c then |s| - 1
    else
      var k := LastIndexOf(s[..|s| - 1], c);
      assert s == s[..|s| - 1] + [s[|s| - 1]];
      k
  }

  /** `os.path.basename(p)`: everything after the last `/`. */
  function Basename(p: string): (r: string)
    ensures '/' !in r
    ensures '/' !in p ==> r == p
  {
    p[LastIndexOf(p, '/') + 1..]
  }

  /** The basename is the suffix after the last `/`: the whole path, or preceded by a `/`. */
  lemma BasenameSuffix(p: string)
    ensures var b := Basename(p);
      && '/' !in b && |b| <= |p| && p == p[..|p| - |b|] + b
      && (|b| < |p| ==> p[|p| - |b| - 1] == '/')
  {
  }

  predicate AllSlashes(s: string) {
    forall k :: 0 <= k < |s| ==> s[k] == '/'
  }

  /** `s.rstrip('/')`. */
  function RStripSlash(s: string): (r: string)
    ensures |r| <= |s| && r == s[..|r|]
    ensures r == [] || r[|r| - 1] != '/'
    ensures AllSlashes(s[|r|..])
    decreases |s|
  {
    if s != [] && s[|s| - 1] == '/' then RStripSlash(s[..|s| - 1]) else s
  }

  /**
   * `os.path.dirname(p)`: everything up to the last `/`, with trailing
   * slashes removed unless the head consists of slashes only.
   */
  function Dirname(p: string): (r: string)
    ensures |r| <= |p| && r == p[..|r|]
    ensures '/' !in p ==> r == []
  {
    var head := p[..LastIndexOf(p, '/') + 1];
    if head != [] && !AllSlashes(head) then RStripSlash(head) else head
  }

  /**
   * The directory part is the path before its basename, kept as it is when
   * it is all slashes and otherwise without its trailing slashes.
   */
  lemma DirnameHead(p: string)
    ensures var head := p[..|p| - |Basename(p)|]; var d := Dirname(p);
      && (AllSlashes(head) ==> d == head)
      && (!AllSlashes(head) ==> d != [] && d[|d| - 1] != '/' && |d| <= |head| && d == head[..|d|] && AllSlashes(head[|d|..]))
  {
  }

  /** The directory of `d/b`, for a name `b` without slashes, is `d` itself when `d` has no trailing slash. */
  lemma DirnameOfChild(d: string, b: string)
    requires d != [] && d[|d| - 1] != '/' && '/' !in b
    ensures Dirname(d + "/" + b) == d
  {
    var p := d + "/" + b;
    var i := LastIndexOf(p, '/');
    assert p[|d|] == '/';
    assert p[|d| + 1..] == b;
    assert p[..i + 1] == d + "/";
    assert !AllSlashes(d + "/") by { assert (d + "/")[|d| - 1] == d[|d| - 1]; }
    assert (d + "/")[..|d|] == d;
  }

  /** A path naming something below a directory is longer than that directory's path. */
  lemma DirnameShorter(p: string)
    requires Basename(p) != []
    ensures |Dirname(p)| < |p|
  {
  }

  /** Python's `'/' * n`. */
  function Slashes(n: nat): (r: string)
    ensures |r| == n && AllSlashes(r)
  {
    if n == 0 then [] else "/" + Slashes(n - 1)
  }

  /** One step of `normpath`'s component loop. */
  function NormStep(acc: seq<string>, comp: string, absolute: bool): seq<string> {
    if comp == "" || comp == "." then acc
    else if comp != ".." || (!absolute && acc == []) || (acc != [] && acc[|acc| - 1] == "..") then acc + [comp]
    else if acc != [] then acc[..|acc| - 1]
    else acc
  }

  function NormComps(comps: seq<string>, acc: seq<string>, absolute: bool): seq<string>
    decreases |comps|
  {
    if comps == [] then acc else NormComps(comps[1..], NormStep(acc, comps[0], absolute), absolute)
  }

  /** Number of leading slashes `normpath` keeps: two stay two, any other count becomes one. */
  function LeadingSlashes(p: string): nat {
    if IsPrefix("//", p) && !IsPrefix("///", p) then 2
    else if IsPrefix("/", p) then 1
    else 0
  }

  /**
   * `os.path.normpath(p)`: drops empty and `.` components, resolves `..`
   * lexically, keeps the leading slashes, and gives `.` for an empty result.
   */
  function Normpath(p: string): (r: string)
    ensures r != []
  {
    if p == [] then "."
    else
      var k := LeadingSlashes(p);
      var body := Slashes(k) + JoinWith(NormComps(SplitOn(p, '/'), [], k > 0), "/");
      if body == [] then "." else body
  }

  /** A name `normpath` leaves alone when it is the last component. */
  predicate PlainSegment(n: string) {
    n != "" && n != "." && n != ".." && '/' !in n
  }

  lemma {:induction false} NormCompsSnoc(comps: seq<string>, acc: seq<string>, absolute: bool, n: string)
    ensures NormComps(comps + [n], acc, absolute) == NormStep(NormComps(comps, acc, absolute), n, absolute)
    decreases |comps|
  {
    if comps == [] {
      assert [] + [n] == [n];
    } else {
      assert (comps + [n])[1..] == comps[1..] + [n];
      NormCompsSnoc(comps[1..], NormStep(acc, comps[0], absolute), absolute, n);
    }
  }

  /** `split` at a separator found at `i`: the piece before it, then the split of the rest. */
  lemma SplitOnAt(s: string, c: char, i: int)
    requires 0 <= i < |s| && IndexOf(s, c) == i
    ensures SplitOn(s, c) == [s[..i]] + SplitOn(s[i + 1..], c)
  {
  }

  lemma SplitOnNone(s: string, c: char)
    requires c !in s
    ensures SplitOn(s, c) == [s]
  {
  }

  lemma SplitOnSnocBase(s: string, n: string)
    requires '/' !in n && '/' !in s
    ensures SplitOn(s + "/" + n, '/') == [s, n]
  {
    var t := s + "/" + n;
    assert t[..|s|] == s && t[|s| + 1..] == n;
    IndexOfUnique(t, '/', |s|);
    SplitOnAt(t, '/', |s|);
    SplitOnNone(n, '/');
  }

  lemma SlicesAround(s: string, n: string, i: int)
    requires 0 <= i < |s|
    ensures (s + "/" + n)[..i] == s[..i]
    ensures (s + "/" + n)[i + 1..] == s[i + 1..] + "/" + n
  {
  }

  lemma SnocAfterCons<T>(h: T, tail: seq<T>, n: T)
    ensures [h] + (tail + [n]) == ([h] + tail) + [n]
  {
  }

  lemma {:induction false} SplitOnSnoc(s: string, n: string)
    requires '/' !in n
    ensures SplitOn(s + "/" + n, '/') == SplitOn(s, '/') + [n]
    decreases |s|
  {
    var i := IndexOf(s, '/');
    if i < 0 {
      SplitOnSnocBase(s, n);
      SplitOnNone(s, '/');
    } else {
      var t := s + "/" + n;
      SplitOnSnoc(s[i + 1..], n);
      SlicesAround(s, n, i);
      IndexOfUnique(t, '/', i);
      SplitOnAt(t, '/', i);
      SplitOnAt(s, '/', i);
      SnocAfterCons(s[..i], SplitOn(s[i + 1..], '/'), n);
    }
  }

  lemma BasenameAfterSlash(q: string, n: string)
    requires '/' !in n
    requires q == [] || q[|q| - 1] == '/'
    ensures Basename(q + n) == n
  {
    var s := q + n;
    if q == [] {
      assert s == n;
    } else {
      assert s[|q| - 1] == '/';
      assert s[|q|..] == n;
      assert '/' !in s[|q|..];
    }
  }

  lemma {:induction false} JoinWithSnocSlash(parts: seq<string>, n: string)
    ensures JoinWith(parts + [n], "/") == if parts == [] then n else JoinWith(parts, "/") + "/" + n
    decreases |parts|
  {
    var p := parts + [n];
    if |parts| > 1 {
      assert p[0] == parts[0] && p[1..] == parts[1..] + [n];
      JoinWithSnocSlash(parts[1..], n);
      assert JoinWith(p, "/") == parts[0] + "/" + JoinWith(parts[1..] + [n], "/");
      assert JoinWith(parts, "/") == parts[0] + "/" + JoinWith(parts[1..], "/");
    } else if |parts| == 1 {
      assert p == [parts[0], n] && p[1..] == [n];
    } else {
      assert p == [n];
    }
  }

  lemma NormpathUnfold(j: string, body: string)
    requires j != []
    requires body == Slashes(LeadingSlashes(j)) + JoinWith(NormComps(SplitOn(j, '/'), [], LeadingSlashes(j) > 0), "/")
    requires body != []
    ensures Normpath(j) == body
  {
  }

  lemma NormpathLastComponent(j: string, pre: seq<string>, n: string)
    requires PlainSegment(n)
    requires SplitOn(j, '/') == pre + [n]
    ensures Basename(Normpath(j)) == n
  {
    assert j != [];
    var k := LeadingSlashes(j);
    NormCompsSnoc(pre, [], k > 0, n);
    var acc := NormComps(pre, [], k > 0);
    assert NormStep(acc, n, k > 0) == acc + [n];
    assert NormComps(SplitOn(j, '/'), [], k > 0) == acc + [n];
    var body := Slashes(k) + JoinWith(acc + [n], "/");
    assert body != [] by {
      assert |Slashes(k) + JoinWith(acc + [n], "/")| >= |JoinWith(acc + [n], "/")|;
      JoinWithSnocSlash(acc, n);
    }
    NormpathUnfold(j, body);
    BasenameOfJoined(Slashes(k), acc, n);
  }

  lemma BasenameOfJoined(pfx: string, acc: seq<string>, n: string)
    requires pfx == [] || pfx[|pfx| - 1] == '/'
    requires '/' !in n
    ensures Basename(pfx + JoinWith(acc + [n], "/")) == n
  {
    JoinWithSnocSlash(acc, n);
    if acc == [] {
      BasenameAfterSlash(pfx, n);
    } else {
      var q := pfx + JoinWith(acc, "/") + "/";
      assert pfx + JoinWith(acc + [n], "/") == q + n;
      BasenameAfterSlash(q, n);
    }
  }

  /**
   * Joining a plain file name onto any directory and normalising keeps that
   * name as the final component: the link is always named after the file.
   */
  lemma NormpathKeepsName(d: string, n: string)
    requires PlainSegment(n)
    ensures Basename(Normpath(Join(d, n))) == n
  {
    var j := Join(d, n);
    assert n[0] != '/' && n[..1] == [n[0]];
    if d == [] {
      assert j == n;
      assert SplitOn(j, '/') == [] + [n];
      NormpathLastComponent(j, [], n);
    } else {
      var base := if d[|d| - 1] == '/' then d[..|d| - 1] else d;
      assert j == base + "/" + n;
      SplitOnSnoc(base, n);
      NormpathLastComponent(j, SplitOn(base, '/'), n);
    }
  }

  /**
   * `os.path.expanduser(p)` for the current user whose `$HOME` is `home`:
   * a leading `~` (alone or followed by `/`) becomes `home` without its
   * trailing slashes, and the result is `/` if that leaves nothing. The
   * `~user` form, which needs the password database, is returned unchanged,
   * as Python does for an unknown user.
   */
  function ExpandUser(home: string, p: string): (r: string)
    ensures !IsPrefix("~", p) ==> r == p
    ensures p != [] ==> r != []
    ensures p == "~" ==> r == if RStripSlash(home) == [] then "/" else RStripSlash(home)
    ensures IsPrefix("~/", p) ==> r == RStripSlash(home) + p[1..]
    ensures IsPrefix("~", p) && |p| > 1 && p[1] != '/' ==> r == p
  {
    if !IsPrefix("~", p) then p
    else
      var i := IndexOf(p[1..], '/');
      var cut := if i < 0 then |p| else i + 1;
      if cut != 1 then p
      else
        var r := RStripSlash(home) + p[1..];
        if r == [] then "/" else r
  }
}
