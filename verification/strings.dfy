/**
 * The handful of Python `str` operations the linker relies on, written out
 * over `seq<char>`: substring search (`in`, `find`), `replace` (bounded and
 * unbounded), `split()` on whitespace, `split(sep)` on one character,
 * `sep.join`, ASCII `lower()`, and decimal formatting of a count.
 */
module Strings {

  /** `p` is a prefix of `s`. */
  predicate IsPrefix(p: string, s: string) {
    |p| <= |s| && s[..|p|] == p
  }

  /** `sub` occurs in `s` starting at index `i`. */
  predicate OccursAt(s: string, sub: string, i: int) {
    0 <= i && i + |sub| <= |s| && s[i..i + |sub|] == sub
  }

  /** Python's `sub in s`; the empty string occurs in every string. */
  predicate Contains(s: string, sub: string) {
    exists i :: 0 <= i <= |s| && OccursAt(s, sub, i)
  }

  lemma OccursShift(s: string, sub: string, j: int)
    requires |s| > 0 && 0 <= j
    ensures OccursAt(s[1..], sub, j) <==> OccursAt(s, sub, j + 1)
  {
    if j + |sub| <= |s| - 1 {
      assert s[1..][j..j + |sub|] == s[j + 1..j + 1 + |sub|];
    }
  }

  /**
   * Python's `s.find(sub)`: the index of the leftmost occurrence of `sub`,
   * or -1 when there is none.
   */
  function Find(s: string, sub: string): (i: int)
    ensures -1 <= i <= |s|
    ensures i >= 0 ==> OccursAt(s, sub, i)
    ensures i >= 0 ==> forall j :: 0 <= j < i ==> !OccursAt(s, sub, j)
    ensures i < 0 <==> !Contains(s, sub)
    decreases |s|
  {
    if IsPrefix(sub, s) then assert OccursAt(s, sub, 0); 0
    else if |s| == 0 then -1
    else
      var k := Find(s[1..], sub);
      FindStep(s, sub, k);
      if k < 0 then -1 else k + 1
  }

  /** One step of the search: what the tail's answer says about the whole string. */
  lemma FindStep(s: string, sub: string, k: int)
    requires |s| > 0 && !IsPrefix(sub, s)
    requires k >= 0 ==> OccursAt(s[1..], sub, k)
    requires k >= 0 ==> forall j :: 0 <= j < k ==> !OccursAt(s[1..], sub, j)
    requires k < 0 ==> !Contains(s[1..], sub)
    ensures k >= 0 ==> OccursAt(s, sub, k + 1)
    ensures k >= 0 ==> forall j :: 0 <= j < k + 1 ==> !OccursAt(s, sub, j)
    ensures k < 0 ==> !Contains(s, sub)
  {
    if k >= 0 {
      OccursShift(s, sub, k);
      forall j | 0 < j < k + 1
        ensures !OccursAt(s, sub, j)
      {
        OccursShift(s, sub, j - 1);
      }
    } else {
      forall j | 0 < j <= |s|
        ensures !OccursAt(s, sub, j)
      {
        OccursShift(s, sub, j - 1);
        if OccursAt(s[1..], sub, j - 1) {
          assert 0 <= j - 1 <= |s[1..]|;
        }
      }
    }
  }

  /** Python's `s.replace(pat, rep, 1)`: replace the leftmost occurrence only. */
  function ReplaceFirst(s: string, pat: string, rep: string): string {
    var i := Find(s, pat);
    if i < 0 then s else s[..i] + rep + s[i + |pat|..]
  }

  lemma ReplaceFirstAbsent(s: string, pat: string, rep: string)
    requires !Contains(s, pat)
    ensures ReplaceFirst(s, pat, rep) == s
  {
  }

  /**
   * Python's `s.replace(pat, rep)`: every non-overlapping occurrence, scanned
   * left to right. An empty `pat` inserts `rep` before every character and at
   * the end, as Python does.
   */
  function ReplaceAll(s: string, pat: string, rep: string): (r: string)
    ensures pat != [] && !Contains(s, pat) ==> r == s
    ensures pat != [] && |rep| <= |pat| ==> |r| <= |s|
    decreases |s|
  {
    if pat == [] then InsertEverywhere(s, rep)
    else
      var i := Find(s, pat);
      if i < 0 then s
      else s[..i] + rep + ReplaceAll(s[i + |pat|..], pat, rep)
  }

  /** Replacing all occurrences in a string that starts with the pattern, and holds no other. */
  lemma ReplaceAllPrefix(pat: string, rest: string, rep: string)
    requires pat != [] && !Contains(rest, pat)
    ensures ReplaceAll(pat + rest, pat, rep) == rep + rest
  {
    var s := pat + rest;
    assert IsPrefix(pat, s);
    assert Find(s, pat) == 0;
    assert s[|pat|..] == rest;
  }

  function InsertEverywhere(s: string, rep: string): string
    decreases |s|
  {
    if s == [] then rep else rep + [s[0]] + InsertEverywhere(s[1..], rep)
  }

  /** The characters Python's argument-less `str.split()` treats as separators. */
  predicate IsSpace(c: char) {
    var n := c as int;
    (9 <= n <= 13) || (28 <= n <= 32) || n == 0x85 || n == 0xA0 || n == 0x1680
    || (0x2000 <= n <= 0x200A) || n == 0x2028 || n == 0x2029 || n == 0x202F
    || n == 0x205F || n == 0x3000
  }

  predicate NoSpace(t: string) {
    forall k :: 0 <= k < |t| ==> !IsSpace(t[k])
  }

  predicate AllSpace(t: string) {
    forall k :: 0 <= k < |t| ==> IsSpace(t[k])
  }

  /** Length of the run of non-separator characters at the head of `s`. */
  function TokenLen(s: string): (n: nat)
    ensures n <= |s|
    ensures NoSpace(s[..n])
    ensures n < |s| ==> IsSpace(s[n])
    decreases |s|
  {
    if s == [] || IsSpace(s[0]) then 0
    else
      var k := TokenLen(s[1..]);
      assert s[..k + 1] == [s[0]] + s[1..][..k];
      1 + k
  }

  /**
   * Python's `s.split()`: the maximal runs of non-whitespace characters, in
   * order, duplicates kept; leading, trailing and repeated whitespace vanish.
   */
  function SplitWs(s: string): (toks: seq<string>)
    ensures forall k :: 0 <= k < |toks| ==> |toks[k]| > 0 && NoSpace(toks[k])
    decreases |s|
  {
    if s == [] then []
    else if IsSpace(s[0]) then SplitWs(s[1..])
    else
      var n := TokenLen(s);
      [s[..n]] + SplitWs(s[n..])
  }

  /** Python's `sep.join(parts)`. */
  function JoinWith(parts: seq<string>, sep: string): string
    decreases |parts|
  {
    if parts == [] then []
    else if |parts| == 1 then parts[0]
    else parts[0] + sep + JoinWith(parts[1..], sep)
  }

  /** A join starts with the first part's first character. */
  lemma JoinWithHead(parts: seq<string>, sep: string)
    requires parts != [] && parts[0] != []
    ensures JoinWith(parts, sep) != [] && JoinWith(parts, sep)[0] == parts[0][0]
  {
  }

  lemma TokenLenOfToken(t: string, rest: string)
    requires |t| > 0 && NoSpace(t)
    requires rest == [] || IsSpace(rest[0])
    ensures TokenLen(t + rest) == |t|
    decreases |t|
  {
    if |t| > 1 {
      assert (t + rest)[1..] == t[1..] + rest;
      TokenLenOfToken(t[1..], rest);
    } else {
      assert (t + rest)[1..] == rest;
    }
  }

  /** Splitting never yields a token for a string of separators, and only for one. */
  lemma {:induction false} SplitWsEmptyIff(s: string)
    ensures SplitWs(s) == [] <==> AllSpace(s)
    decreases |s|
  {
    if s != [] && IsSpace(s[0]) {
      SplitWsEmptyIff(s[1..]);
      if AllSpace(s[1..]) {
        forall k | 0 <= k < |s| ensures IsSpace(s[k]) {
          if k > 0 {
            assert s[k] == s[1..][k - 1];
          }
        }
      }
    }
  }

  /**
   * Round trip: joining whitespace-free, non-empty tokens with single spaces
   * and splitting again gives back the same tokens, in order and with
   * duplicates.
   */
  lemma {:induction false} SplitWsJoin(toks: seq<string>)
    requires forall k :: 0 <= k < |toks| ==> |toks[k]| > 0 && NoSpace(toks[k])
    ensures SplitWs(JoinWith(toks, " ")) == toks
    decreases |toks|
  {
    if |toks| == 1 {
      TokenLenOfToken(toks[0], []);
      assert toks[0] + [] == toks[0];
      assert toks[0][|toks[0]|..] == [];
    } else if |toks| > 1 {
      var rest := JoinWith(toks[1..], " ");
      var s := toks[0] + " " + rest;
      assert s == toks[0] + (" " + rest);
      TokenLenOfToken(toks[0], " " + rest);
      assert s[..|toks[0]|] == toks[0];
      assert s[|toks[0]|..] == " " + rest;
      assert (" " + rest)[1..] == rest;
      SplitWsJoin(toks[1..]);
      assert toks == [toks[0]] + toks[1..];
    }
  }

  /** `ws[0] + toks[0] + ws[1] + ... + toks[n - 1] + ws[n]`: tokens set between runs of separators. */
  function Spaced(ws: seq<string>, toks: seq<string>): string
    requires |ws| == |toks| + 1
    decreases |toks|
  {
    if toks == [] then ws[0] else ws[0] + toks[0] + Spaced(ws[1..], toks[1..])
  }

  /** Leading separators do not change what `split()` yields. */
  lemma {:induction false} SplitWsSkip(w: string, s: string)
    requires AllSpace(w)
    ensures SplitWs(w + s) == SplitWs(s)
    decreases |w|
  {
    if w != [] {
      assert (w + s)[1..] == w[1..] + s;
      SplitWsSkip(w[1..], s);
    } else {
      assert w + s == s;
    }
  }

  /**
   * `split()` takes apart any string built from whitespace-free tokens
   * separated by non-empty runs of separators, with separators of any length
   * (none included) before the first and after the last: it gives back
   * exactly the tokens, in order and with duplicates.
   */
  lemma {:induction false} SplitWsSpaced(ws: seq<string>, toks: seq<string>)
    requires |ws| == |toks| + 1
    requires forall k :: 0 <= k < |ws| ==> AllSpace(ws[k])
    requires forall k :: 0 < k < |toks| ==> ws[k] != []
    requires forall k :: 0 <= k < |toks| ==> |toks[k]| > 0 && NoSpace(toks[k])
    ensures SplitWs(Spaced(ws, toks)) == toks
    decreases |toks|
  {
    if toks == [] {
      SplitWsEmptyIff(ws[0]);
    } else {
      var t := toks[0];
      var rest := Spaced(ws[1..], toks[1..]);
      assert ws[0] + t + rest == ws[0] + (t + rest);
      SplitWsSkip(ws[0], t + rest);
      SpacedHead(ws[1..], toks[1..]);
      TokenLenOfToken(t, rest);
      assert (t + rest)[0] == t[0];
      assert (t + rest)[..|t|] == t && (t + rest)[|t|..] == rest;
      SplitWsSpaced(ws[1..], toks[1..]);
      assert toks == [t] + toks[1..];
    }
  }

  /** A string built by `Spaced` starts with a separator unless its first run is empty. */
  lemma SpacedHead(ws: seq<string>, toks: seq<string>)
    requires |ws| == |toks| + 1 && AllSpace(ws[0])
    requires toks != [] ==> ws[0] != []
    ensures var s := Spaced(ws, toks); s == [] || IsSpace(s[0])
  {
    if toks != [] {
      assert Spaced(ws, toks)[0] == ws[0][0];
    }
  }

  /** Python's `s.find(c)` for a single character. */
  function IndexOf(s: string, c: char): (i: int)
    ensures -1 <= i < |s|
    ensures i >= 0 ==> s[i] == c && c !in s[..i]
    ensures i < 0 <==> c !in s
    decreases |s|
  {
    if s == [] then -1
    else if s[0] == c then 0
    else
      var k := IndexOf(s[1..], c);
      if k < 0 then -1
      else
        assert s[..k + 1] == [s[0]] + s[1..][..k];
        k + 1
  }

  /** The first occurrence of `c` is the one `find` reports. */
  lemma IndexOfUnique(s: string, c: char, i: int)
    requires 0 <= i < |s| && s[i] == c && c !in s[..i]
    ensures IndexOf(s, c) == i
  {
  }

  /**
   * Python's `s.split(c)` for a one-character separator: the pieces between
   * separators, empty ones included, so there is always at least one.
   */
  function SplitOn(s: string, c: char): (parts: seq<string>)
    ensures |parts| >= 1
    ensures forall k :: 0 <= k < |parts| ==> c !in parts[k]
    ensures JoinWith(parts, [c]) == s
    decreases |s|
  {
    var i := IndexOf(s, c);
    if i < 0 then [s]
    else
      var rest := SplitOn(s[i + 1..], c);
      SplitOnStep(s, c, i, rest);
      [s[..i]] + rest
  }

  /** The step of `SplitOn`: one more piece in front keeps its three promises. */
  lemma SplitOnStep(s: string, c: char, i: int, rest: seq<string>)
    requires 0 <= i < |s| && s[i] == c && c !in s[..i]
    requires |rest| >= 1 && (forall k :: 0 <= k < |rest| ==> c !in rest[k])
    requires JoinWith(rest, [c]) == s[i + 1..]
    ensures var parts := [s[..i]] + rest;
      && (forall k :: 0 <= k < |parts| ==> c !in parts[k])
      && JoinWith(parts, [c]) == s
  {
    var parts := [s[..i]] + rest;
    assert forall k :: 0 < k < |parts| ==> parts[k] == rest[k - 1];
    JoinWithCons(s[..i], rest, [c]);
    assert s == s[..i] + [c] + s[i + 1..];
  }

  /** Joining a non-empty list after one more part puts one separator between. */
  lemma JoinWithCons(p: string, rest: seq<string>, sep: string)
    requires rest != []
    ensures JoinWith([p] + rest, sep) == p + sep + JoinWith(rest, sep)
  {
    assert ([p] + rest)[1..] == rest;
  }

  /** The piece of `s` before the first `c` is its first `split(c)` field. */
  lemma SplitOnHead(s: string, c: char)
    ensures SplitOn(s, c)[0] == (if c in s then s[..IndexOf(s, c)] else s)
    ensures |SplitOn(s, c)| > 1 <==> c in s
  {
  }

  function LowerChar(c: char): char {
    if 'A' <= c <= 'Z' then (c as int + 32) as char else c
  }

  predicate IsUpper(c: char) {
    'A' <= c <= 'Z'
  }

  /**
   * ASCII `str.lower()`: no capital is left, each capital becomes the letter
   * 32 code points above it, and every other character is kept in place.
   */
  function Lower(s: string): (r: string)
    ensures |r| == |s|
    ensures forall k :: 0 <= k < |r| ==> !IsUpper(r[k])
    ensures forall k :: 0 <= k < |s| && IsUpper(s[k]) ==> r[k] as int == s[k] as int + 32
    ensures forall k :: 0 <= k < |s| && !IsUpper(s[k]) ==> r[k] == s[k]
  {
    seq(|s|, k requires 0 <= k < |s| => LowerChar(s[k]))
  }

  /** A string is its own lower case exactly when it holds no capital; so lower-casing twice changes nothing more. */
  lemma LowerFixes(s: string)
    ensures Lower(s) == s <==> forall k :: 0 <= k < |s| ==> !IsUpper(s[k])
    ensures Lower(Lower(s)) == Lower(s)
  {
    if Lower(s) == s {
      forall k | 0 <= k < |s| ensures !IsUpper(s[k]) {
        assert Lower(s)[k] == s[k];
      }
    }
    if forall k :: 0 <= k < |s| ==> !IsUpper(s[k]) {
      assert forall k :: 0 <= k < |s| ==> Lower(s)[k] == s[k];
    }
    var r := Lower(s);
    assert forall k :: 0 <= k < |r| ==> Lower(r)[k] == r[k];
  }

  predicate IsDigit(c: char) {
    '0' <= c <= '9'
  }

  function DigitChar(d: nat): (c: char)
    requires d < 10
    ensures IsDigit(c) && c as int - '0' as int == d
  {
    (d + '0' as int) as char
  }

  /** Python's `str(n)` for a natural number. */
  function NatToString(n: nat): (r: string)
    ensures |r| >= 1
    ensures forall k :: 0 <= k < |r| ==> IsDigit(r[k])
    decreases n
  {
    if n < 10 then [DigitChar(n)] else NatToString(n / 10) + [DigitChar(n % 10)]
  }

  /** Reference reading of a string of decimal digits. */
  function DigitsValue(s: string): nat
    requires forall k :: 0 <= k < |s| ==> IsDigit(s[k])
    decreases |s|
  {
    if s == [] then 0
    else
      var d := s[|s| - 1];
      assert IsDigit(d);
      DigitsValue(s[..|s| - 1]) * 10 + (d as int - '0' as int)
  }

  /** Formatting a count and reading it back gives the count. */
  lemma {:induction false} NatToStringValue(n: nat)
    ensures DigitsValue(NatToString(n)) == n
    decreases n
  {
    if n >= 10 {
      var r := NatToString(n);
      assert r[..|r| - 1] == NatToString(n / 10);
      NatToStringValue(n / 10);
    }
  }
}
