/**
 * `Stow.collect`: the pre-order walk of a package directory that drops
 * entries tagged for other hosts, strips host tags from destination names,
 * applies the include/exclude filter, and lists the (source, destination)
 * pairs to link, in visit order.
 */
module Planner {
  import opened Wrappers
  import opened Strings
  import opened Paths

  /**
   * A directory as `os.walk` lists it (links to directories followed): its
   * own name, the names of its non-directory entries, and its
   * sub-directories, each in listing order.
   */
  datatype Tree = Dir(name: string, files: seq<string>, subdirs: seq<Tree>)

  /** A link to make: (source path, destination path). */
  type Pair = (string, string)

  /** A directory name that carried host tags, and the same name without them. */
  datatype Hint = Hint(tagged: string, stripped: string)

  /**
   * The fields of a `Stow` object that `collect` reads, after `expanduser`.
   * `hostname` is `None` when the object was built with a value that is not a
   * string (`None` in practice), which equals no tag.
   */
  datatype Plan = Plan(src: string, dest: string, hostname: Option<string>,
                       includes: seq<string>, excludes: seq<string>)

  /** Host-tag delimiter in file and directory names. */
  const TagMark := '#'

  /** The text before the first `#`: `no_host` in `check_hostname`. */
  function EffectiveName(base: string): string {
    SplitOn(base, TagMark)[0]
  }

  /** The `#`-separated host tags after the effective name. */
  function Tags(base: string): seq<string> {
    SplitOn(base, TagMark)[1..]
  }

  /** `check_hostname` does not reject the name outright. */
  predicate HostAllows(base: string, host: Option<string>) {
    Tags(base) == [] || (host.Some? && host.value in Tags(base))
  }

  /**
   * The entry survives `check_hostname` and the caller's `not no_host`
   * test: its tags admit the host and its effective name is not empty.
   */
  predicate Kept(base: string, host: Option<string>) {
    HostAllows(base, host) && EffectiveName(base) != ""
  }

  /**
   * Host-tag filtering, stated without `split`: a name is kept iff it carries
   * no `#` or the host is one of its tags, and it does not start with `#`
   * (an empty effective name is a rejection even when a tag matches). The
   * effective name is the text before the first `#`.
   */
  lemma KeptIff(base: string, host: Option<string>)
    ensures Kept(base, host) <==>
              (TagMark !in base || (host.Some? && host.value in Tags(base)))
              && base != [] && base[0] != TagMark
    ensures EffectiveName(base) == if TagMark in base then base[..IndexOf(base, TagMark)] else base
  {
    SplitOnHead(base, TagMark);
  }

  /** The rule list `need` loops over: include wins whenever it is non-empty. */
  function ActiveRules(p: Plan): seq<string> {
    if p.includes != [] then p.includes else p.excludes
  }

  /** What a rule is matched against: the full source path if it holds a `/`, else the basename. */
  function Target(rule: string, item: string): string {
    if '/' in rule then item else Basename(item)
  }

  /** One rule's verdict: a match in include mode, a non-match in exclude mode. */
  predicate Verdict(rule: string, item: string, includeMode: bool) {
    if includeMode then Contains(Target(rule, item), rule) else !Contains(Target(rule, item), rule)
  }

  /** The rule loop of `need`: the first positive verdict ends it, otherwise the last verdict stands. */
  function RuleLoop(rules: seq<string>, item: string, includeMode: bool): bool
    requires rules != []
    decreases |rules|
  {
    var v := Verdict(rules[0], item, includeMode);
    if v || |rules| == 1 then v else RuleLoop(rules[1..], item, includeMode)
  }

  /** `need(item)`. */
  function Need(p: Plan, item: string): bool {
    if p.includes == [] && p.excludes == [] then true
    else RuleLoop(ActiveRules(p), item, p.includes != [])
  }

  lemma {:induction false} RuleLoopIff(rules: seq<string>, item: string, includeMode: bool)
    requires rules != []
    ensures RuleLoop(rules, item, includeMode) <==> exists r :: r in rules && Verdict(r, item, includeMode)
    decreases |rules|
  {
    if !Verdict(rules[0], item, includeMode) && |rules| > 1 {
      RuleLoopIff(rules[1..], item, includeMode);
      assert forall r :: r in rules <==> r == rules[0] || r in rules[1..];
    }
  }

  /**
   * Filter semantics: with no rules every file is needed; otherwise a file is
   * needed iff some active rule gives a positive verdict.
   */
  lemma NeedIff(p: Plan, item: string)
    ensures Need(p, item) <==>
              (p.includes == [] && p.excludes == [])
              || exists r :: r in ActiveRules(p) && Verdict(r, item, p.includes != [])
  {
    if !(p.includes == [] && p.excludes == []) {
      RuleLoopIff(ActiveRules(p), item, p.includes != []);
    }
  }

  /** Exclude mode drops a file only when every exclude rule matches it. */
  lemma ExcludeDropsOnlyOnFullMatch(p: Plan, item: string)
    requires p.includes == [] && p.excludes != []
    ensures !Need(p, item) <==> forall r :: r in p.excludes ==> Contains(Target(r, item), r)
  {
    NeedIff(p, item);
  }

  /** Include mode keeps a file iff one include rule matches; exclude rules are then ignored. */
  lemma IncludeWins(p: Plan, item: string)
    requires p.includes != []
    ensures Need(p, item) <==> exists r :: r in p.includes && Contains(Target(r, item), r)
  {
    NeedIff(p, item);
  }

  /** Replays every accumulated hint, in order, as a first-occurrence `replace`. */
  function ApplyHints(hints: seq<Hint>, s: string): string
    decreases |hints|
  {
    if hints == [] then s
    else ApplyHints(hints[1..], ReplaceFirst(s, hints[0].tagged, hints[0].stripped))
  }

  /** A recorded hint pairs a tagged name with its effective name, which differs from it. */
  predicate ValidHint(h: Hint) {
    h.stripped == EffectiveName(h.tagged) && h.stripped != h.tagged
  }

  predicate AllValid(hints: seq<Hint>) {
    forall k :: 0 <= k < |hints| ==> ValidHint(hints[k])
  }

  /** The path of a sub-directory relative to the walk's top, as `os.path.relpath` gives it. */
  function ChildRel(rel: string, name: string): string {
    if rel == "." then name else rel + "/" + name
  }

  /** A name a directory listing can hold: not empty, `.` or `..`, and without `/`. */
  predicate PlainName(n: string) {
    PlainSegment(n)
  }

  predicate PlainNames(ns: seq<string>) {
    forall k :: 0 <= k < |ns| ==> PlainName(ns[k])
  }

  /** Every name below the top of `t` is one a directory listing can hold. */
  predicate WellFormed(t: Tree)
    decreases t, 1
  {
    PlainNames(t.files) && WellFormedAll(t.subdirs)
  }

  predicate WellFormedAll(ts: seq<Tree>)
    decreases ts, 0
  {
    forall k :: 0 <= k < |ts| ==> PlainName(ts[k].name) && WellFormed(ts[k])
  }

  /**
   * The destination is named after the source file's effective name, unless
   * that name is `.` or `..`, which `normpath` folds into the directory.
   */
  predicate NamedAfterSource(pair: Pair) {
    var eff := EffectiveName(Basename(pair.0));
    PlainSegment(eff) ==> Basename(pair.1) == eff
  }

  predicate AllNamedAfterSource(pairs: seq<Pair>) {
    forall k :: 0 <= k < |pairs| ==> NamedAfterSource(pairs[k])
  }

  lemma BasenameOfJoin(root: string, f: string)
    requires PlainName(f)
    ensures Basename(Join(root, f)) == f
  {
    assert f[0] != '/' && f[..1] == [f[0]];
    if root == [] || root[|root| - 1] == '/' {
      BasenameAfterSlash(root, f);
    } else {
      assert Join(root, f) == (root + "/") + f;
      BasenameAfterSlash(root + "/", f);
    }
  }

  /** `hints.append((name, effective name))` for a directory whose name carries a tag. */
  function WithHint(hints: seq<Hint>, base: string): seq<Hint> {
    var eff := EffectiveName(base);
    if base != eff then hints + [Hint(base, eff)] else hints
  }

  /** A recorded hint is valid, and the list only grows. */
  lemma WithHintGrows(hints: seq<Hint>, base: string)
    ensures hints <= WithHint(hints, base)
    ensures AllValid(hints) ==> AllValid(WithHint(hints, base))
  {
    var hints1 := WithHint(hints, base);
    assert forall k :: 0 <= k < |hints| ==> hints1[k] == hints[k];
  }

  /** What a walk has produced so far: the pairs, and the hint list. */
  datatype Walk = Walk(pairs: seq<Pair>, hints: seq<Hint>)

  /** The pairs for the files of one visited directory, whose hinted destination is `dd`. */
  function CollectFiles(p: Plan, files: seq<string>, root: string, dd: string): seq<Pair>
    decreases |files|
  {
    if files == [] then []
    else
      var f := files[0];
      var rest := CollectFiles(p, files[1..], root, dd);
      if !Kept(f, p.hostname) then rest
      else
        var src := Join(root, f);
        if Need(p, src) then [(src, Normpath(Join(dd, EffectiveName(f))))] + rest else rest
  }

  /**
   * One `os.walk` step at directory `t` (path `root`, relative path `rel`),
   * followed by the walk of its sub-directories. A directory whose name is
   * not kept is pruned with its whole subtree. The hint list is threaded
   * through the entire walk, siblings included, and only ever grows.
   */
  function VisitDir(p: Plan, t: Tree, root: string, rel: string, hints: seq<Hint>): Walk
    decreases t, 1
  {
    var destDir := Join(p.dest, rel);
    var base := Basename(destDir);
    if !Kept(base, p.hostname) then Walk([], hints)
    else
      var hints1 := WithHint(hints, base);
      var dd := ApplyHints(hints1, destDir);
      var sub := VisitAll(p, t.subdirs, root, rel, hints1);
      Walk(CollectFiles(p, t.files, root, dd) + sub.pairs, sub.hints)
  }

  /** The walks of sibling sub-directories, in listing order. */
  function VisitAll(p: Plan, ts: seq<Tree>, root: string, rel: string, hints: seq<Hint>): Walk
    decreases ts, 0
  {
    if ts == [] then Walk([], hints)
    else
      var first := VisitDir(p, ts[0], Join(root, ts[0].name), ChildRel(rel, ts[0].name), hints);
      var rest := VisitAll(p, ts[1..], root, rel, first.hints);
      Walk(first.pairs + rest.pairs, rest.hints)
  }

  /**
   * The hint list only grows during a directory's walk, and every hint
   * recorded pairs a tagged name with its different effective name.
   */
  lemma {:induction false} VisitDirHints(p: Plan, t: Tree, root: string, rel: string, hints: seq<Hint>)
    ensures hints <= VisitDir(p, t, root, rel, hints).hints
    ensures AllValid(hints) ==> AllValid(VisitDir(p, t, root, rel, hints).hints)
    decreases t, 1
  {
    var base := Basename(Join(p.dest, rel));
    VisitDirStep(p, t, root, rel, hints);
    if Kept(base, p.hostname) {
      WithHintGrows(hints, base);
      VisitAllHints(p, t.subdirs, root, rel, WithHint(hints, base));
    }
  }

  /** One directory's own hint, if any, added to the list its sub-directories are walked with. */
  lemma VisitDirStep(p: Plan, t: Tree, root: string, rel: string, hints: seq<Hint>)
    ensures VisitDir(p, t, root, rel, hints).hints
      == if Kept(Basename(Join(p.dest, rel)), p.hostname)
         then VisitAll(p, t.subdirs, root, rel, WithHint(hints, Basename(Join(p.dest, rel)))).hints
         else hints
  {
  }

  /** The same along the walks of sibling directories. */
  lemma {:induction false} VisitAllHints(p: Plan, ts: seq<Tree>, root: string, rel: string, hints: seq<Hint>)
    ensures hints <= VisitAll(p, ts, root, rel, hints).hints
    ensures AllValid(hints) ==> AllValid(VisitAll(p, ts, root, rel, hints).hints)
    decreases ts, 0
  {
    if ts != [] {
      var first := VisitDir(p, ts[0], Join(root, ts[0].name), ChildRel(rel, ts[0].name), hints);
      VisitDirHints(p, ts[0], Join(root, ts[0].name), ChildRel(rel, ts[0].name), hints);
      VisitAllHints(p, ts[1..], root, rel, first.hints);
    }
  }

  /** `Stow.collect()`: the walk from the package directory, with no hints yet. */
  function Collect(p: Plan, t: Tree): seq<Pair> {
    VisitDir(p, t, p.src, ".", []).pairs
  }

  lemma AllNamedAppend(a: seq<Pair>, b: seq<Pair>)
    requires AllNamedAfterSource(a) && AllNamedAfterSource(b)
    ensures AllNamedAfterSource(a + b)
  {
    forall k | 0 <= k < |a + b|
      ensures NamedAfterSource((a + b)[k])
    {
      if k < |a| {
        assert (a + b)[k] == a[k];
      } else {
        assert (a + b)[k] == b[k - |a|];
      }
    }
  }

  lemma {:induction false} CollectFilesNamed(p: Plan, files: seq<string>, root: string, dd: string)
    requires PlainNames(files)
    ensures AllNamedAfterSource(CollectFiles(p, files, root, dd))
    decreases |files|
  {
    if files != [] {
      var f := files[0];
      assert PlainNames(files[1..]) by {
        forall k | 0 <= k < |files[1..]| ensures PlainName(files[1..][k]) {
          assert files[1..][k] == files[k + 1];
        }
      }
      CollectFilesNamed(p, files[1..], root, dd);
      var rest := CollectFiles(p, files[1..], root, dd);
      if Kept(f, p.hostname) && Need(p, Join(root, f)) {
        var pair := (Join(root, f), Normpath(Join(dd, EffectiveName(f))));
        assert PlainName(files[0]);
        BasenameOfJoin(root, f);
        if PlainSegment(EffectiveName(f)) {
          NormpathKeepsName(dd, EffectiveName(f));
        }
        assert NamedAfterSource(pair);
        assert AllNamedAfterSource([pair]);
        AllNamedAppend([pair], rest);
      }
    }
  }

  lemma {:induction false} VisitDirNamed(p: Plan, t: Tree, root: string, rel: string, hints: seq<Hint>)
    requires WellFormed(t)
    ensures AllNamedAfterSource(VisitDir(p, t, root, rel, hints).pairs)
    decreases t, 1
  {
    var destDir := Join(p.dest, rel);
    var base := Basename(destDir);
    if Kept(base, p.hostname) {
      var hints1 := WithHint(hints, base);
      var dd := ApplyHints(hints1, destDir);
      CollectFilesNamed(p, t.files, root, dd);
      VisitAllNamed(p, t.subdirs, root, rel, hints1);
      AllNamedAppend(CollectFiles(p, t.files, root, dd), VisitAll(p, t.subdirs, root, rel, hints1).pairs);
    }
  }

  lemma {:induction false} VisitAllNamed(p: Plan, ts: seq<Tree>, root: string, rel: string, hints: seq<Hint>)
    requires WellFormedAll(ts)
    ensures AllNamedAfterSource(VisitAll(p, ts, root, rel, hints).pairs)
    decreases ts, 0
  {
    if ts != [] {
      var first := VisitDir(p, ts[0], Join(root, ts[0].name), ChildRel(rel, ts[0].name), hints);
      VisitDirNamed(p, ts[0], Join(root, ts[0].name), ChildRel(rel, ts[0].name), hints);
      assert WellFormedAll(ts[1..]) by {
        forall k | 0 <= k < |ts[1..]| ensures PlainName(ts[1..][k].name) && WellFormed(ts[1..][k]) {
          assert ts[1..][k] == ts[k + 1];
        }
      }
      VisitAllNamed(p, ts[1..], root, rel, first.hints);
      AllNamedAppend(first.pairs, VisitAll(p, ts[1..], root, rel, first.hints).pairs);
    }
  }

  /**
   * Every link `collect` plans is named after its source file's effective
   * name (the text before the first `#`), whenever that name is an ordinary
   * one.
   */
  lemma CollectNamesLinksAfterFiles(p: Plan, t: Tree)
    requires WellFormed(t)
    ensures forall k :: 0 <= k < |Collect(p, t)| ==>
              var eff := EffectiveName(Basename(Collect(p, t)[k].0));
              PlainSegment(eff) ==> Basename(Collect(p, t)[k].1) == eff
  {
    VisitDirNamed(p, t, p.src, ".", []);
  }

  // ---------------------------------------------------------------------
  // Reference reading of `collect`: which files are linked, in which order.
  // ---------------------------------------------------------------------

  /** A file of the tree: the directory names from the top down to it, and its own name. */
  datatype Entry = Entry(dirs: seq<string>, file: string)

  function FileEntries(files: seq<string>, dirs: seq<string>): seq<Entry>
    decreases |files|
  {
    if files == [] then [] else [Entry(dirs, files[0])] + FileEntries(files[1..], dirs)
  }

  /** Every file under `t` in pre-order: `t`'s own files, then each sub-directory's, in listing order. */
  function Entries(t: Tree, dirs: seq<string>): seq<Entry>
    decreases t, 1
  {
    FileEntries(t.files, dirs) + EntriesAll(t.subdirs, dirs)
  }

  function EntriesAll(ts: seq<Tree>, dirs: seq<string>): seq<Entry>
    decreases ts, 0
  {
    if ts == [] then [] else Entries(ts[0], dirs + [ts[0].name]) + EntriesAll(ts[1..], dirs)
  }

  /** The path `os.walk` reports for the directory reached through `dirs`. */
  function RootOf(src: string, dirs: seq<string>): string
    decreases |dirs|
  {
    if dirs == [] then src else Join(RootOf(src, dirs[..|dirs| - 1]), dirs[|dirs| - 1])
  }

  /** The relative path of that directory, `.` for the top. */
  function RelOf(dirs: seq<string>): string {
    if dirs == [] then "." else JoinWith(dirs, "/")
  }

  function SourceOf(src: string, e: Entry): string {
    Join(RootOf(src, e.dirs), e.file)
  }

  /**
   * `collect` lists a file iff every directory on its way down is kept, the
   * file's own name is kept, and the include/exclude filter needs its path.
   */
  predicate Selected(p: Plan, e: Entry) {
    (forall k :: 0 <= k < |e.dirs| ==> Kept(e.dirs[k], p.hostname))
    && Kept(e.file, p.hostname) && Need(p, SourceOf(p.src, e))
  }

  function SelectedSources(p: Plan, es: seq<Entry>): seq<string>
    decreases |es|
  {
    if es == [] then []
    else (if Selected(p, es[0]) then [SourceOf(p.src, es[0])] else []) + SelectedSources(p, es[1..])
  }

  function Sources(pairs: seq<Pair>): seq<string>
    decreases |pairs|
  {
    if pairs == [] then [] else [pairs[0].0] + Sources(pairs[1..])
  }

  lemma {:induction false} SourcesAppend(a: seq<Pair>, b: seq<Pair>)
    ensures Sources(a + b) == Sources(a) + Sources(b)
    decreases |a|
  {
    if a != [] {
      assert (a + b)[1..] == a[1..] + b;
      SourcesAppend(a[1..], b);
    } else {
      assert a + b == b;
    }
  }

  lemma {:induction false} SelectedSourcesAppend(p: Plan, a: seq<Entry>, b: seq<Entry>)
    ensures SelectedSources(p, a + b) == SelectedSources(p, a) + SelectedSources(p, b)
    decreases |a|
  {
    if a != [] {
      assert (a + b)[1..] == a[1..] + b;
      SelectedSourcesAppend(p, a[1..], b);
    } else {
      assert a + b == b;
    }
  }

  /** Entries below `dirs` all carry `dirs` as their leading directories. */
  predicate AllBelow(es: seq<Entry>, dirs: seq<string>) {
    forall k :: 0 <= k < |es| ==> dirs <= es[k].dirs
  }

  lemma {:induction false} FileEntriesBelow(files: seq<string>, dirs: seq<string>)
    ensures AllBelow(FileEntries(files, dirs), dirs)
    decreases |files|
  {
    if files != [] {
      FileEntriesBelow(files[1..], dirs);
    }
  }

  lemma {:induction false} EntriesBelow(t: Tree, dirs: seq<string>)
    ensures AllBelow(Entries(t, dirs), dirs)
    decreases t, 1
  {
    FileEntriesBelow(t.files, dirs);
    EntriesAllBelow(t.subdirs, dirs);
  }

  lemma {:induction false} EntriesAllBelow(ts: seq<Tree>, dirs: seq<string>)
    ensures AllBelow(EntriesAll(ts, dirs), dirs)
    decreases ts, 0
  {
    if ts != [] {
      EntriesBelow(ts[0], dirs + [ts[0].name]);
      EntriesAllBelow(ts[1..], dirs);
      var a := Entries(ts[0], dirs + [ts[0].name]);
      var b := EntriesAll(ts[1..], dirs);
      var ab: seq<Entry> := a + b;
      forall k | 0 <= k < |ab| ensures dirs <= ab[k].dirs {
        if k < |a| {
          assert ab[k] == a[k];
          assert dirs <= dirs + [ts[0].name] <= a[k].dirs;
        } else {
          assert ab[k] == b[k - |a|];
        }
      }
    }
  }

  /** Under a directory that is not kept, nothing is selected. */
  lemma {:induction false} NoneSelectedBelow(p: Plan, es: seq<Entry>, dirs: seq<string>)
    requires AllBelow(es, dirs)
    requires dirs != [] && !Kept(dirs[|dirs| - 1], p.hostname)
    ensures SelectedSources(p, es) == []
    decreases |es|
  {
    if es != [] {
      assert es[0].dirs[|dirs| - 1] == dirs[|dirs| - 1];
      assert !Selected(p, es[0]);
      NoneSelectedBelow(p, es[1..], dirs);
    }
  }

  lemma {:induction false} CollectFilesSources(p: Plan, files: seq<string>, dirs: seq<string>, dd: string)
    requires forall k :: 0 <= k < |dirs| ==> Kept(dirs[k], p.hostname)
    ensures Sources(CollectFiles(p, files, RootOf(p.src, dirs), dd)) == SelectedSources(p, FileEntries(files, dirs))
    decreases |files|
  {
    if files != [] {
      var f := files[0];
      var root := RootOf(p.src, dirs);
      CollectFilesSources(p, files[1..], dirs, dd);
      var e := Entry(dirs, f);
      assert SourceOf(p.src, e) == Join(root, f);
      assert Selected(p, e) <==> Kept(f, p.hostname) && Need(p, Join(root, f));
      var rest := CollectFiles(p, files[1..], root, dd);
      if Selected(p, e) {
        var pair := (Join(root, f), Normpath(Join(dd, EffectiveName(f))));
        SourcesAppend([pair], rest);
      }
    }
  }

  /** The top of the walk is seen as `.`, a name that is always kept. */
  lemma RelOfTop(dest: string, host: Option<string>)
    ensures Kept(Basename(Join(dest, RelOf([]))), host)
  {
    var j := Join(dest, ".");
    assert "."[..1] == "." && !IsPrefix("/", ".");
    if dest == [] || dest[|dest| - 1] == '/' {
      BasenameAfterSlash(dest, ".");
    } else {
      assert j == (dest + "/") + ".";
      BasenameAfterSlash(dest + "/", ".");
    }
    assert Basename(j) == ".";
    DotKept(host);
  }

  lemma DotKept(host: Option<string>)
    ensures Kept(".", host)
  {
    assert TagMark !in ".";
    SplitOnHead(".", TagMark);
  }

  /** The relative path of a non-top directory ends in its own name. */
  lemma BasenameOfRel(dest: string, dirs: seq<string>)
    requires dirs != [] && PlainNames(dirs)
    ensures Basename(Join(dest, RelOf(dirs))) == dirs[|dirs| - 1]
  {
    var last := dirs[|dirs| - 1];
    var pre := dirs[..|dirs| - 1];
    assert dirs == pre + [last];
    JoinWithSnocSlash(pre, last);
    var x := JoinWith(dirs, "/");
    assert PlainName(dirs[0]);
    JoinWithHead(dirs, "/");
    assert !IsPrefix("/", x) by {
      assert x[..1] == [x[0]];
    }
    var q0 := if dest == [] || dest[|dest| - 1] == '/' then dest else dest + "/";
    assert Join(dest, x) == q0 + x;
    assert PlainName(last);
    if pre == [] {
      assert x == last;
      BasenameAfterSlash(q0, last);
    } else {
      var q := q0 + JoinWith(pre, "/") + "/";
      assert q0 + x == q + last;
      BasenameAfterSlash(q, last);
    }
  }

  lemma ChildRelOf(dirs: seq<string>, n: string)
    requires PlainNames(dirs)
    ensures ChildRel(RelOf(dirs), n) == RelOf(dirs + [n])
  {
    JoinWithSnocSlash(dirs, n);
    if |dirs| == 1 {
      assert PlainName(dirs[0]);
    } else if |dirs| > 1 {
      assert JoinWith(dirs, "/") == dirs[0] + "/" + JoinWith(dirs[1..], "/");
    }
  }

  lemma {:induction false} VisitDirSources(p: Plan, t: Tree, dirs: seq<string>, hints: seq<Hint>)
    requires WellFormed(t) && PlainNames(dirs)
    requires forall k :: 0 <= k < |dirs| - 1 ==> Kept(dirs[k], p.hostname)
    ensures Sources(VisitDir(p, t, RootOf(p.src, dirs), RelOf(dirs), hints).pairs)
            == SelectedSources(p, Entries(t, dirs))
    decreases t, 1
  {
    var root := RootOf(p.src, dirs);
    var destDir := Join(p.dest, RelOf(dirs));
    var base := Basename(destDir);
    if dirs == [] {
      RelOfTop(p.dest, p.hostname);
    } else {
      BasenameOfRel(p.dest, dirs);
    }
    if !Kept(base, p.hostname) {
      EntriesBelow(t, dirs);
      NoneSelectedBelow(p, Entries(t, dirs), dirs);
    } else {
      assert forall k :: 0 <= k < |dirs| ==> Kept(dirs[k], p.hostname);
      var hints1 := WithHint(hints, base);
      var dd := ApplyHints(hints1, destDir);
      CollectFilesSources(p, t.files, dirs, dd);
      VisitAllSources(p, t.subdirs, dirs, hints1);
      SourcesAppend(CollectFiles(p, t.files, root, dd), VisitAll(p, t.subdirs, root, RelOf(dirs), hints1).pairs);
      SelectedSourcesAppend(p, FileEntries(t.files, dirs), EntriesAll(t.subdirs, dirs));
    }
  }

  lemma {:induction false} VisitAllSources(p: Plan, ts: seq<Tree>, dirs: seq<string>, hints: seq<Hint>)
    requires WellFormedAll(ts) && PlainNames(dirs)
    requires forall k :: 0 <= k < |dirs| ==> Kept(dirs[k], p.hostname)
    ensures Sources(VisitAll(p, ts, RootOf(p.src, dirs), RelOf(dirs), hints).pairs)
            == SelectedSources(p, EntriesAll(ts, dirs))
    decreases ts, 0
  {
    if ts != [] {
      var root := RootOf(p.src, dirs);
      var n := ts[0].name;
      var d2 := dirs + [n];
      assert d2[..|d2| - 1] == dirs;
      assert RootOf(p.src, d2) == Join(root, n);
      assert PlainName(n) && WellFormed(ts[0]);
      ChildRelOf(dirs, n);
      assert PlainNames(d2) by {
        forall k | 0 <= k < |d2| ensures PlainName(d2[k]) {
          if k < |dirs| {
            assert d2[k] == dirs[k];
          }
        }
      }
      VisitDirSources(p, ts[0], d2, hints);
      var first := VisitDir(p, ts[0], Join(root, n), ChildRel(RelOf(dirs), n), hints);
      assert WellFormedAll(ts[1..]) by {
        forall k | 0 <= k < |ts[1..]| ensures PlainName(ts[1..][k].name) && WellFormed(ts[1..][k]) {
          assert ts[1..][k] == ts[k + 1];
        }
      }
      VisitAllSources(p, ts[1..], dirs, first.hints);
      SourcesAppend(first.pairs, VisitAll(p, ts[1..], root, RelOf(dirs), first.hints).pairs);
      SelectedSourcesAppend(p, Entries(ts[0], d2), EntriesAll(ts[1..], dirs));
    }
  }

  /**
   * Which files `collect` links, and in what order: exactly the files of the
   * tree, in pre-order, whose directories on the way down and whose own
   * names are all kept for this host and which the include/exclude filter
   * needs. The accumulated hints affect destinations only, never which
   * files are chosen; a directory tagged for another host contributes
   * nothing from its whole subtree.
   */
  lemma CollectSources(p: Plan, t: Tree)
    requires WellFormed(t)
    ensures Sources(Collect(p, t)) == SelectedSources(p, Entries(t, []))
  {
    VisitDirSources(p, t, [], []);
  }
}
