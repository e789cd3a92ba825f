/**
 * The decisions `main.py` takes around a `Stow` object: the options a
 * container is stowed with, the packages it goes through, the rule each
 * package gets and the keyword arguments `Stow` is built from.
 */
module Orchestrator {
  import opened Wrappers
  import opened Strings
  import opened Json
  import opened Paths
  import Planner
  import Executor
  import Results
  import Config

  /**
   * The Python exceptions these decisions raise; `run` catches the first two
   * for a whole container. `OSError` is a failed directory listing.
   */
  datatype MainError = TypeError | KeyError | ValueError | OSError

  /**
   * `extra_opts`: the read options after `--dry-run` forced `dry_run`, less
   * the `containers` key.
   */
  function ExtraOpts(options: seq<Field>, forceDry: bool): (r: seq<Field>)
    ensures !HasKey(r, "containers")
    ensures forall k :: k != "containers" && k != "dry_run" ==> Get(r, k) == Get(options, k)
    ensures Get(r, "dry_run") == if forceDry then Some(Bool(true)) else Get(options, "dry_run")
  {
    Without(if forceDry then Set(options, "dry_run", Bool(true)) else options, "containers")
  }

  /** Some key is given both by the container and by the rest of the options. */
  predicate Overlap(a: seq<Field>, b: seq<Field>) {
    exists i :: 0 <= i < |b| && HasKey(a, b[i].key)
  }

  /**
   * `stow_container(ctnr, **opt, **extra_opts)`: the keyword arguments the
   * call receives. A container entry that is not a dict, a key given twice,
   * or a `container` key, which the positional argument already binds, is a
   * `TypeError`.
   */
  function CallOpts(opt: Value, extra: seq<Field>): (r: Result<seq<Field>, MainError>)
    ensures r.Success? <==>
      opt.Obj? && !Overlap(opt.fields, extra) && !HasKey(opt.fields, "container") && !HasKey(extra, "container")
    ensures r.Failure? ==> r.error == TypeError
  {
    if !opt.Obj? || Overlap(opt.fields, extra) || HasKey(opt.fields, "container") || HasKey(extra, "container") then
      Failure(TypeError)
    else Success(opt.fields + extra)
  }

  /** Every keyword argument comes from exactly one of the two sides. */
  lemma CallOptsGet(opt: Value, extra: seq<Field>, k: string)
    requires CallOpts(opt, extra).Success?
    ensures Get(CallOpts(opt, extra).value, k) == if HasKey(opt.fields, k) then Get(opt.fields, k) else Get(extra, k)
    ensures !(HasKey(opt.fields, k) && HasKey(extra, k))
  {
    GetAppend(opt.fields, extra, k);
    if HasKey(extra, k) {
      var i :| 0 <= i < |extra| && extra[i].key == k;
      assert !HasKey(opt.fields, extra[i].key);
    }
  }

  /** Python's `for x in v`: list items, a string's characters, a dict's keys; anything else is a `TypeError`. */
  function Iterate(v: Value): (r: Result<seq<Value>, MainError>)
    ensures r.Success? <==> v.List? || v.Str? || v.Obj?
    ensures r.Failure? ==> r.error == TypeError
    ensures v.List? ==> r == Success(v.items)
    ensures v.Str? ==> r.Success? && |r.value| == |v.s| && forall i :: 0 <= i < |v.s| ==> r.value[i] == Str([v.s[i]])
    ensures v.Obj? ==> r.Success? && |r.value| == |v.fields| && forall i :: 0 <= i < |v.fields| ==> r.value[i] == Str(v.fields[i].key)
  {
    match v
    case List(items) => Success(items)
    case Str(s) => Success(seq(|s|, i requires 0 <= i < |s| => Str([s[i]])))
    case Obj(fs) => Success(seq(|fs|, i requires 0 <= i < |fs| => Str(fs[i].key)))
    case _ => Failure(TypeError)
  }

  /**
   * The packages `stow_container` goes through: the (expanded) source itself
   * when `pkg` is truthy, else `packages` when given, else the listing of
   * the source directory. The listing is passed in (`None` when `os.listdir`
   * raises); it is the default argument of `opts.get`, so it is taken, and
   * can fail, even when `packages` is given.
   */
  function PackageItems(opts: seq<Field>, source: string, listing: Option<seq<string>>): (r: Result<seq<Value>, MainError>)
    ensures Truthy(Get(opts, "pkg").GetOr(Bool(false))) ==> r == Success([Str(source)])
    ensures !Truthy(Get(opts, "pkg").GetOr(Bool(false))) ==>
      if listing.None? then r == Failure(OSError)
      else if HasKey(opts, "packages") then r == Iterate(Get(opts, "packages").value)
      else r == Success(StrList(listing.value))
  {
    if Truthy(Get(opts, "pkg").GetOr(Bool(false))) then Success([Str(source)])
    else
      match listing
      case None => Failure(OSError)
      case Some(listed) =>
        match Get(opts, "packages")
        case None => Success(StrList(listed))
        case Some(p) => Iterate(p)
  }

  /**
   * A `packages` string in the host's container entry reaches
   * `stow_container` as its whitespace-separated names, in order, whatever
   * the source directory holds.
   */
  lemma PackagesStringSplit(cfg: seq<Field>, section: string, ctnr: string, items: Value,
                            extra: seq<Field>, source: string, listed: seq<string>)
    requires Config.Container(cfg, section, ctnr, items).Success? && UniqueKeys(items.fields)
    requires Get(items.fields, "packages").Some? && Get(items.fields, "packages").value.Str?
    requires CallOpts(Config.Container(cfg, section, ctnr, items).value, extra).Success?
    requires !Truthy(Get(CallOpts(Config.Container(cfg, section, ctnr, items).value, extra).value, "pkg").GetOr(Bool(false)))
    ensures PackageItems(CallOpts(Config.Container(cfg, section, ctnr, items).value, extra).value, source, Some(listed))
            == Success(StrList(SplitWs(Get(items.fields, "packages").value.s)))
  {
    var e := Config.Container(cfg, section, ctnr, items).value;
    Config.PackagesNormalised(cfg, section, ctnr, items);
    CallOptsGet(e, extra, "packages");
  }

  /** `rule, s_files = r`: exactly two items, else a `ValueError`. */
  function Unpack2(v: Value): (r: Result<(Value, Value), MainError>)
    ensures r.Success? <==> Iterate(v).Success? && |Iterate(v).value| == 2
    ensures r.Success? ==> r.value == (Iterate(v).value[0], Iterate(v).value[1])
  {
    var items :- Iterate(v);
    if |items| != 2 then Failure(ValueError) else Success((items[0], items[1]))
  }

  /** The rule a package gets when the configuration names none: include everything. */
  const DefaultRule: (Value, Value) := (Str("include"), List([]))

  /**
   * `opts['rules'][pkg]` unpacked into a mode and a pattern list, or
   * `('include', [])` when the lookup raises `KeyError`. A `rules` value
   * that cannot be indexed by a name is a `TypeError`.
   */
  function RuleFor(opts: seq<Field>, pkg: string): (r: Result<(Value, Value), MainError>)
    ensures !HasKey(opts, "rules") ==> r == Success(DefaultRule)
    ensures HasKey(opts, "rules") && !Get(opts, "rules").value.Obj? ==> r == Failure(TypeError)
    ensures HasKey(opts, "rules") && Get(opts, "rules").value.Obj? ==>
      var rs := Get(opts, "rules").value.fields;
      r == if HasKey(rs, pkg) then Unpack2(Get(rs, pkg).value) else Success(DefaultRule)
  {
    match Get(opts, "rules")
    case None => Success(DefaultRule)
    case Some(rv) =>
      if !rv.Obj? then Failure(TypeError)
      else match Get(rv.fields, pkg)
        case None => Success(DefaultRule)
        case Some(rule) => Unpack2(rule)
  }

  /** The options copied into every `Stow` call, `None` when absent. */
  const CopiedArgs: seq<string> := ["destination", "hostname", "dry_run", "overwrite", "verbose"]

  function Copied(opts: seq<Field>, names: seq<string>): (r: seq<Field>)
    ensures |r| == |names|
    ensures forall i :: 0 <= i < |names| ==> r[i] == Field(names[i], Get(opts, names[i]).GetOr(Null))
  {
    seq(|names|, i requires 0 <= i < |names| => Field(names[i], Get(opts, names[i]).GetOr(Null)))
  }

  /**
   * The keyword arguments of `Stow(**stow_args)`: the copied options, then
   * `source` joined with the package, then the rule's mode bound to its
   * patterns (a mode that is not a string cannot be a keyword).
   */
  function StowArgs(opts: seq<Field>, source: string, pkg: string, rule: (Value, Value)): Result<seq<Field>, MainError> {
    if !rule.0.Str? then Failure(TypeError)
    else Success(Set(Set(Copied(opts, CopiedArgs), "source", Str(Join(source, pkg))), rule.0.s, rule.1))
  }

  /** A copied option reads the caller's value, or `None`; nothing else is copied. */
  lemma CopiedGet(opts: seq<Field>, names: seq<string>, k: string)
    ensures Get(Copied(opts, names), k) == if k in names then Some(Get(opts, k).GetOr(Null)) else None
  {
    var c := Copied(opts, names);
    if k in names {
      var i :| 0 <= i < |names| && names[i] == k;
      assert c[i].key == k;
      var j :| 0 <= j < |c| && c[j] == Field(k, Get(c, k).value);
      assert names[j] == k;
    } else {
      forall i | 0 <= i < |c| ensures c[i].key != k {
        assert c[i].key == names[i];
      }
    }
  }

  /** The stow arguments hold the copied options, `source`, and the rule's mode, and nothing else. */
  lemma StowArgsKeys(opts: seq<Field>, source: string, pkg: string, rule: (Value, Value))
    requires StowArgs(opts, source, pkg, rule).Success?
    ensures var args := StowArgs(opts, source, pkg, rule).value;
      && (forall k :: HasKey(args, k) <==> k in CopiedArgs || k == "source" || k == rule.0.s)
      && Get(args, rule.0.s) == Some(rule.1)
      && (rule.0.s != "source" ==> Get(args, "source") == Some(Str(Join(source, pkg))))
      && (forall k :: k in CopiedArgs && k != rule.0.s ==> Get(args, k) == Some(Get(opts, k).GetOr(Null)))
  {
    var c := Copied(opts, CopiedArgs);
    var src := Str(Join(source, pkg));
    forall k ensures Get(StowArgs(opts, source, pkg, rule).value, k) ==
      if k == rule.0.s then Some(rule.1) else if k == "source" then Some(src)
      else if k in CopiedArgs then Some(Get(opts, k).GetOr(Null)) else None
    {
      CopiedGet(opts, CopiedArgs, k);
      SetTwiceGet(c, "source", src, rule.0.s, rule.1, k);
    }
  }

  /** `Stow`'s parameters: any other keyword is a `TypeError`. */
  const StowParams: set<string> := {"source", "destination", "hostname", "dry_run", "overwrite", "verbose", "include", "exclude"}

  /** What building a `Stow` decides: the plan `collect` follows and the two flags `create` reads. */
  datatype StowCall = StowCall(plan: Planner.Plan, dryRun: bool, overwrite: bool)

  /** The strings of a list known to hold only strings. */
  function Strs(items: seq<Value>): (r: seq<string>)
    requires forall i :: 0 <= i < |items| ==> items[i].Str?
    ensures |r| == |items| && forall i :: 0 <= i < |items| ==> items[i] == Str(r[i])
  {
    seq(|items|, i requires 0 <= i < |items| => items[i].s)
  }

  /**
   * The patterns `need` loops over: a false value means no rules; otherwise
   * whatever iterating it gives (a string's characters, a dict's keys), all
   * of which must be strings.
   */
  function Patterns(v: Value): (r: Result<seq<string>, MainError>)
    ensures !Truthy(v) ==> r == Success([])
    ensures r.Success? ==> (r.value == [] <==> !Truthy(v))
    ensures v.List? && r.Success? ==> |r.value| == |v.items| && forall i :: 0 <= i < |v.items| ==> v.items[i] == Str(r.value[i])
  {
    if !Truthy(v) then Success([])
    else
      var items :- Iterate(v);
      if forall i :: 0 <= i < |items| ==> items[i].Str? then Success(Strs(items)) else Failure(TypeError)
  }

  /** A host name tag can only match a string; anything else matches no tag. */
  function HostOf(v: Value): Option<string> {
    if v.Str? then Some(v.s) else None
  }

  /**
   * `Stow(**args)` with `expanduser` for the current user's `home`. The
   * exclude patterns are only looked at when there are no include patterns,
   * as `need` does.
   */
  function NewStow(home: string, args: seq<Field>): (r: Result<StowCall, MainError>)
    ensures r.Success? <==>
      && (forall i :: 0 <= i < |args| ==> args[i].key in StowParams)
      && Get(args, "source").GetOr(Null).Str? && Get(args, "destination").GetOr(Null).Str? && HasKey(args, "hostname")
      && Patterns(Get(args, "include").GetOr(List([]))).Success?
      && (Patterns(Get(args, "include").GetOr(List([]))).value == [] ==> Patterns(Get(args, "exclude").GetOr(List([]))).Success?)
    ensures r.Failure? ==> r.error == TypeError
    ensures r.Success? ==> r.value.plan.src == ExpandUser(home, Get(args, "source").value.s)
    ensures r.Success? ==> r.value.plan.dest == ExpandUser(home, Get(args, "destination").value.s)
    ensures r.Success? ==> r.value.plan.hostname == HostOf(Get(args, "hostname").value)
    ensures r.Success? ==> r.value.dryRun == Truthy(Get(args, "dry_run").GetOr(Bool(false)))
    ensures r.Success? ==> r.value.overwrite == Truthy(Get(args, "overwrite").GetOr(Bool(false)))
    ensures r.Success? ==> Patterns(Get(args, "include").GetOr(List([]))) == Success(r.value.plan.includes)
    ensures r.Success? && r.value.plan.includes == [] ==>
      Patterns(Get(args, "exclude").GetOr(List([]))) == Success(r.value.plan.excludes)
  {
    if exists i :: 0 <= i < |args| && args[i].key !in StowParams then Failure(TypeError)
    else
      var src := Get(args, "source").GetOr(Null);
      var dst := Get(args, "destination").GetOr(Null);
      if !src.Str? || !dst.Str? || !HasKey(args, "hostname") then Failure(TypeError)
      else
        var inc :- Patterns(Get(args, "include").GetOr(List([])));
        var exc :- if inc != [] then Success([]) else Patterns(Get(args, "exclude").GetOr(List([])));
        var plan := Planner.Plan(ExpandUser(home, src.s), ExpandUser(home, dst.s), HostOf(Get(args, "hostname").value), inc, exc);
        Success(StowCall(plan, Truthy(Get(args, "dry_run").GetOr(Bool(false))), Truthy(Get(args, "overwrite").GetOr(Bool(false)))))
  }

  /** `source = os.path.expanduser(opts['source'])`. */
  function ContainerSource(home: string, opts: seq<Field>): Result<string, MainError> {
    match Get(opts, "source")
    case None => Failure(KeyError)
    case Some(v) => if v.Str? then Success(ExpandUser(home, v.s)) else Failure(TypeError)
  }

  /**
   * One package of `stow_container`: a name that is not a string is a
   * `TypeError`; one that is not a directory under the source is skipped;
   * otherwise its rule is looked up and its `Stow` built.
   */
  function PackageCall(home: string, opts: seq<Field>, source: string, pkg: Value, dirs: set<string>)
    : (r: Result<Option<StowCall>, MainError>)
    ensures !pkg.Str? ==> r == Failure(TypeError)
    ensures pkg.Str? && Join(source, pkg.s) !in dirs ==> r == Success(None)
    ensures r.Success? ==> pkg.Str? && (r.value.None? <==> Join(source, pkg.s) !in dirs)
  {
    if !pkg.Str? then Failure(TypeError)
    else if Join(source, pkg.s) !in dirs then Success(None)
    else
      var rule :- RuleFor(opts, pkg.s);
      var args :- StowArgs(opts, source, pkg.s, rule);
      var call :- NewStow(home, args);
      Success(Some(call))
  }

  /** Two assignments in a row: the later one wins, untouched keys read through. */
  lemma SetTwiceGet(c: seq<Field>, k1: string, v1: Value, k2: string, v2: Value, k: string)
    ensures Get(Set(Set(c, k1, v1), k2, v2), k) == if k == k2 then Some(v2) else if k == k1 then Some(v1) else Get(c, k)
  {
  }

  /** `exclude` is not among the copied options. */
  lemma CopiedNoExclude(opts: seq<Field>)
    ensures Get(Copied(opts, CopiedArgs), "exclude") == None
  {
    assert "exclude" !in CopiedArgs;
    CopiedGet(opts, CopiedArgs, "exclude");
  }

  /** The default rule's arguments: an empty `include` list and no `exclude`. */
  lemma DefaultRuleArgs(opts: seq<Field>, source: string, pkg: string)
    ensures StowArgs(opts, source, pkg, DefaultRule).Success?
    ensures var args := StowArgs(opts, source, pkg, DefaultRule).value;
      Get(args, "include") == Some(List([])) && Get(args, "exclude") == None
  {
    CopiedNoExclude(opts);
    assert "exclude" != "source" && "exclude" != "include" by {
      assert "exclude"[0] == 'e' && "source"[0] == 's' && "include"[0] == 'i';
    }
    SetTwiceGet(Copied(opts, CopiedArgs), "source", Str(Join(source, pkg)), "include", List([]), "exclude");
  }

  /**
   * A package without a rule of its own gets `('include', [])`: no include
   * and no exclude patterns, so every file passes the filter.
   */
  lemma DefaultRuleKeepsEverything(home: string, opts: seq<Field>, source: string, pkg: string, item: string)
    requires NewStow(home, StowArgs(opts, source, pkg, DefaultRule).value).Success?
    ensures var plan := NewStow(home, StowArgs(opts, source, pkg, DefaultRule).value).value.plan;
      plan.includes == [] && plan.excludes == [] && Planner.Need(plan, item)
  {
    DefaultRuleArgs(opts, source, pkg);
  }

  /**
   * The configuration fills in `name`, but the stow arguments copy
   * `hostname`: when the options have no `hostname` (and the rule's mode is
   * not `hostname`), `collect` runs with no host, so only entries without
   * a `#` tag survive.
   */
  lemma NoHostnameKeepsUntaggedOnly(home: string, opts: seq<Field>, source: string, pkg: string, rule: (Value, Value), base: string)
    requires !HasKey(opts, "hostname")
    requires rule.0.Str? && rule.0.s != "hostname"
    requires NewStow(home, StowArgs(opts, source, pkg, rule).value).Success?
    ensures var plan := NewStow(home, StowArgs(opts, source, pkg, rule).value).value.plan;
      && plan.hostname == None
      && (Planner.Kept(base, plan.hostname) <==> Planner.TagMark !in base && base != [] && base[0] != Planner.TagMark)
  {
    StowArgsKeys(opts, source, pkg, rule);
    CopiedGet(opts, CopiedArgs, "hostname");
    Planner.KeptIff(base, None);
  }

  /** Where one package of the loop ended. */
  datatype PackageRun =
    | NotFound(pkg: string)
    | Linked(pkg: string, call: StowCall, shown: Results.Shown)

  /**
   * What ended a container early: an exception of the decisions above, or
   * one escaping `create`, with the file system it left behind.
   */
  datatype Stop = Raised(error: MainError) | OsFailed(os: Executor.Escape)

  /** The packages handled, the file system after them, and what stopped the loop, if anything. */
  datatype ContainerRun = ContainerRun(runs: seq<PackageRun>, fs: Executor.FS, stop: Option<Stop>)

  /**
   * One iteration of `stow_container`'s loop: the `Stow` built, `collect`
   * run over the package's directory tree (`trees`, keyed by path, stands
   * for the directories `isdir` finds and `os.walk` visits), `create` run
   * on the file system, and `show_results` with the container's options.
   */
  function StowPackage(home: string, opts: seq<Field>, source: string, pkg: Value,
                       trees: map<string, Planner.Tree>, fs: Executor.FS)
    : (r: Result<(PackageRun, Executor.FS), Stop>)
    ensures r.Success? ==> pkg.Str? && r.value.0.pkg == pkg.s
    ensures r.Success? ==> (r.value.0.NotFound? <==> Join(source, pkg.s) !in trees)
    ensures r.Success? && r.value.0.NotFound? ==> r.value.1 == fs
    ensures r.Success? && r.value.0.Linked? ==> PackageCall(home, opts, source, pkg, trees.Keys) == Success(Some(r.value.0.call))
    ensures r.Success? && r.value.0.Linked? && r.value.0.call.dryRun ==> r.value.1 == fs
    ensures r.Failure? && r.error.Raised? ==> PackageCall(home, opts, source, pkg, trees.Keys) == Failure(r.error.error)
    ensures r.Failure? && r.error.OsFailed? ==>
      && PackageCall(home, opts, source, pkg, trees.Keys).Success?
      && PackageCall(home, opts, source, pkg, trees.Keys).value.Some?
      && var call := PackageCall(home, opts, source, pkg, trees.Keys).value.value;
         && !call.dryRun
         && Executor.RunAll(fs, Planner.Collect(call.plan, trees[Join(source, pkg.s)]), false, call.overwrite) == Failure(r.error.os)
  {
    match PackageCall(home, opts, source, pkg, trees.Keys)
    case Failure(e) => Failure(Raised(e))
    case Success(None) => Success((NotFound(pkg.s), fs))
    case Success(Some(call)) =>
      var files := Planner.Collect(call.plan, trees[Join(source, pkg.s)]);
      assert call.dryRun ==>
        Executor.RunAll(fs, files, call.dryRun, call.overwrite).Success? &&
        Executor.RunAll(fs, files, call.dryRun, call.overwrite).value.1 == fs by {
        if call.dryRun {
          Executor.DryRunReports(fs, files, call.overwrite);
        }
      }
      match Executor.RunAll(fs, files, call.dryRun, call.overwrite)
      case Failure(e) => Failure(OsFailed(e))
      case Success(run) =>
        var results := Executor.ResultLists(files, run.0);
        var shown := Results.ShowResults(home, Executor.Report(files, results),
                                         Truthy(Get(opts, "dry_run").GetOr(Bool(false))),
                                         Truthy(Get(opts, "group_output").GetOr(Bool(false))));
        Success((Linked(pkg.s, call, shown), run.1))
  }

  /**
   * `for pkg in pkgs` in `stow_container`: the packages in order, until one
   * raises. Packages handled before the failure keep their effect, and so
   * do the links a package made before an error escaped its `create`.
   */
  function ContainerLoop(home: string, opts: seq<Field>, source: string, pkgs: seq<Value>,
                         trees: map<string, Planner.Tree>, fs: Executor.FS): (r: ContainerRun)
    ensures |r.runs| <= |pkgs|
    ensures r.stop.None? <==> |r.runs| == |pkgs|
    ensures forall i :: 0 <= i < |r.runs| ==>
      pkgs[i].Str? && r.runs[i].pkg == pkgs[i].s && (r.runs[i].NotFound? <==> Join(source, pkgs[i].s) !in trees)
    ensures r.stop.Some? && r.stop.value.OsFailed? ==> r.fs == r.stop.value.os.fs
    decreases |pkgs|
  {
    if pkgs == [] then ContainerRun([], fs, None)
    else match StowPackage(home, opts, source, pkgs[0], trees, fs)
      case Failure(e) => ContainerRun([], if e.OsFailed? then e.os.fs else fs, Some(e))
      case Success(step) =>
        var rest := ContainerLoop(home, opts, source, pkgs[1..], trees, step.1);
        var r := ContainerRun([step.0] + rest.runs, rest.fs, rest.stop);
        assert forall i :: 0 < i < |r.runs| ==> r.runs[i] == rest.runs[i - 1] && pkgs[i] == pkgs[1..][i - 1];
        r
  }

  /**
   * Every package the loop linked was linked with the `Stow` its decisions
   * build, and a loop stopped by an exception stopped at the first package
   * whose decisions raise it, or at one linked for real whose `create`
   * raised.
   */
  lemma {:induction false} ContainerLoopCalls(home: string, opts: seq<Field>, source: string, pkgs: seq<Value>,
                                              trees: map<string, Planner.Tree>, fs: Executor.FS)
    ensures var r := ContainerLoop(home, opts, source, pkgs, trees, fs);
      && (forall i :: 0 <= i < |r.runs| && r.runs[i].Linked? ==>
            PackageCall(home, opts, source, pkgs[i], trees.Keys) == Success(Some(r.runs[i].call)))
      && (r.stop.Some? && r.stop.value.Raised? ==>
            PackageCall(home, opts, source, pkgs[|r.runs|], trees.Keys) == Failure(r.stop.value.error))
      && (r.stop.Some? && r.stop.value.OsFailed? ==>
            && PackageCall(home, opts, source, pkgs[|r.runs|], trees.Keys).Success?
            && PackageCall(home, opts, source, pkgs[|r.runs|], trees.Keys).value.Some?
            && !PackageCall(home, opts, source, pkgs[|r.runs|], trees.Keys).value.value.dryRun)
    decreases |pkgs|
  {
    if pkgs != [] && StowPackage(home, opts, source, pkgs[0], trees, fs).Success? {
      var step, rest := LoopStep(home, opts, source, pkgs, trees, fs);
      ContainerLoopCalls(home, opts, source, pkgs[1..], trees, step.1);
      forall i | 0 < i <= |rest.runs| ensures pkgs[i] == pkgs[1..][i - 1] {
      }
    }
  }

  /** A package that was not found, or was linked in a dry run, leaves the file system as it was. */
  lemma StepKeepsFs(home: string, opts: seq<Field>, source: string, pkg: Value,
                    trees: map<string, Planner.Tree>, fs: Executor.FS)
    requires StowPackage(home, opts, source, pkg, trees, fs).Success?
    requires var run := StowPackage(home, opts, source, pkg, trees, fs).value.0; run.Linked? ==> run.call.dryRun
    ensures StowPackage(home, opts, source, pkg, trees, fs).value.1 == fs
  {
  }

  /** One turn of the loop: the first package, then the loop over the rest from where it left the file system. */
  lemma LoopStep(home: string, opts: seq<Field>, source: string, pkgs: seq<Value>,
                 trees: map<string, Planner.Tree>, fs: Executor.FS)
    returns (step: (PackageRun, Executor.FS), rest: ContainerRun)
    requires pkgs != [] && StowPackage(home, opts, source, pkgs[0], trees, fs).Success?
    ensures StowPackage(home, opts, source, pkgs[0], trees, fs) == Success(step)
    ensures rest == ContainerLoop(home, opts, source, pkgs[1..], trees, step.1)
    ensures ContainerLoop(home, opts, source, pkgs, trees, fs) == ContainerRun([step.0] + rest.runs, rest.fs, rest.stop)
  {
    step := StowPackage(home, opts, source, pkgs[0], trees, fs).value;
    rest := ContainerLoop(home, opts, source, pkgs[1..], trees, step.1);
  }

  /** Every `Stow` among the runs was a dry run. */
  predicate AllDry(runs: seq<PackageRun>) {
    forall i :: 0 <= i < |runs| && runs[i].Linked? ==> runs[i].call.dryRun
  }

  lemma AllDryCons(h: PackageRun, t: seq<PackageRun>)
    requires AllDry([h] + t)
    ensures (h.Linked? ==> h.call.dryRun) && AllDry(t)
  {
    assert ([h] + t)[0] == h;
    forall i | 0 <= i < |t| && t[i].Linked? ensures t[i].call.dryRun {
      assert t[i] == ([h] + t)[i + 1];
    }
  }

  /**
   * The file system only changes through packages linked for real: when
   * every `Stow` the loop built was a dry run, it is left as it was. The
   * `Stow` of a package whose `create` raised is not among the runs; it was
   * a real one (`ContainerLoopCalls`), so the loop did not stop there.
   */
  lemma {:induction false} DryLoopLeavesFs(home: string, opts: seq<Field>, source: string, pkgs: seq<Value>,
                                           trees: map<string, Planner.Tree>, fs: Executor.FS)
    requires AllDry(ContainerLoop(home, opts, source, pkgs, trees, fs).runs)
    requires ContainerLoop(home, opts, source, pkgs, trees, fs).stop.Some? ==>
      ContainerLoop(home, opts, source, pkgs, trees, fs).stop.value.Raised?
    ensures ContainerLoop(home, opts, source, pkgs, trees, fs).fs == fs
    decreases |pkgs|
  {
    if pkgs != [] && StowPackage(home, opts, source, pkgs[0], trees, fs).Success? {
      var step, rest := LoopStep(home, opts, source, pkgs, trees, fs);
      AllDryCons(step.0, rest.runs);
      StepKeepsFs(home, opts, source, pkgs[0], trees, fs);
      DryLoopLeavesFs(home, opts, source, pkgs[1..], trees, step.1);
    }
  }

  /**
   * `stow_container(container, **opts)`: the expanded source, the package
   * list, then the loop. A missing or non-string `source`, and a failed
   * listing, stop the container before any package.
   */
  function StowContainer(home: string, opts: seq<Field>, listing: Option<seq<string>>,
                         trees: map<string, Planner.Tree>, fs: Executor.FS): (r: ContainerRun)
    ensures ContainerSource(home, opts).Failure? ==> r == ContainerRun([], fs, Some(Raised(ContainerSource(home, opts).error)))
    ensures r.runs != [] ==> ContainerSource(home, opts).Success? && PackageItems(opts, ContainerSource(home, opts).value, listing).Success?
  {
    match ContainerSource(home, opts)
    case Failure(e) => ContainerRun([], fs, Some(Raised(e)))
    case Success(source) =>
      match PackageItems(opts, source, listing)
      case Failure(e) => ContainerRun([], fs, Some(Raised(e)))
      case Success(pkgs) => ContainerLoop(home, opts, source, pkgs, trees, fs)
  }

  /**
   * `--dry-run` (or `dry_run` in the configuration) reaches every `Stow`,
   * unless the package's rule names its file list `dry_run` and so
   * overrides it.
   */
  lemma DryOptionMakesDryCalls(home: string, opts: seq<Field>, source: string, pkg: string, dirs: set<string>)
    requires Truthy(Get(opts, "dry_run").GetOr(Null))
    requires RuleFor(opts, pkg).Success? ==> RuleFor(opts, pkg).value.0 != Str("dry_run")
    requires PackageCall(home, opts, source, Str(pkg), dirs).Success?
    ensures var call := PackageCall(home, opts, source, Str(pkg), dirs).value;
      call.Some? ==> call.value.dryRun
  {
    if PackageCall(home, opts, source, Str(pkg), dirs).value.Some? {
      var rule := RuleFor(opts, pkg).value;
      StowArgsKeys(opts, source, pkg, rule);
      assert "dry_run" in CopiedArgs;
    }
  }

  /**
   * A container stowed with a truthy `dry_run`, none of whose rules is
   * keyed `dry_run`, leaves the file system as it found it.
   */
  lemma DryContainerLeavesFs(home: string, opts: seq<Field>, listing: Option<seq<string>>,
                             trees: map<string, Planner.Tree>, fs: Executor.FS)
    requires Truthy(Get(opts, "dry_run").GetOr(Null))
    requires forall pkg :: RuleFor(opts, pkg).Success? ==> RuleFor(opts, pkg).value.0 != Str("dry_run")
    ensures StowContainer(home, opts, listing, trees, fs).fs == fs
  {
    var src := ContainerSource(home, opts);
    if src.Success? && PackageItems(opts, src.value, listing).Success? {
      var pkgs := PackageItems(opts, src.value, listing).value;
      var r := ContainerLoop(home, opts, src.value, pkgs, trees, fs);
      ContainerLoopCalls(home, opts, src.value, pkgs, trees, fs);
      forall i | 0 <= i < |r.runs| && r.runs[i].Linked? ensures r.runs[i].call.dryRun {
        DryOptionMakesDryCalls(home, opts, src.value, pkgs[i].s, trees.Keys);
      }
      assert AllDry(r.runs);
      if r.stop.Some? && r.stop.value.OsFailed? {
        DryOptionMakesDryCalls(home, opts, src.value, pkgs[|r.runs|].s, trees.Keys);
        assert false;
      }
      DryLoopLeavesFs(home, opts, src.value, pkgs, trees, fs);
    }
  }

  /** `hostname` is none of the keys `read` and `main` set or drop. */
  lemma HostnameNotTouched()
    ensures "hostname" != "name" && "hostname" != "containers" && "hostname" != "group_output" && "hostname" != "dry_run"
  {
    assert "hostname"[0] == 'h' && "name"[0] == 'n' && "containers"[0] == 'c';
    assert "group_output"[0] == 'g' && "dry_run"[0] == 'd';
  }

  /** The `hostname` a container is stowed with: the container entry's, else the read options'. */
  lemma HostnameThroughOptions(out: seq<Field>, forceDry: bool, opt: Value)
    requires CallOpts(opt, ExtraOpts(out, forceDry)).Success?
    ensures Get(CallOpts(opt, ExtraOpts(out, forceDry)).value, "hostname")
      == if HasKey(opt.fields, "hostname") then Get(opt.fields, "hostname") else Get(out, "hostname")
  {
    HostnameNotTouched();
    CallOptsGet(opt, ExtraOpts(out, forceDry), "hostname");
  }

  /** `read` passes the host section's `hostname` through untouched. */
  lemma ReadKeepsHostname(cfg: seq<Field>, hostname: string, out: seq<Field>)
    requires Config.Read(Obj(cfg), hostname) == Success(Obj(out))
    ensures Config.GetSection(cfg, hostname).Success?
    ensures HasKey(cfg, Config.GetSection(cfg, hostname).value)
    ensures Get(cfg, Config.GetSection(cfg, hostname).value).value.Obj?
    ensures Get(out, "hostname") == Get(Get(cfg, Config.GetSection(cfg, hostname).value).value.fields, "hostname")
  {
    HostnameNotTouched();
    Config.ReadKeepsKey(cfg, hostname, out, "hostname");
  }

  /**
   * The configuration fills in `name`, never `hostname`: the `hostname` a
   * `Stow` is built from is the container entry's, else the host section's
   * own. Unless one of them spells it out, there is none, and
   * `NoHostnameKeepsUntaggedOnly` applies.
   */
  lemma ReadLeavesHostnameUnset(cfg: seq<Field>, hostname: string, out: seq<Field>, forceDry: bool, opt: Value)
    requires Config.Read(Obj(cfg), hostname) == Success(Obj(out))
    requires CallOpts(opt, ExtraOpts(out, forceDry)).Success?
    ensures Config.GetSection(cfg, hostname).Success?
    ensures HasKey(cfg, Config.GetSection(cfg, hostname).value)
    ensures Get(cfg, Config.GetSection(cfg, hostname).value).value.Obj?
    ensures var host := Get(cfg, Config.GetSection(cfg, hostname).value).value.fields;
      Get(CallOpts(opt, ExtraOpts(out, forceDry)).value, "hostname")
        == if HasKey(opt.fields, "hostname") then Get(opt.fields, "hostname") else Get(host, "hostname")
  {
    ReadKeepsHostname(cfg, hostname, out);
    HostnameThroughOptions(out, forceDry, opt);
  }
}
