/**
 * `Stow.create`: for every planned (source, destination) pair, try to put a
 * symbolic link at the destination and record one of four outcomes. The
 * operating system is modelled as a flat map from path to node plus the set
 * of paths the user may not change; each system call either succeeds with a
 * new state or raises one of the errors the Python code distinguishes.
 */
module Executor {
  import opened Wrappers
  import opened Strings
  import opened Paths
  import Planner

  /** Where an existing symbolic link points. */
  datatype LinkTo = ToFile | ToDir | Dangling

  datatype Node = File | Dir | Link(to: LinkTo)

  /** The file system as the linker sees it. */
  datatype FS = FS(entries: map<string, Node>, denied: set<string>)

  /** The `OSError` subclasses the system calls raise. */
  datatype OsError = PermissionDenied | FileExists | FileNotFound | NotADirectory | IsADirectory

  /** A system call either completes or raises, leaving a (possibly changed) state behind. */
  datatype OsCall = Done(fs: FS) | Raised(err: OsError, fs: FS)

  /** An error escaping `create`, with the file system as the failing call left it: earlier changes stay on disk. */
  datatype Escape = Escape(err: OsError, fs: FS)

  /** The four result buckets of `Stow.states`. */
  datatype Outcome = Stowed | Restowed | Replaced | Skipped

  /** `os.path.exists`: follows links, so a dangling link does not exist. */
  predicate Exists(fs: FS, p: string) {
    p in fs.entries && fs.entries[p] != Link(Dangling)
  }

  /** `os.path.isfile`: a regular file, or a link to one. */
  predicate IsFile(fs: FS, p: string) {
    p in fs.entries && (fs.entries[p] == File || fs.entries[p] == Link(ToFile))
  }

  /** `os.path.islink`: a link of any kind, dangling ones included. */
  predicate IsLink(fs: FS, p: string) {
    p in fs.entries && fs.entries[p].Link?
  }

  /** A path that can serve as a directory when looked up through. */
  predicate ActsAsDir(fs: FS, p: string) {
    p in fs.entries && (fs.entries[p] == Dir || fs.entries[p] == Link(ToDir))
  }

  /** The directory that would hold `p` does not exist. */
  predicate ParentMissing(fs: FS, p: string) {
    Dirname(p) != "" && !Exists(fs, Dirname(p))
  }

  /** The directory that would hold `p` exists but is a file. */
  predicate ParentNotDir(fs: FS, p: string) {
    Dirname(p) != "" && Exists(fs, Dirname(p)) && !ActsAsDir(fs, Dirname(p))
  }

  /** A new entry can be looked up at `p`: its directory is the current one or a real directory. */
  predicate ParentOk(fs: FS, p: string) {
    Dirname(p) == "" || ActsAsDir(fs, Dirname(p))
  }

  /** `os.symlink(target, p)`; the link made points at the planned source, a file. */
  function Symlink(fs: FS, p: string): (r: OsCall)
    ensures r.Done? <==> ParentOk(fs, p) && p !in fs.entries && p !in fs.denied
    ensures r.Done? ==> r.fs.entries == fs.entries[p := Link(ToFile)] && r.fs.denied == fs.denied
    ensures r.Raised? ==> r.fs == fs
  {
    if ParentMissing(fs, p) then Raised(FileNotFound, fs)
    else if ParentNotDir(fs, p) then Raised(NotADirectory, fs)
    else if p in fs.entries then Raised(FileExists, fs)
    else if p in fs.denied then Raised(PermissionDenied, fs)
    else Done(FS(fs.entries[p := Link(ToFile)], fs.denied))
  }

  /** `os.remove(p)`: unlinks anything but a directory. */
  function Remove(fs: FS, p: string): (r: OsCall)
    ensures r.Done? <==> p in fs.entries && p !in fs.denied && fs.entries[p] != Dir
    ensures r.Done? ==> r.fs.entries == fs.entries - {p} && r.fs.denied == fs.denied
    ensures r.Raised? ==> r.fs == fs
  {
    if p !in fs.entries then Raised(FileNotFound, fs)
    else if p in fs.denied then Raised(PermissionDenied, fs)
    else if fs.entries[p] == Dir then Raised(IsADirectory, fs)
    else Done(FS(fs.entries - {p}, fs.denied))
  }

  /** `os.mkdir(d)`. */
  function Mkdir(fs: FS, d: string): (r: OsCall)
    ensures r.Done? <==> ParentOk(fs, d) && d !in fs.entries && d !in fs.denied
    ensures r.Done? ==> r.fs.entries == fs.entries[d := Dir] && r.fs.denied == fs.denied
    ensures r.Raised? ==> r.fs == fs
    ensures r.Raised? && r.err == FileExists ==> d in fs.entries
  {
    if ParentMissing(fs, d) then Raised(FileNotFound, fs)
    else if ParentNotDir(fs, d) then Raised(NotADirectory, fs)
    else if d in fs.entries then Raised(FileExists, fs)
    else if d in fs.denied then Raised(PermissionDenied, fs)
    else Done(FS(fs.entries[d := Dir], fs.denied))
  }

  /** `fs1` is `fs` with some directories added below `d`'s ancestry and nothing else changed. */
  predicate GrowsBy(fs: FS, fs1: FS, d: string) {
    && fs1.denied == fs.denied
    && (forall k :: k in fs.entries ==> k in fs1.entries && fs1.entries[k] == fs.entries[k])
    && (forall k :: k in fs1.entries && k !in fs.entries ==> fs1.entries[k] == Dir && IsPrefix(k, d))
  }

  /**
   * `os.makedirs(d)` with `exist_ok` false: first make the missing parent
   * (ignoring `FileExistsError` there), then `mkdir(d)`. Directories made
   * before an error stay made.
   */
  function Makedirs(fs: FS, d: string): (r: OsCall)
    ensures GrowsBy(fs, r.fs, d)
    ensures r.Done? ==> d !in fs.entries && d in r.fs.entries && r.fs.entries[d] == Dir
    decreases |d|
  {
    var head := Dirname(d);
    if head != "" && Basename(d) != "" && !Exists(fs, head) then
      assert |head| < |d|;
      var pre := Makedirs(fs, head);
      if pre.Raised? && pre.err != FileExists then
        GrowsWider(fs, pre.fs, head, d);
        pre
      else
        var made := Mkdir(pre.fs, d);
        GrowsThenMkdir(fs, pre.fs, made, head, d);
        made
    else
      Mkdir(fs, d)
  }

  /** Directories added below `Dirname(d)` are added below `d` too. */
  lemma GrowsWider(fs: FS, fs1: FS, head: string, d: string)
    requires head == Dirname(d)
    requires GrowsBy(fs, fs1, head)
    ensures GrowsBy(fs, fs1, d)
  {
    forall k | k in fs1.entries && k !in fs.entries
      ensures IsPrefix(k, d)
    {
      assert IsPrefix(k, head);
      assert d[..|k|] == head[..|k|];
    }
  }

  lemma GrowsThenMkdir(fs: FS, fs1: FS, made: OsCall, head: string, d: string)
    requires head == Dirname(d)
    requires GrowsBy(fs, fs1, head)
    requires made == Mkdir(fs1, d)
    ensures GrowsBy(fs, made.fs, d)
    ensures made.Done? ==> d !in fs.entries && d in made.fs.entries && made.fs.entries[d] == Dir
  {
    GrowsWider(fs, fs1, head, d);
    if made.Done? {
      assert d !in fs1.entries;
      forall k | k in made.fs.entries && k !in fs.entries
        ensures made.fs.entries[k] == Dir && IsPrefix(k, d)
      {
        if k != d {
          assert k in fs1.entries;
        }
      }
    }
  }

  /** One `create` step's result: the flag recorded and the state left behind. */
  datatype Step = Step(flag: Outcome, fs: FS)

  /** What still stands between `dest` and a fresh link: an entry in the way, a missing parent. */
  function Pending(fs: FS, dest: string): nat {
    (if dest in fs.entries && fs.entries[dest] != Dir then 2 else 0)
    + (if ParentMissing(fs, dest) then 1 else 0)
  }

  /** How the retry loop goes on after `os.symlink` raised: once more from a new state, or out. */
  datatype Next = Retry(fs: FS, flag: Outcome) | Stop(result: Result<Step, Escape>)

  /**
   * The exception handlers of `create`'s retry loop, for a `symlink(dest)`
   * that raised. An existing link, or with `overwrite` any other entry, is
   * removed and the loop retried with the new flag; a missing parent is made
   * with `makedirs` and the loop retried; a `PermissionError` anywhere skips
   * the candidate; any other error escapes `create`. Each retry removes its
   * own cause, so the loop ends.
   */
  function Recover(fs: FS, dest: string, flag: Outcome, overwrite: bool): (n: Next)
    requires Symlink(fs, dest).Raised?
    ensures n.Retry? ==> Pending(n.fs, dest) < Pending(fs, dest)
  {
    var err := Symlink(fs, dest).err;
    if err == PermissionDenied then Stop(Success(Step(Skipped, fs)))
    else if err == FileExists then
      if IsLink(fs, dest) || overwrite then
        var rm := Remove(fs, dest);
        if rm.Done? then Retry(rm.fs, if IsLink(fs, dest) then Restowed else Replaced)
        else if rm.err == PermissionDenied then Stop(Success(Step(Skipped, fs)))
        else Stop(Failure(Escape(rm.err, rm.fs)))
      else Stop(Success(Step(Skipped, fs)))
    else if err == FileNotFound then
      var mk := Makedirs(fs, Dirname(dest));
      if mk.Done? then Retry(mk.fs, flag)
      else if mk.err == PermissionDenied then Stop(Success(Step(Skipped, mk.fs)))
      else Stop(Failure(Escape(mk.err, mk.fs)))
    else Stop(Failure(Escape(err, fs)))
  }

  /** What the handlers leave: on a retry, the state to retry from; on a skip, the state to go on with. */
  predicate KeepsAllBut(fs: FS, fs1: FS, dest: string) {
    && fs1.denied == fs.denied
    && forall k :: k in fs.entries && k != dest ==> k in fs1.entries && fs1.entries[k] == fs.entries[k]
  }

  /**
   * The handlers change nothing but `dest` and the directories they make,
   * never the permissions, also when an error escapes, and only a skip
   * leaves the loop successfully.
   */
  lemma RecoverKeeps(fs: FS, dest: string, flag: Outcome, overwrite: bool)
    requires Symlink(fs, dest).Raised?
    ensures var n := Recover(fs, dest, flag, overwrite);
      && (n.Retry? ==> KeepsAllBut(fs, n.fs, dest))
      && (n.Stop? && n.result.Success? ==> n.result.value.flag == Skipped && KeepsAllBut(fs, n.result.value.fs, dest))
      && (n.Stop? && n.result.Failure? ==> KeepsAllBut(fs, n.result.error.fs, dest))
  {
    var err := Symlink(fs, dest).err;
    var n := Recover(fs, dest, flag, overwrite);
    if err == FileNotFound {
      var mk := Makedirs(fs, Dirname(dest));
      MakedirsKeeps(fs, Dirname(dest), dest);
      assert n == if mk.Done? then Retry(mk.fs, flag)
        else if mk.err == PermissionDenied then Stop(Success(Step(Skipped, mk.fs))) else Stop(Failure(Escape(mk.err, mk.fs)));
    } else if err == FileExists && (IsLink(fs, dest) || overwrite) {
      var rm := Remove(fs, dest);
      assert n.Retry? ==> n.fs == rm.fs;
      assert n.Stop? && n.result.Success? ==> n.result.value == Step(Skipped, fs);
      assert n.Stop? && n.result.Failure? ==> n.result.error.fs == fs;
    } else {
      assert n.Stop? && (n.result.Success? ==> n.result.value == Step(Skipped, fs));
      assert n.Stop? && (n.result.Failure? ==> n.result.error.fs == fs);
    }
  }

  lemma MakedirsKeeps(fs: FS, d: string, dest: string)
    ensures KeepsAllBut(fs, Makedirs(fs, d).fs, dest)
  {
  }

  /**
   * The `while True` retry loop of `create` for one destination, entered
   * with `flag`. A dry run only looks: a destination that `isfile` reports
   * restowed over a link, replaced with `overwrite`, skipped otherwise.
   */
  function Attempt(fs: FS, dest: string, flag: Outcome, dryRun: bool, overwrite: bool): (r: Result<Step, Escape>)
    ensures dryRun ==> r.Success? && r.value.fs == fs
    ensures r.Success? ==> r.value.fs.denied == fs.denied
    ensures r.Success? ==> forall k :: k in fs.entries && k != dest ==>
      k in r.value.fs.entries && r.value.fs.entries[k] == fs.entries[k]
    ensures r.Failure? ==> r.error.fs.denied == fs.denied
    ensures r.Failure? ==> forall k :: k in fs.entries && k != dest ==>
      k in r.error.fs.entries && r.error.fs.entries[k] == fs.entries[k]
    decreases Pending(fs, dest)
  {
    if dryRun then
      if !IsFile(fs, dest) then Success(Step(flag, fs))
      else if IsLink(fs, dest) then Success(Step(Restowed, fs))
      else if overwrite then Success(Step(Replaced, fs))
      else Success(Step(Skipped, fs))
    else
      var link := Symlink(fs, dest);
      if link.Done? then Success(Step(flag, link.fs))
      else
        RecoverKeeps(fs, dest, flag, overwrite);
        match Recover(fs, dest, flag, overwrite)
        case Retry(fs1, flag1) => Attempt(fs1, dest, flag1, dryRun, overwrite)
        case Stop(r) => r
  }

  /** A real attempt whose `symlink` raised goes on as its handlers say. */
  lemma AttemptRetries(fs: FS, dest: string, flag: Outcome, overwrite: bool)
    requires Symlink(fs, dest).Raised?
    ensures var n := Recover(fs, dest, flag, overwrite);
      Attempt(fs, dest, flag, false, overwrite) == if n.Retry? then Attempt(n.fs, dest, n.flag, false, overwrite) else n.result
  {
  }

  /** A link to a file stands at `dest`, in a reachable directory, and may be replaced. */
  predicate Linked(fs: FS, dest: string) {
    dest in fs.entries && fs.entries[dest] == Link(ToFile) && dest !in fs.denied && ParentOk(fs, dest)
  }

  /**
   * Making the parent of `dest` leaves `dest` itself alone, unless `dest`
   * is its own parent (a path of slashes only).
   */
  lemma MakedirsSparesDest(fs: FS, dest: string)
    requires Makedirs(fs, Dirname(dest)).Done?
    ensures var fs1 := Makedirs(fs, Dirname(dest)).fs;
      || Dirname(dest) == dest
      || ((dest in fs1.entries <==> dest in fs.entries) && (dest in fs.entries ==> fs1.entries[dest] == fs.entries[dest]))
  {
    var fs1 := Makedirs(fs, Dirname(dest)).fs;
    if dest in fs1.entries && dest !in fs.entries {
      assert IsPrefix(dest, Dirname(dest));
    }
  }

  /**
   * `makedirs(d)` can succeed: `d` is free and allowed, and its directory is
   * the current one, an existing directory, or itself free and makeable.
   */
  predicate CanMakedirs(fs: FS, d: string)
    decreases |d|
  {
    && d !in fs.entries && d !in fs.denied
    && (|| Dirname(d) == ""
        || ActsAsDir(fs, Dirname(d))
        || (Basename(d) != "" && Dirname(d) !in fs.entries && (DirnameShorter(d); CanMakedirs(fs, Dirname(d)))))
  }

  /** A `FileExistsError` out of `makedirs(d)` means `d` itself was already there. */
  lemma {:induction false} MakedirsExists(fs: FS, d: string)
    requires Makedirs(fs, d).Raised? && Makedirs(fs, d).err == FileExists
    ensures d in fs.entries
    decreases |d|
  {
    var head := Dirname(d);
    if head != "" && Basename(d) != "" && !Exists(fs, head) {
      DirnameShorter(d);
      var pre := Makedirs(fs, head);
      assert Makedirs(fs, d) == Mkdir(pre.fs, d);
      assert d !in fs.entries ==> IsPrefix(d, head);
    }
  }

  /** `makedirs(d)` succeeds exactly when the chain of missing directories down to `d` can be made. */
  lemma {:induction false} MakedirsDone(fs: FS, d: string)
    ensures Makedirs(fs, d).Done? <==> CanMakedirs(fs, d)
    decreases |d|
  {
    var head := Dirname(d);
    if head != "" && Basename(d) != "" && !Exists(fs, head) {
      DirnameShorter(d);
      MakedirsDone(fs, head);
      MakedirsDoneStep(fs, d);
    }
  }

  /** The recursive case of `MakedirsDone`, given its answer for the parent. */
  lemma MakedirsDoneStep(fs: FS, d: string)
    requires Dirname(d) != "" && Basename(d) != "" && !Exists(fs, Dirname(d))
    requires Makedirs(fs, Dirname(d)).Done? <==> CanMakedirs(fs, Dirname(d))
    ensures Makedirs(fs, d).Done? <==> CanMakedirs(fs, d)
  {
    var head := Dirname(d);
    DirnameShorter(d);
    var pre := Makedirs(fs, head);
    assert Makedirs(fs, d) == if pre.Raised? && pre.err != FileExists then pre else Mkdir(pre.fs, d);
    assert CanMakedirs(fs, d) == (d !in fs.entries && d !in fs.denied && (ActsAsDir(fs, head) || (head !in fs.entries && CanMakedirs(fs, head))));
    if pre.Raised? && pre.err == FileExists {
      MakedirsExists(fs, head);
      assert pre.fs.entries[head] == fs.entries[head];
      assert !ActsAsDir(pre.fs, head);
    } else if pre.Done? {
      assert ActsAsDir(pre.fs, head);
      assert d in pre.fs.entries && d !in fs.entries ==> IsPrefix(d, head);
    }
  }

  /**
   * A free destination whose directory is missing but can be made is
   * `stowed`: `makedirs` makes the directories and the second pass links.
   */
  lemma AttemptOnMissingParent(fs: FS, dest: string, overwrite: bool)
    requires ParentMissing(fs, dest) && Basename(dest) != ""
    requires dest !in fs.entries && dest !in fs.denied && CanMakedirs(fs, Dirname(dest))
    ensures var made := Makedirs(fs, Dirname(dest)).fs;
      Attempt(fs, dest, Stowed, false, overwrite) == Success(Step(Stowed, FS(made.entries[dest := Link(ToFile)], fs.denied)))
    ensures Linked(Attempt(fs, dest, Stowed, false, overwrite).value.fs, dest)
  {
    MakedirsDone(fs, Dirname(dest));
    var mk := Makedirs(fs, Dirname(dest));
    FirstPassMakesParent(fs, dest, overwrite);
    DirnameShorter(dest);
    MakedirsSparesDest(fs, dest);
    assert ParentOk(mk.fs, dest) && mk.fs.denied == fs.denied;
    AttemptOnReadyParent(mk.fs, dest, overwrite);
    var fs1 := FS(mk.fs.entries[dest := Link(ToFile)], fs.denied);
    assert ParentOk(fs1, dest);
  }

  /**
   * A missing directory that `makedirs` may not make: the `PermissionError`
   * skips the candidate, and the directories made before it stay.
   */
  lemma AttemptOnDeniedMakedirs(fs: FS, dest: string, overwrite: bool)
    requires ParentMissing(fs, dest)
    requires Makedirs(fs, Dirname(dest)).Raised? && Makedirs(fs, Dirname(dest)).err == PermissionDenied
    ensures Attempt(fs, dest, Stowed, false, overwrite) == Success(Step(Skipped, Makedirs(fs, Dirname(dest)).fs))
  {
  }

  /**
   * A denied destination whose directory is missing but can be made:
   * `makedirs` makes it, then the second `symlink` raises `PermissionError`
   * and the candidate is skipped over the directories made.
   */
  lemma AttemptOnMissingParentDenied(fs: FS, dest: string, overwrite: bool)
    requires ParentMissing(fs, dest) && Basename(dest) != ""
    requires dest in fs.denied && CanMakedirs(fs, Dirname(dest))
    ensures Attempt(fs, dest, Stowed, false, overwrite) == Success(Step(Skipped, Makedirs(fs, Dirname(dest)).fs))
  {
    MakedirsDone(fs, Dirname(dest));
    var mk := Makedirs(fs, Dirname(dest));
    FirstPassMakesParent(fs, dest, overwrite);
    assert ParentOk(mk.fs, dest) && mk.fs.denied == fs.denied;
    AttemptOnReadyParent(mk.fs, dest, overwrite);
  }

  /** With its directory missing, the first pass makes it and the attempt starts over from there. */
  lemma FirstPassMakesParent(fs: FS, dest: string, overwrite: bool)
    requires ParentMissing(fs, dest) && Makedirs(fs, Dirname(dest)).Done?
    ensures Attempt(fs, dest, Stowed, false, overwrite) == Attempt(Makedirs(fs, Dirname(dest)).fs, dest, Stowed, false, overwrite)
  {
    RecoverMakesParent(fs, dest, overwrite);
    AttemptRetries(fs, dest, Stowed, overwrite);
  }

  /** `FileNotFoundError` from `symlink` is answered by `makedirs` on the directory, then a retry. */
  lemma RecoverMakesParent(fs: FS, dest: string, overwrite: bool)
    requires ParentMissing(fs, dest) && Makedirs(fs, Dirname(dest)).Done?
    ensures Symlink(fs, dest).Raised?
    ensures Recover(fs, dest, Stowed, overwrite) == Retry(Makedirs(fs, Dirname(dest)).fs, Stowed)
  {
    assert Symlink(fs, dest) == Raised(FileNotFound, fs);
    var err := Symlink(fs, dest).err;
    assert err != PermissionDenied && err != FileExists && err == FileNotFound;
  }

  /** A real attempt that did not skip leaves a link standing at `dest`. */
  lemma {:induction false} AttemptLinks(fs: FS, dest: string, flag: Outcome, overwrite: bool)
    requires Attempt(fs, dest, flag, false, overwrite).Success?
    requires Attempt(fs, dest, flag, false, overwrite).value.flag != Skipped
    ensures Linked(Attempt(fs, dest, flag, false, overwrite).value.fs, dest)
    decreases Pending(fs, dest)
  {
    if Symlink(fs, dest).Raised? {
      RecoverKeeps(fs, dest, flag, overwrite);
      var n := Recover(fs, dest, flag, overwrite);
      AttemptRetries(fs, dest, flag, overwrite);
      if n.Retry? {
        AttemptLinks(n.fs, dest, n.flag, overwrite);
      }
    }
  }

  /** An attempt reports `Stowed` only when entered so, and, for real, only for a path that was free. */
  lemma {:induction false} AttemptStowed(fs: FS, dest: string, flag: Outcome, dryRun: bool, overwrite: bool, step: Step)
    requires Attempt(fs, dest, flag, dryRun, overwrite) == Success(step) && step.flag == Stowed
    ensures flag == Stowed
    ensures !dryRun ==> dest !in fs.entries
    decreases Pending(fs, dest)
  {
    if !dryRun && Symlink(fs, dest).Raised? {
      RecoverKeeps(fs, dest, flag, overwrite);
      var n := Recover(fs, dest, flag, overwrite);
      AttemptRetries(fs, dest, flag, overwrite);
      if n.Retry? {
        AttemptStowed(n.fs, dest, n.flag, dryRun, overwrite, step);
        if Symlink(fs, dest).err == FileNotFound {
          MakedirsSparesDest(fs, dest);
        }
      }
    }
  }

  /**
   * An attempt reports `Restowed` only over an existing link and `Replaced`
   * only over another entry with `overwrite`, unless entered with that flag.
   */
  lemma {:induction false} AttemptReplaces(fs: FS, dest: string, flag: Outcome, dryRun: bool, overwrite: bool, step: Step)
    requires Attempt(fs, dest, flag, dryRun, overwrite) == Success(step)
    ensures step.flag == Restowed ==> flag == Restowed || IsLink(fs, dest)
    ensures step.flag == Replaced ==> flag == Replaced || (overwrite && dest in fs.entries && !IsLink(fs, dest))
    decreases Pending(fs, dest)
  {
    if !dryRun && Symlink(fs, dest).Raised? {
      RecoverKeeps(fs, dest, flag, overwrite);
      var n := Recover(fs, dest, flag, overwrite);
      AttemptRetries(fs, dest, flag, overwrite);
      if n.Retry? {
        AttemptReplaces(n.fs, dest, n.flag, dryRun, overwrite, step);
        if Symlink(fs, dest).err == FileNotFound {
          MakedirsSparesDest(fs, dest);
        }
      }
    }
  }

  /**
   * A real run against a destination whose directory is in place: a free
   * path is linked, an existing link is replaced by a fresh one, any other
   * entry is replaced only with `overwrite` (a directory then stops the run),
   * and a path the user may not change is skipped, all without touching
   * anything else.
   */
  lemma AttemptOnReadyParent(fs: FS, dest: string, overwrite: bool)
    requires ParentOk(fs, dest) && Basename(dest) != ""
    ensures dest !in fs.entries && dest !in fs.denied ==>
      Attempt(fs, dest, Stowed, false, overwrite) == Success(Step(Stowed, FS(fs.entries[dest := Link(ToFile)], fs.denied)))
    ensures dest in fs.denied ==> Attempt(fs, dest, Stowed, false, overwrite) == Success(Step(Skipped, fs))
    ensures IsLink(fs, dest) && dest !in fs.denied ==>
      Attempt(fs, dest, Stowed, false, overwrite) == Success(Step(Restowed, FS(fs.entries[dest := Link(ToFile)], fs.denied)))
    ensures dest in fs.entries && !IsLink(fs, dest) && fs.entries[dest] != Dir && overwrite && dest !in fs.denied ==>
      Attempt(fs, dest, Stowed, false, overwrite) == Success(Step(Replaced, FS(fs.entries[dest := Link(ToFile)], fs.denied)))
    ensures dest in fs.entries && !IsLink(fs, dest) && !overwrite ==> Attempt(fs, dest, Stowed, false, overwrite) == Success(Step(Skipped, fs))
    ensures dest in fs.entries && fs.entries[dest] == Dir && overwrite && dest !in fs.denied ==>
      Attempt(fs, dest, Stowed, false, overwrite) == Failure(Escape(IsADirectory, fs))
  {
    if dest in fs.entries && dest !in fs.denied && fs.entries[dest] != Dir && (IsLink(fs, dest) || overwrite) {
      RemoveThenLink(fs, dest, overwrite);
    }
  }

  /** Over an entry it may remove, the loop removes it and links on the second pass. */
  lemma RemoveThenLink(fs: FS, dest: string, overwrite: bool)
    requires ParentOk(fs, dest) && Basename(dest) != ""
    requires dest in fs.entries && dest !in fs.denied && fs.entries[dest] != Dir && (IsLink(fs, dest) || overwrite)
    ensures Attempt(fs, dest, Stowed, false, overwrite)
      == Success(Step(if IsLink(fs, dest) then Restowed else Replaced, FS(fs.entries[dest := Link(ToFile)], fs.denied)))
  {
    RecoverRemoves(fs, dest, overwrite);
    AttemptRetries(fs, dest, Stowed, overwrite);
    LinkAfterRemove(fs, dest, overwrite);
  }

  /** The handler for an entry in the way removes it and retries under the new flag. */
  lemma RecoverRemoves(fs: FS, dest: string, overwrite: bool)
    requires ParentOk(fs, dest)
    requires dest in fs.entries && dest !in fs.denied && fs.entries[dest] != Dir && (IsLink(fs, dest) || overwrite)
    ensures Symlink(fs, dest).Raised?
    ensures Recover(fs, dest, Stowed, overwrite)
      == Retry(FS(fs.entries - {dest}, fs.denied), if IsLink(fs, dest) then Restowed else Replaced)
  {
    assert Symlink(fs, dest) == Raised(FileExists, fs);
    assert Remove(fs, dest) == Done(FS(fs.entries - {dest}, fs.denied));
  }

  /** With the entry removed, the retry links at once. */
  lemma LinkAfterRemove(fs: FS, dest: string, overwrite: bool)
    requires ParentOk(fs, dest) && Basename(dest) != ""
    requires dest in fs.entries && dest !in fs.denied
    ensures var flag := if IsLink(fs, dest) then Restowed else Replaced;
      Attempt(FS(fs.entries - {dest}, fs.denied), dest, flag, false, overwrite)
      == Success(Step(flag, FS(fs.entries[dest := Link(ToFile)], fs.denied)))
  {
    var fs1 := FS(fs.entries - {dest}, fs.denied);
    DirnameShorter(dest);
    assert ParentOk(fs1, dest);
    assert fs1.entries[dest := Link(ToFile)] == fs.entries[dest := Link(ToFile)];
    assert Symlink(fs1, dest) == Done(FS(fs.entries[dest := Link(ToFile)], fs.denied));
  }

  /** Running again over a freshly made link reports it restowed and changes nothing. */
  lemma RelinkIsStable(fs: FS, dest: string, overwrite: bool)
    requires Linked(fs, dest) && Basename(dest) != ""
    ensures Attempt(fs, dest, Stowed, false, overwrite) == Success(Step(Restowed, fs))
  {
    AttemptOnReadyParent(fs, dest, overwrite);
    assert fs.entries[dest := Link(ToFile)] == fs.entries;
  }

  /** Idempotence of one candidate: whatever a real run linked, a second run restows in place. */
  lemma AttemptTwice(fs: FS, dest: string, overwrite: bool, overwrite2: bool)
    requires Basename(dest) != ""
    requires Attempt(fs, dest, Stowed, false, overwrite).Success?
    requires Attempt(fs, dest, Stowed, false, overwrite).value.flag != Skipped
    ensures var fs1 := Attempt(fs, dest, Stowed, false, overwrite).value.fs;
      Attempt(fs1, dest, Stowed, false, overwrite2) == Success(Step(Restowed, fs1))
  {
    AttemptLinks(fs, dest, Stowed, overwrite);
    RelinkIsStable(Attempt(fs, dest, Stowed, false, overwrite).value.fs, dest, overwrite2);
  }

  /**
   * The loop of `create`: each candidate in order, against the state the
   * previous ones left. The first escaping error ends the whole run.
   */
  function RunAll(fs: FS, files: seq<Planner.Pair>, dryRun: bool, overwrite: bool): (r: Result<(seq<Outcome>, FS), Escape>)
    ensures r.Success? ==> |r.value.0| == |files|
    decreases |files|
  {
    if files == [] then Success(([], fs))
    else
      var n := |files| - 1;
      var prev :- RunAll(fs, files[..n], dryRun, overwrite);
      var step :- Attempt(prev.1, files[n].1, Stowed, dryRun, overwrite);
      Success((prev.0 + [step.flag], step.fs))
  }

  /** The candidates whose outcome is `s`, in their original order: one result bucket. */
  function Select(files: seq<Planner.Pair>, outs: seq<Outcome>, s: Outcome): seq<Planner.Pair>
    requires |files| == |outs|
    decreases |files|
  {
    if files == [] then []
    else
      var n := |files| - 1;
      Select(files[..n], outs[..n], s) + (if outs[n] == s then [files[n]] else [])
  }

  /** Adding one more candidate adds it to its own bucket only. */
  lemma SelectSnoc(files: seq<Planner.Pair>, outs: seq<Outcome>, s: Outcome)
    requires |files| == |outs| && files != []
    ensures outs[|files| - 1] == s ==>
      multiset(Select(files, outs, s)) == multiset(Select(files[..|files| - 1], outs[..|files| - 1], s)) + multiset{files[|files| - 1]}
    ensures outs[|files| - 1] != s ==>
      multiset(Select(files, outs, s)) == multiset(Select(files[..|files| - 1], outs[..|files| - 1], s))
  {
  }

  /** Everything the four buckets hold together. */
  function Buckets(files: seq<Planner.Pair>, outs: seq<Outcome>): multiset<Planner.Pair>
    requires |files| == |outs|
  {
    multiset(Select(files, outs, Stowed)) + multiset(Select(files, outs, Restowed))
    + multiset(Select(files, outs, Replaced)) + multiset(Select(files, outs, Skipped))
  }

  lemma BucketsSnoc(files: seq<Planner.Pair>, outs: seq<Outcome>)
    requires |files| == |outs| && files != []
    ensures Buckets(files, outs) == Buckets(files[..|files| - 1], outs[..|files| - 1]) + multiset{files[|files| - 1]}
  {
    var n := |files| - 1;
    var pre, po := files[..n], outs[..n];
    SelectSnoc(files, outs, Stowed);
    SelectSnoc(files, outs, Restowed);
    SelectSnoc(files, outs, Replaced);
    SelectSnoc(files, outs, Skipped);
    AddToOneOfFour(
      multiset(Select(pre, po, Stowed)), multiset(Select(pre, po, Restowed)),
      multiset(Select(pre, po, Replaced)), multiset(Select(pre, po, Skipped)),
      multiset(Select(files, outs, Stowed)), multiset(Select(files, outs, Restowed)),
      multiset(Select(files, outs, Replaced)), multiset(Select(files, outs, Skipped)),
      multiset{files[n]});
  }

  /** Adding `x` to exactly one of four parts adds it to their sum. */
  lemma AddToOneOfFour<T>(a: multiset<T>, b: multiset<T>, c: multiset<T>, d: multiset<T>,
                          a1: multiset<T>, b1: multiset<T>, c1: multiset<T>, d1: multiset<T>, x: multiset<T>)
    requires || (a1 == a + x && b1 == b && c1 == c && d1 == d)
             || (a1 == a && b1 == b + x && c1 == c && d1 == d)
             || (a1 == a && b1 == b && c1 == c + x && d1 == d)
             || (a1 == a && b1 == b && c1 == c && d1 == d + x)
    ensures a1 + b1 + c1 + d1 == a + b + c + d + x
  {
  }

  lemma MultisetSnoc<T>(s: seq<T>)
    requires s != []
    ensures multiset(s) == multiset(s[..|s| - 1]) + multiset{s[|s| - 1]}
  {
    assert s == s[..|s| - 1] + [s[|s| - 1]];
  }

  /** The four buckets split the candidates: every pair lands in exactly one, duplicates kept. */
  lemma {:induction false} SelectPartition(files: seq<Planner.Pair>, outs: seq<Outcome>)
    requires |files| == |outs|
    ensures Buckets(files, outs) == multiset(files)
    decreases |files|
  {
    if files != [] {
      var n := |files| - 1;
      SelectPartition(files[..n], outs[..n]);
      BucketsSnoc(files, outs);
      MultisetSnoc(files);
    }
  }

  /** A bucket holds exactly the pairs whose outcome is its own. */
  lemma {:induction false} SelectMembers(files: seq<Planner.Pair>, outs: seq<Outcome>, s: Outcome, x: Planner.Pair)
    requires |files| == |outs|
    ensures x in Select(files, outs, s) <==> exists i :: 0 <= i < |files| && files[i] == x && outs[i] == s
    decreases |files|
  {
    if files != [] {
      var n := |files| - 1;
      SelectMembers(files[..n], outs[..n], s, x);
      if x in Select(files[..n], outs[..n], s) {
        var i :| 0 <= i < n && files[..n][i] == x && outs[..n][i] == s;
        assert files[i] == x && outs[i] == s;
      }
    }
  }

  /** What a dry run reports for `dest`: it only looks, with `isfile` and `islink`. */
  function DryFlag(fs: FS, dest: string, overwrite: bool): Outcome {
    if !IsFile(fs, dest) then Stowed
    else if IsLink(fs, dest) then Restowed
    else if overwrite then Replaced
    else Skipped
  }

  /**
   * A dry run never fails and never changes the file system, so every
   * candidate is judged against the state the run started from.
   */
  lemma {:induction false} DryRunReports(fs: FS, files: seq<Planner.Pair>, overwrite: bool)
    ensures RunAll(fs, files, true, overwrite).Success?
    ensures RunAll(fs, files, true, overwrite).value.1 == fs
    ensures forall i :: 0 <= i < |files| ==>
      RunAll(fs, files, true, overwrite).value.0[i] == DryFlag(fs, files[i].1, overwrite)
    decreases |files|
  {
    if files != [] {
      var n := |files| - 1;
      DryRunReports(fs, files[..n], overwrite);
      var prev := RunAll(fs, files[..n], true, overwrite).value;
      var r := RunAll(fs, files, true, overwrite).value;
      assert r.0 == prev.0 + [DryFlag(fs, files[n].1, overwrite)];
      forall i | 0 <= i < |files|
        ensures r.0[i] == DryFlag(fs, files[i].1, overwrite)
      {
        if i < n {
          assert r.0[i] == prev.0[i];
          assert files[..n][i] == files[i];
        }
      }
    }
  }

  lemma RunAllFailStep(fs: FS, files: seq<Planner.Pair>, dryRun: bool, overwrite: bool, e: Escape)
    requires files != [] && RunAll(fs, files[..|files| - 1], dryRun, overwrite) == Failure(e)
    ensures RunAll(fs, files, dryRun, overwrite) == Failure(e)
  {
  }

  /** A successful run is a successful run of all but the last candidate, then one more attempt. */
  lemma RunAllSuccessStep(fs: FS, files: seq<Planner.Pair>, dryRun: bool, overwrite: bool)
    requires files != [] && RunAll(fs, files, dryRun, overwrite).Success?
    ensures var n := |files| - 1;
      var prev := RunAll(fs, files[..n], dryRun, overwrite);
      && prev.Success?
      && Attempt(prev.value.1, files[n].1, Stowed, dryRun, overwrite).Success?
      && var step := Attempt(prev.value.1, files[n].1, Stowed, dryRun, overwrite).value;
         RunAll(fs, files, dryRun, overwrite).value == (prev.value.0 + [step.flag], step.fs)
  {
  }

  lemma PrefixOfPrefix<T>(s: seq<T>, n: nat, i: nat)
    requires i <= n <= |s|
    ensures s[..n][..i] == s[..i]
  {
  }

  /** Once some prefix of the candidates fails, the whole run fails with that error. */
  lemma {:induction false} RunAllPrefixFails(fs: FS, files: seq<Planner.Pair>, i: nat, dryRun: bool, overwrite: bool, e: Escape)
    requires i <= |files|
    requires RunAll(fs, files[..i], dryRun, overwrite) == Failure(e)
    ensures RunAll(fs, files, dryRun, overwrite) == Failure(e)
    decreases |files| - i
  {
    if i < |files| {
      RunAllFailsOneMore(fs, files, i, dryRun, overwrite, e);
      RunAllPrefixFails(fs, files, i + 1, dryRun, overwrite, e);
    } else {
      assert files[..i] == files;
    }
  }

  lemma RunAllFailsOneMore(fs: FS, files: seq<Planner.Pair>, i: nat, dryRun: bool, overwrite: bool, e: Escape)
    requires i < |files| && RunAll(fs, files[..i], dryRun, overwrite) == Failure(e)
    ensures RunAll(fs, files[..i + 1], dryRun, overwrite) == Failure(e)
  {
    var next := files[..i + 1];
    assert next[..|next| - 1] == files[..i];
    RunAllFailStep(fs, next, dryRun, overwrite, e);
  }

  /** A run over `files[..i]` followed by a failed attempt on candidate `i` fails as a whole, and was not dry. */
  lemma RunAllStops(fs: FS, files: seq<Planner.Pair>, i: nat, dryRun: bool, overwrite: bool, outs: seq<Outcome>, cur: FS)
    requires i < |files|
    requires RunAll(fs, files[..i], dryRun, overwrite) == Success((outs, cur))
    requires Attempt(cur, files[i].1, Stowed, dryRun, overwrite).Failure?
    ensures !dryRun
    ensures RunAll(fs, files, dryRun, overwrite) == Failure(Attempt(cur, files[i].1, Stowed, dryRun, overwrite).error)
  {
    var e := Attempt(cur, files[i].1, Stowed, dryRun, overwrite).error;
    RunAllStopsAt(fs, files, i, dryRun, overwrite, outs, cur);
    RunAllPrefixFails(fs, files, i + 1, dryRun, overwrite, e);
  }

  lemma RunAllStopsAt(fs: FS, files: seq<Planner.Pair>, i: nat, dryRun: bool, overwrite: bool, outs: seq<Outcome>, cur: FS)
    requires i < |files|
    requires RunAll(fs, files[..i], dryRun, overwrite) == Success((outs, cur))
    requires Attempt(cur, files[i].1, Stowed, dryRun, overwrite).Failure?
    ensures RunAll(fs, files[..i + 1], dryRun, overwrite) == Failure(Attempt(cur, files[i].1, Stowed, dryRun, overwrite).error)
  {
    PrefixOfPrefix(files, i + 1, i);
  }

  /**
   * The converse of `RunAllStops`: a failed run is a successful run of some
   * prefix, then an attempt on the next candidate that lets an error escape.
   * The state the error carries keeps everything that prefix did, and
   * everything that was there before, except at that candidate's destination.
   */
  lemma {:induction false} RunAllFails(fs: FS, files: seq<Planner.Pair>, dryRun: bool, overwrite: bool)
    returns (i: nat, outs: seq<Outcome>, cur: FS)
    requires RunAll(fs, files, dryRun, overwrite).Failure?
    ensures i < |files| && !dryRun
    ensures RunAll(fs, files[..i], dryRun, overwrite) == Success((outs, cur))
    ensures Attempt(cur, files[i].1, Stowed, dryRun, overwrite) == Failure(RunAll(fs, files, dryRun, overwrite).error)
    ensures KeepsAllBut(cur, RunAll(fs, files, dryRun, overwrite).error.fs, files[i].1)
    decreases |files|
  {
    var n := |files| - 1;
    var prev := RunAll(fs, files[..n], dryRun, overwrite);
    if prev.Failure? {
      i, outs, cur := RunAllFails(fs, files[..n], dryRun, overwrite);
      PrefixOfPrefix(files, n, i);
      assert files[..n][i] == files[i];
    } else {
      i, outs, cur := n, prev.value.0, prev.value.1;
    }
  }

  /**
   * A run over `/d/a` then `/f/b`, where `/d` is a directory and `/f` a
   * file: the second `symlink` raises `NotADirectoryError`, which escapes,
   * and the link made at `/d/a` is still there.
   */
  lemma EscapeKeepsEarlierLink()
    ensures var fs := FS(map["/d" := Dir, "/f" := File], {});
      RunAll(fs, [("/s/a", "/d/a"), ("/s/b", "/f/b")], false, false)
      == Failure(Escape(NotADirectory, FS(map["/d" := Dir, "/f" := File, "/d/a" := Link(ToFile)], {})))
  {
    var fs := FS(map["/d" := Dir, "/f" := File], {});
    var fs1 := FS(map["/d" := Dir, "/f" := File, "/d/a" := Link(ToFile)], {});
    var files: seq<Planner.Pair> := [("/s/a", "/d/a"), ("/s/b", "/f/b")];
    var none: seq<Outcome> := [];
    FirstLinkMade();
    assert files[..0] == [] && files[0].1 == "/d/a";
    RunAllExtend(fs, files, 0, false, false, none, fs, Step(Stowed, fs1));
    assert none + [Stowed] == [Stowed];
    SecondEscapes();
    assert files[1].1 == "/f/b";
    RunAllStops(fs, files, 1, false, false, [Stowed], fs1);
  }

  lemma FirstLinkMade()
    ensures Attempt(FS(map["/d" := Dir, "/f" := File], {}), "/d/a", Stowed, false, false)
      == Success(Step(Stowed, FS(map["/d" := Dir, "/f" := File, "/d/a" := Link(ToFile)], {})))
  {
    var fs := FS(map["/d" := Dir, "/f" := File], {});
    var fs1 := FS(map["/d" := Dir, "/f" := File, "/d/a" := Link(ToFile)], {});
    DirnameOfChild("/d", "a");
    assert "/d" + "/" + "a" == "/d/a";
    assert fs.entries["/d/a" := Link(ToFile)] == fs1.entries;
    assert Symlink(fs, "/d/a") == Done(fs1);
  }

  lemma SecondEscapes()
    ensures var fs1 := FS(map["/d" := Dir, "/f" := File, "/d/a" := Link(ToFile)], {});
      Attempt(fs1, "/f/b", Stowed, false, false) == Failure(Escape(NotADirectory, fs1))
  {
    var fs1 := FS(map["/d" := Dir, "/f" := File, "/d/a" := Link(ToFile)], {});
    DirnameOfChild("/f", "b");
    assert "/f" + "/" + "b" == "/f/b";
    assert ParentNotDir(fs1, "/f/b") && !ParentMissing(fs1, "/f/b");
    assert Symlink(fs1, "/f/b") == Raised(NotADirectory, fs1);
    assert Recover(fs1, "/f/b", Stowed, false) == Stop(Failure(Escape(NotADirectory, fs1)));
  }

  /** A run over `files[..i]` followed by a successful attempt on candidate `i` is the run over `files[..i + 1]`. */
  lemma RunAllExtend(fs: FS, files: seq<Planner.Pair>, i: nat, dryRun: bool, overwrite: bool,
                     outs: seq<Outcome>, cur: FS, step: Step)
    requires i < |files|
    requires RunAll(fs, files[..i], dryRun, overwrite) == Success((outs, cur))
    requires Attempt(cur, files[i].1, Stowed, dryRun, overwrite) == Success(step)
    ensures RunAll(fs, files[..i + 1], dryRun, overwrite) == Success((outs + [step.flag], step.fs))
  {
    assert files[..i + 1][..i] == files[..i];
  }

  /** `create`'s result dictionary: the candidates and the four buckets. */
  datatype Report = Report(files: seq<Planner.Pair>, results: map<Outcome, seq<Planner.Pair>>)

  const AllOutcomes: set<Outcome> := {Stowed, Restowed, Replaced, Skipped}

  /** `output['results'][flag].append(pair)`. */
  function FileUnder(m: map<Outcome, seq<Planner.Pair>>, flag: Outcome, p: Planner.Pair): map<Outcome, seq<Planner.Pair>> {
    m[flag := (if flag in m then m[flag] else []) + [p]]
  }

  /** The result dict as `create` fills it: each candidate appended to its outcome's list. */
  function Filed(files: seq<Planner.Pair>, outs: seq<Outcome>): map<Outcome, seq<Planner.Pair>>
    requires |files| == |outs|
    decreases |files|
  {
    if files == [] then map[Stowed := [], Restowed := [], Replaced := [], Skipped := []]
    else
      var n := |files| - 1;
      FileUnder(Filed(files[..n], outs[..n]), outs[n], files[n])
  }

  /** The four result lists, each holding its candidates in input order. */
  function ResultLists(files: seq<Planner.Pair>, outs: seq<Outcome>): (m: map<Outcome, seq<Planner.Pair>>)
    requires |files| == |outs|
    ensures m.Keys == AllOutcomes
  {
    map s | s in AllOutcomes :: Select(files, outs, s)
  }

  /** Filing candidate by candidate gives exactly the four buckets `Select` describes. */
  lemma {:induction false} FiledIsSelect(files: seq<Planner.Pair>, outs: seq<Outcome>)
    requires |files| == |outs|
    ensures Filed(files, outs) == ResultLists(files, outs)
    decreases |files|
  {
    if files != [] {
      var n := |files| - 1;
      FiledIsSelect(files[..n], outs[..n]);
      var o := outs[n];
      assert o in AllOutcomes by {
        assert o.Stowed? || o.Restowed? || o.Replaced? || o.Skipped?;
      }
      var m := Filed(files, outs);
      assert m.Keys == AllOutcomes;
      forall s | s in AllOutcomes ensures m[s] == Select(files, outs, s) {
      }
    } else {
      assert Filed(files, outs).Keys == AllOutcomes;
    }
  }

  /** One more candidate filed. */
  lemma FiledSnoc(files: seq<Planner.Pair>, i: nat, outs: seq<Outcome>, flag: Outcome)
    requires i < |files| && |outs| == i
    ensures Filed(files[..i + 1], outs + [flag]) == FileUnder(Filed(files[..i], outs), flag, files[i])
  {
    var f := files[..i + 1];
    var o := outs + [flag];
    assert f[..i] == files[..i] && o[..i] == outs && f[i] == files[i] && o[i] == flag;
  }

  /**
   * What `create` returns: the error that escaped the run, or the
   * candidates, the four result lists and the state the run left.
   */
  function CreateResult(fs: FS, files: seq<Planner.Pair>, dryRun: bool, overwrite: bool): Result<(Report, FS), Escape> {
    match RunAll(fs, files, dryRun, overwrite)
    case Failure(e) => Failure(e)
    case Success(run) => Success((Report(files, ResultLists(files, run.0)), run.1))
  }

  lemma CreateEnds(fs: FS, files: seq<Planner.Pair>, dryRun: bool, overwrite: bool,
                   outs: seq<Outcome>, cur: FS, results: map<Outcome, seq<Planner.Pair>>)
    requires Filing(fs, files, dryRun, overwrite, |files|, outs, cur, results)
    ensures CreateResult(fs, files, dryRun, overwrite) == Success((Report(files, results), cur))
  {
    assert files[..|files|] == files;
    FiledIsSelect(files, outs);
  }

  lemma CreateStops(fs: FS, files: seq<Planner.Pair>, i: nat, dryRun: bool, overwrite: bool, outs: seq<Outcome>, cur: FS)
    requires i < |files|
    requires RunAll(fs, files[..i], dryRun, overwrite) == Success((outs, cur))
    requires Attempt(cur, files[i].1, Stowed, dryRun, overwrite).Failure?
    ensures CreateResult(fs, files, dryRun, overwrite) == Failure(Attempt(cur, files[i].1, Stowed, dryRun, overwrite).error)
  {
    RunAllStops(fs, files, i, dryRun, overwrite, outs, cur);
  }

  /** Where `create`'s loop stands after `i` candidates: their outcomes, the state, the dict so far. */
  predicate Filing(fs: FS, files: seq<Planner.Pair>, dryRun: bool, overwrite: bool,
                   i: nat, outs: seq<Outcome>, cur: FS, results: map<Outcome, seq<Planner.Pair>>) {
    && i <= |files| && |outs| == i
    && RunAll(fs, files[..i], dryRun, overwrite) == Success((outs, cur))
    && results == Filed(files[..i], outs)
  }

  lemma FilingStarts(fs: FS, files: seq<Planner.Pair>, dryRun: bool, overwrite: bool)
    ensures Filing(fs, files, dryRun, overwrite, 0, [], fs, map[Stowed := [], Restowed := [], Replaced := [], Skipped := []])
  {
    assert files[..0] == [];
  }

  /** A successful attempt on candidate `i` files it and moves the loop on by one. */
  lemma FilingStep(fs: FS, files: seq<Planner.Pair>, dryRun: bool, overwrite: bool,
                   i: nat, outs: seq<Outcome>, cur: FS, results: map<Outcome, seq<Planner.Pair>>, step: Step)
    requires i < |files| && Filing(fs, files, dryRun, overwrite, i, outs, cur, results)
    requires Attempt(cur, files[i].1, Stowed, dryRun, overwrite) == Success(step)
    ensures Filing(fs, files, dryRun, overwrite, i + 1, outs + [step.flag], step.fs, FileUnder(results, step.flag, files[i]))
  {
    RunAllExtend(fs, files, i, dryRun, overwrite, outs, cur, step);
    FiledSnoc(files, i, outs, step.flag);
  }

  /**
   * `Stow.create`: links every candidate in order and files it under its
   * outcome. Returns the report and the final file system, or the error that
   * escaped.
   */
  method Create(fs: FS, files: seq<Planner.Pair>, dryRun: bool, overwrite: bool)
    returns (r: Result<(Report, FS), Escape>)
    ensures r == CreateResult(fs, files, dryRun, overwrite)
    ensures dryRun ==> r.Success? && r.value.1 == fs
  {
    var results: map<Outcome, seq<Planner.Pair>> := map[Stowed := [], Restowed := [], Replaced := [], Skipped := []];
    var cur := fs;
    var outs: seq<Outcome> := [];
    var i := 0;
    FilingStarts(fs, files, dryRun, overwrite);
    while i < |files|
      invariant Filing(fs, files, dryRun, overwrite, i, outs, cur, results)
      decreases |files| - i
    {
      var step := Attempt(cur, files[i].1, Stowed, dryRun, overwrite);
      if step.Failure? {
        CreateStops(fs, files, i, dryRun, overwrite, outs, cur);
        return Failure(step.error);
      }
      FilingStep(fs, files, dryRun, overwrite, i, outs, cur, results, step.value);
      outs, cur, results := outs + [step.value.flag], step.value.fs, FileUnder(results, step.value.flag, files[i]);
      i := i + 1;
    }
    CreateEnds(fs, files, dryRun, overwrite, outs, cur, results);
    if dryRun {
      DryRunReports(fs, files, overwrite);
    }
    r := Success((Report(files, results), cur));
  }

  /** Candidates that cannot disturb each other: distinct links, none the directory of another. */
  predicate Independent(files: seq<Planner.Pair>) {
    && (forall i, j :: 0 <= i < j < |files| ==> files[i].1 != files[j].1)
    && (forall i, j :: 0 <= i < |files| && 0 <= j < |files| ==> files[i].1 != Dirname(files[j].1))
    && (forall i :: 0 <= i < |files| ==> Basename(files[i].1) != "")
  }

  /** A link survives an attempt elsewhere that keeps every other entry and the permissions. */
  lemma LinkedSurvives(fs: FS, fs1: FS, d: string, dest: string)
    requires Linked(fs, d) && d != dest && Dirname(d) != dest
    requires fs1.denied == fs.denied
    requires forall k :: k in fs.entries && k != dest ==> k in fs1.entries && fs1.entries[k] == fs.entries[k]
    ensures Linked(fs1, d)
  {
  }

  lemma IndependentPrefix(files: seq<Planner.Pair>, n: nat)
    requires Independent(files) && n <= |files|
    ensures Independent(files[..n])
  {
    var pre := files[..n];
    forall i, j | 0 <= i < |pre| && 0 <= j < |pre|
      ensures pre[i].1 != Dirname(pre[j].1)
    {
      assert pre[i] == files[i] && pre[j] == files[j];
    }
  }

  /** The links of all earlier candidates survive the last candidate's attempt, which links its own. */
  lemma AllSurvive(fs: FS, fs1: FS, files: seq<Planner.Pair>, pre: seq<Planner.Pair>, dest: string)
    requires Independent(files) && files != [] && dest == files[|files| - 1].1
    requires pre == files[..|files| - 1]
    requires forall i :: 0 <= i < |pre| ==> Linked(fs, pre[i].1)
    requires fs1.denied == fs.denied
    requires forall k :: k in fs.entries && k != dest ==> k in fs1.entries && fs1.entries[k] == fs.entries[k]
    requires Linked(fs1, dest)
    ensures forall i :: 0 <= i < |files| ==> Linked(fs1, files[i].1)
  {
    forall i | 0 <= i < |files|
      ensures Linked(fs1, files[i].1)
    {
      if i < |pre| {
        assert pre[i] == files[i];
        LinkedSurvives(fs, fs1, files[i].1, dest);
      }
    }
  }

  /** A successful run, taken apart into the run over all but the last candidate and the last attempt. */
  lemma {:induction false} RunAllLast(fs: FS, files: seq<Planner.Pair>, dryRun: bool, overwrite: bool, outs: seq<Outcome>, fs1: FS)
    returns (prevOuts: seq<Outcome>, prevFs: FS, step: Step)
    requires files != [] && RunAll(fs, files, dryRun, overwrite) == Success((outs, fs1))
    ensures RunAll(fs, files[..|files| - 1], dryRun, overwrite) == Success((prevOuts, prevFs))
    ensures Attempt(prevFs, files[|files| - 1].1, Stowed, dryRun, overwrite) == Success(step)
    ensures outs == prevOuts + [step.flag] && fs1 == step.fs
  {
    var n := |files| - 1;
    var prev := RunAll(fs, files[..n], dryRun, overwrite).value;
    prevOuts, prevFs := prev.0, prev.1;
    step := Attempt(prevFs, files[n].1, Stowed, dryRun, overwrite).value;
  }

  lemma NoneSkippedSnoc(outs: seq<Outcome>, flag: Outcome)
    requires forall i :: 0 <= i < |outs + [flag]| ==> (outs + [flag])[i] != Skipped
    ensures flag != Skipped && forall i :: 0 <= i < |outs| ==> outs[i] != Skipped
  {
    assert (outs + [flag])[|outs|] == flag;
    forall i | 0 <= i < |outs| ensures outs[i] != Skipped {
      assert (outs + [flag])[i] == outs[i];
    }
  }

  /** After a real run in which nothing was skipped, every candidate's link stands. */
  lemma {:induction false} RunLinksAll(fs: FS, files: seq<Planner.Pair>, overwrite: bool, outs: seq<Outcome>, fs1: FS)
    requires Independent(files)
    requires RunAll(fs, files, false, overwrite) == Success((outs, fs1))
    requires forall i :: 0 <= i < |outs| ==> outs[i] != Skipped
    ensures forall i :: 0 <= i < |files| ==> Linked(fs1, files[i].1)
    decreases |files|
  {
    if files != [] {
      var n := |files| - 1;
      var pre := files[..n];
      var dest := files[n].1;
      var prevOuts, prevFs, step := RunAllLast(fs, files, false, overwrite, outs, fs1);
      NoneSkippedSnoc(prevOuts, step.flag);
      IndependentPrefix(files, n);
      RunLinksAll(fs, pre, overwrite, prevOuts, prevFs);
      AttemptLinks(prevFs, dest, Stowed, overwrite);
      AllSurvive(prevFs, fs1, files, pre, dest);
    }
  }

  /** `n` outcomes, all `o`. */
  function Repeat(o: Outcome, n: nat): (r: seq<Outcome>)
    ensures |r| == n
  {
    if n == 0 then [] else Repeat(o, n - 1) + [o]
  }

  /**
   * Idempotence: running `create` again over the state a clean run left
   * reports every candidate restowed and leaves the file system as it was.
   */
  lemma {:induction false} RerunRestowsAll(fs: FS, files: seq<Planner.Pair>, overwrite: bool, overwrite2: bool)
    requires Independent(files)
    requires RunAll(fs, files, false, overwrite).Success?
    requires forall i :: 0 <= i < |files| ==> RunAll(fs, files, false, overwrite).value.0[i] != Skipped
    ensures var fs1 := RunAll(fs, files, false, overwrite).value.1;
      RunAll(fs1, files, false, overwrite2) == Success((Repeat(Restowed, |files|), fs1))
  {
    var r := RunAll(fs, files, false, overwrite).value;
    RunLinksAll(fs, files, overwrite, r.0, r.1);
    StableRun(r.1, files, overwrite2);
  }

  /** Over candidates whose links all stand, a real run restows each one and changes nothing. */
  lemma {:induction false} StableRun(fs: FS, files: seq<Planner.Pair>, overwrite: bool)
    requires forall i :: 0 <= i < |files| ==> Linked(fs, files[i].1) && Basename(files[i].1) != ""
    ensures RunAll(fs, files, false, overwrite).Success?
    ensures RunAll(fs, files, false, overwrite).value.1 == fs
    ensures RunAll(fs, files, false, overwrite).value.0 == Repeat(Restowed, |files|)
    decreases |files|
  {
    if files != [] {
      var n := |files| - 1;
      forall i | 0 <= i < n ensures Linked(fs, files[..n][i].1) && Basename(files[..n][i].1) != "" {
        assert files[..n][i] == files[i];
      }
      StableRun(fs, files[..n], overwrite);
      RelinkIsStable(fs, files[n].1, overwrite);
      RunAllSuccessStep(fs, files, false, overwrite);
    }
  }
}
