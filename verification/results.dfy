/**
 * `show_results` in `main.py`: the summary line, which outcomes are listed,
 * and the order the listed links come in. Printing is replaced by the lines
 * it would print.
 */
module Results {
  import opened Wrappers
  import opened Strings
  import opened Sorting
  import opened Functions
  import Planner
  import opened Executor

  /** The order `create` fills the result dict in, which iterating it follows. */
  const States: seq<Outcome> := [Stowed, Restowed, Replaced, Skipped]

  /** The key each outcome is stored under. */
  function StateName(s: Outcome): string {
    match s
    case Stowed => "stowed"
    case Restowed => "restowed"
    case Replaced => "replaced"
    case Skipped => "skipped"
  }

  /** `'{total} file(s) {res}'`. */
  function StatPart(n: nat, s: Outcome): string {
    NatToString(n) + " file(s) " + StateName(s)
  }

  /** One part per non-empty outcome, in `states` order. */
  function StatParts(results: map<Outcome, seq<Planner.Pair>>, states: seq<Outcome>): (parts: seq<string>)
    ensures |parts| <= |states|
    decreases |states|
  {
    if states == [] then []
    else
      var s := states[0];
      (if s in results && results[s] != [] then [StatPart(|results[s]|, s)] else []) + StatParts(results, states[1..])
  }

  const NothingChanged: string := "Nothing changed"

  /** The summary line: the parts joined by `, `, or `Nothing changed` when there are none. */
  function Stats(results: map<Outcome, seq<Planner.Pair>>): string {
    var parts := StatParts(results, States);
    if parts == [] then NothingChanged else JoinWith(parts, ", ")
  }

  /** Reads a summary part back: the count before the first space, the outcome after ` file(s) `. */
  function ParseStat(part: string): Option<(nat, string)> {
    var i := IndexOf(part, ' ');
    if i < 0 || i + 9 > |part| || part[i..i + 9] != " file(s) " then None
    else if !(forall k :: 0 <= k < i ==> IsDigit(part[k])) then None
    else Some((DigitsValue(part[..i]), part[i + 9..]))
  }

  /** Every summary part reads back as the size of its outcome's list and the outcome's name. */
  lemma StatPartParses(n: nat, s: Outcome)
    ensures ParseStat(StatPart(n, s)) == Some((n, StateName(s)))
  {
    var d := NatToString(n);
    var part := StatPart(n, s);
    assert part == d + (" file(s) " + StateName(s));
    assert part[|d|] == ' ' && ' ' !in d by {
      forall k | 0 <= k < |d| ensures d[k] != ' ' {
        assert IsDigit(d[k]);
      }
    }
    assert part[..|d|] == d;
    IndexOfUnique(part, ' ', |d|);
    assert part[|d|..|d| + 9] == " file(s) ";
    NatToStringValue(n);
  }

  /** There are no parts exactly when every list is empty. */
  lemma {:induction false} StatPartsEmpty(results: map<Outcome, seq<Planner.Pair>>, states: seq<Outcome>)
    ensures StatParts(results, states) == [] <==> forall i :: 0 <= i < |states| && states[i] in results ==> results[states[i]] == []
    decreases |states|
  {
    if states != [] {
      StatPartsEmpty(results, states[1..]);
      assert forall i :: 1 <= i < |states| ==> states[i] == states[1..][i - 1];
    }
  }

  /** `Nothing changed` is printed exactly when no outcome got a file. */
  lemma NothingChangedIff(results: map<Outcome, seq<Planner.Pair>>)
    ensures Stats(results) == NothingChanged <==> forall s :: s in results ==> results[s] == []
  {
    StatPartsEmpty(results, States);
    forall s | s in results ensures exists i :: 0 <= i < |States| && States[i] == s {
      assert States[0] == Stowed && States[1] == Restowed && States[2] == Replaced && States[3] == Skipped;
      match s
      case Stowed =>
      case Restowed =>
      case Replaced =>
      case Skipped =>
    }
    var parts := StatParts(results, States);
    if parts != [] {
      var j := JoinWith(parts, ", ");
      assert j[0] == parts[0][0] by {
        JoinWithHead(parts, ", ");
      }
      StatPartsDigitFirst(results, States);
      assert IsDigit(j[0]);
      assert !IsDigit(NothingChanged[0]);
    }
  }

  lemma {:induction false} StatPartsDigitFirst(results: map<Outcome, seq<Planner.Pair>>, states: seq<Outcome>)
    ensures forall i :: 0 <= i < |StatParts(results, states)| ==>
      StatParts(results, states)[i] != [] && IsDigit(StatParts(results, states)[i][0])
    decreases |states|
  {
    if states != [] {
      StatPartsDigitFirst(results, states[1..]);
    }
  }

  /** A link as `show_results` lists it: its outcome and its (source, destination) pair. */
  type Entry = (Outcome, Planner.Pair)

  /** A printed link line: the outcome (shown capitalised) and both paths with the home directory shrunk to `~`. */
  datatype Line = Line(state: Outcome, src: string, dest: string)

  /**
   * What `show_results` prints: the link lines, then the summary. `early`
   * when it printed the summary alone and returned `True`.
   */
  datatype Shown = Shown(lines: seq<Line>, stats: string, early: bool)

  function Tagged(s: Outcome, fs: seq<Planner.Pair>): (r: seq<Entry>)
    ensures |r| == |fs| && forall i :: 0 <= i < |fs| ==> r[i] == (s, fs[i])
  {
    seq(|fs|, i requires 0 <= i < |fs| => (s, fs[i]))
  }

  /** `(state, f) for state, files in notify_states for f in files`. */
  function Grouped(results: map<Outcome, seq<Planner.Pair>>, states: seq<Outcome>): seq<Entry>
    decreases |states|
  {
    if states == [] then []
    else (if states[0] in results then Tagged(states[0], results[states[0]]) else []) + Grouped(results, states[1..])
  }

  /** The outcomes listed: all of them on a dry run; only `replaced` and `skipped` otherwise. */
  function Listed(dryRun: bool): seq<Outcome> {
    if dryRun then States else [Replaced, Skipped]
  }

  /** `{f: i for i, f in enumerate(files)}[f]`: the last index of `f`, or -1 when it is absent. */
  function LastIndexIn(files: seq<Planner.Pair>, f: Planner.Pair): (i: int)
    ensures -1 <= i < |files|
    ensures i >= 0 ==> files[i] == f && forall j :: i < j < |files| ==> files[j] != f
    ensures i < 0 <==> f !in files
    decreases |files|
  {
    if files == [] then -1
    else if files[|files| - 1] == f then |files| - 1
    else
      var i := LastIndexIn(files[..|files| - 1], f);
      assert files == files[..|files| - 1] + [files[|files| - 1]];
      i
  }

  /** The sort key: where the entry's pair was discovered. */
  function Discovery(files: seq<Planner.Pair>): Entry -> int {
    (e: Entry) => LastIndexIn(files, e.1)
  }

  /** The listed entries, in the order they are printed. */
  function ListedEntries(report: Report, dryRun: bool, groupOutput: bool): seq<Entry> {
    var es := Grouped(report.results, Listed(dryRun));
    if groupOutput then es else SortBy(es, Discovery(report.files))
  }

  function Display(home: string, es: seq<Entry>): (r: seq<Line>)
    ensures |r| == |es|
    ensures forall i :: 0 <= i < |es| ==> r[i] == Line(es[i].0, ShrinkUser(home, es[i].1.0), ShrinkUser(home, es[i].1.1))
  {
    seq(|es|, i requires 0 <= i < |es| => Line(es[i].0, ShrinkUser(home, es[i].1.0), ShrinkUser(home, es[i].1.1)))
  }

  /**
   * `show_results(stow_result, title, dry_run=…, group_output=…)`, with the
   * home directory for `shrinkuser`. Outside a dry run, nothing replaced and
   * nothing skipped means only the summary is shown.
   */
  function ShowResults(home: string, report: Report, dryRun: bool, groupOutput: bool): (r: Shown)
    requires report.results.Keys == AllOutcomes
    ensures r.stats == Stats(report.results)
    ensures r.early <==> !dryRun && report.results[Replaced] == [] && report.results[Skipped] == []
    ensures r.early ==> r.lines == []
    ensures forall i :: 0 <= i < |r.lines| ==> r.lines[i].state in Listed(dryRun)
  {
    var results := report.results;
    if !dryRun && results[Replaced] == [] && results[Skipped] == [] then Shown([], Stats(results), true)
    else
      ListedStates(report, dryRun, groupOutput);
      Shown(Display(home, ListedEntries(report, dryRun, groupOutput)), Stats(results), false)
  }

  /** Only the listed outcomes appear in the listing, grouped or not. */
  lemma ListedStates(report: Report, dryRun: bool, groupOutput: bool)
    ensures forall e :: e in ListedEntries(report, dryRun, groupOutput) ==> e.0 in Listed(dryRun)
  {
    GroupedListing(report, dryRun);
    if !groupOutput {
      ListedByDiscovery(report, dryRun);
      var es := Grouped(report.results, Listed(dryRun));
      assert es == ListedEntries(report, dryRun, true);
      forall e | e in ListedEntries(report, dryRun, false) ensures e.0 in Listed(dryRun) {
        assert e in multiset(ListedEntries(report, dryRun, false));
        assert e in multiset(es);
      }
    }
  }

  /**
   * The printed lines of a report `create` built: unless the summary was
   * shown alone, they are the shrunk reference listing, state by state with
   * `group_output`, otherwise (over distinct candidates) in the order
   * `collect` found them.
   */
  lemma ShowResultsLines(home: string, report: Report, outs: seq<Outcome>, dryRun: bool, groupOutput: bool)
    requires FromCreate(report, outs)
    ensures var r := ShowResults(home, report, dryRun, groupOutput);
      && (!r.early && groupOutput ==> r.lines == Display(home, GroupedSel(report.files, outs, Listed(dryRun))))
      && (!r.early && !groupOutput && Distinct(report.files) ==> r.lines == Display(home, Notable(report.files, outs, Listed(dryRun))))
  {
    GroupedFromCreate(report, outs, Listed(dryRun));
    if !groupOutput && Distinct(report.files) {
      ListedInDiscoveryOrder(report, outs, dryRun);
    }
  }

  /** Position of an outcome in the result dict. */
  function Rank(s: Outcome): nat {
    match s
    case Stowed => 0
    case Restowed => 1
    case Replaced => 2
    case Skipped => 3
  }

  function ByState(): Entry -> int {
    (e: Entry) => Rank(e.0)
  }

  predicate Increasing(states: seq<Outcome>) {
    forall i, j :: 0 <= i < j < |states| ==> Rank(states[i]) < Rank(states[j])
  }

  lemma {:induction false} GroupedStates(results: map<Outcome, seq<Planner.Pair>>, states: seq<Outcome>)
    ensures forall e :: e in Grouped(results, states) ==> e.0 in states
    decreases |states|
  {
    if states != [] {
      GroupedStates(results, states[1..]);
    }
  }

  lemma IncreasingTail(states: seq<Outcome>)
    requires Increasing(states) && states != []
    ensures Increasing(states[1..])
  {
    forall i, j | 0 <= i < j < |states[1..]| ensures Rank(states[1..][i]) < Rank(states[1..][j]) {
      assert states[1..][i] == states[i + 1] && states[1..][j] == states[j + 1];
    }
  }

  /** Entries listed after the first state's all have a later state. */
  lemma RestIsLater(results: map<Outcome, seq<Planner.Pair>>, states: seq<Outcome>)
    requires Increasing(states) && states != []
    ensures forall e :: e in Grouped(results, states[1..]) ==> Rank(e.0) > Rank(states[0])
  {
    GroupedStates(results, states[1..]);
    forall e | e in Grouped(results, states[1..]) ensures Rank(e.0) > Rank(states[0]) {
      var m :| 0 <= m < |states[1..]| && states[1..][m] == e.0;
      assert states[m + 1] == e.0;
    }
  }

  /** Grouped output comes state by state, in result-dict order. */
  lemma {:induction false} GroupedSorted(results: map<Outcome, seq<Planner.Pair>>, states: seq<Outcome>)
    requires Increasing(states)
    ensures Sorted(Grouped(results, states), ByState())
    decreases |states|
  {
    if states != [] {
      var s := states[0];
      var head := if s in results then Tagged(s, results[s]) else [];
      var rest := Grouped(results, states[1..]);
      IncreasingTail(states);
      GroupedSorted(results, states[1..]);
      RestIsLater(results, states);
      var g := head + rest;
      forall i, j | 0 <= i < j < |g| ensures Rank(g[i].0) <= Rank(g[j].0) {
        if j < |head| {
          assert g[i] == head[i] && g[j] == head[j];
        } else if i < |head| {
          assert g[j] == rest[j - |head|] && g[j] in rest;
          assert g[i] == head[i];
        } else {
          assert g[i] == rest[i - |head|] && g[j] == rest[j - |head|];
        }
      }
    }
  }

  /** In grouped output, each listed state's entries are its result list, in order. */
  lemma {:induction false} GroupedByState(results: map<Outcome, seq<Planner.Pair>>, states: seq<Outcome>)
    requires Increasing(states)
    ensures forall i :: 0 <= i < |states| && states[i] in results ==>
      WithKey(Grouped(results, states), ByState(), Rank(states[i])) == Tagged(states[i], results[states[i]])
    decreases |states|
  {
    if states != [] {
      var s := states[0];
      var head := if s in results then Tagged(s, results[s]) else [];
      var rest := Grouped(results, states[1..]);
      IncreasingTail(states);
      GroupedByState(results, states[1..]);
      forall i | 0 <= i < |states| && states[i] in results
        ensures WithKey(head + rest, ByState(), Rank(states[i])) == Tagged(states[i], results[states[i]])
      {
        WithKeyAppend(head, rest, ByState(), Rank(states[i]));
        if i == 0 {
          WithKeyAll(head, ByState(), Rank(s));
          RestIsLater(results, states);
          forall m | 0 <= m < |rest| ensures ByState()(rest[m]) != Rank(s) {
            assert rest[m] in rest;
          }
          WithKeyNone(rest, ByState(), Rank(s));
        } else {
          assert states[i] == states[1..][i - 1];
          WithKeyNone(head, ByState(), Rank(states[i]));
        }
      }
    }
  }

  /**
   * Reference listing: every candidate whose outcome is among `states`,
   * with its outcome, in the order `collect` found them.
   */
  function Notable(files: seq<Planner.Pair>, outs: seq<Outcome>, states: seq<Outcome>): seq<Entry>
    requires |files| == |outs|
    decreases |files|
  {
    if files == [] then []
    else
      var n := |files| - 1;
      Notable(files[..n], outs[..n], states) + (if outs[n] in states then [(outs[n], files[n])] else [])
  }

  /** The report is the one `create` builds from the candidates' outcomes `outs`. */
  predicate FromCreate(report: Report, outs: seq<Outcome>) {
    && |report.files| == |outs|
    && report.results.Keys == AllOutcomes
    && forall s :: s in report.results ==> report.results[s] == Select(report.files, outs, s)
  }

  predicate Distinct(files: seq<Planner.Pair>) {
    forall i, j :: 0 <= i < j < |files| ==> files[i] != files[j]
  }

  /** The grouped entries, drawn straight from the buckets. */
  function GroupedSel(files: seq<Planner.Pair>, outs: seq<Outcome>, states: seq<Outcome>): seq<Entry>
    requires |files| == |outs|
    decreases |states|
  {
    if states == [] then [] else Tagged(states[0], Select(files, outs, states[0])) + GroupedSel(files, outs, states[1..])
  }

  lemma {:induction false} GroupedFromCreate(report: Report, outs: seq<Outcome>, states: seq<Outcome>)
    requires FromCreate(report, outs)
    ensures Grouped(report.results, states) == GroupedSel(report.files, outs, states)
    decreases |states|
  {
    if states != [] {
      assert states[0] in AllOutcomes by {
        match states[0]
        case Stowed =>
        case Restowed =>
        case Replaced =>
        case Skipped =>
      }
      GroupedFromCreate(report, outs, states[1..]);
    }
  }

  lemma TaggedSnoc(s: Outcome, a: seq<Planner.Pair>, x: Planner.Pair)
    ensures Tagged(s, a + [x]) == Tagged(s, a) + [(s, x)]
  {
  }

  /** One more candidate adds one entry, under its own outcome, when that outcome is listed. */
  lemma {:induction false} GroupedSelSnoc(files: seq<Planner.Pair>, outs: seq<Outcome>, states: seq<Outcome>)
    requires |files| == |outs| && files != [] && Increasing(states)
    ensures var n := |files| - 1;
      multiset(GroupedSel(files, outs, states))
        == multiset(GroupedSel(files[..n], outs[..n], states))
           + (if outs[n] in states then multiset{(outs[n], files[n])} else multiset{})
    decreases |states|
  {
    if states != [] {
      var n := |files| - 1;
      var s := states[0];
      var x := (outs[n], files[n]);
      var pre := Select(files[..n], outs[..n], s);
      assert Select(files, outs, s) == pre + (if outs[n] == s then [files[n]] else []);
      var head := Tagged(s, Select(files, outs, s));
      var head' := Tagged(s, pre);
      if outs[n] == s {
        TaggedSnoc(s, pre, files[n]);
        assert multiset(head) == multiset(head') + multiset{x};
      } else {
        assert pre + [] == pre;
        assert head == head';
      }
      IncreasingTail(states);
      GroupedSelSnoc(files, outs, states[1..]);
      forall m | 0 <= m < |states[1..]| ensures states[1..][m] != s {
        assert states[1..][m] == states[m + 1];
      }
      assert outs[n] in states <==> outs[n] == s || outs[n] in states[1..];
      var rest := GroupedSel(files, outs, states[1..]);
      var rest' := GroupedSel(files[..n], outs[..n], states[1..]);
      assert GroupedSel(files, outs, states) == head + rest;
      assert GroupedSel(files[..n], outs[..n], states) == head' + rest';
      assert multiset(head + rest) == multiset(head) + multiset(rest);
      assert multiset(head' + rest') == multiset(head') + multiset(rest');
    }
  }

  /** The reference listing holds exactly the grouped entries. */
  lemma {:induction false} NotableMatchesGrouped(files: seq<Planner.Pair>, outs: seq<Outcome>, states: seq<Outcome>)
    requires |files| == |outs| && Increasing(states)
    ensures multiset(Notable(files, outs, states)) == multiset(GroupedSel(files, outs, states))
    decreases |files|
  {
    if files != [] {
      var n := |files| - 1;
      NotableMatchesGrouped(files[..n], outs[..n], states);
      GroupedSelSnoc(files, outs, states);
    } else {
      GroupedSelEmpty(files, outs, states);
    }
  }

  lemma {:induction false} GroupedSelEmpty(files: seq<Planner.Pair>, outs: seq<Outcome>, states: seq<Outcome>)
    requires |files| == |outs| && files == []
    ensures GroupedSel(files, outs, states) == []
    decreases |states|
  {
    if states != [] {
      GroupedSelEmpty(files, outs, states[1..]);
    }
  }

  /** With distinct candidates, the reference listing runs in discovery order and each entry is one candidate. */
  lemma {:induction false} NotableIndexed(files: seq<Planner.Pair>, outs: seq<Outcome>, n: nat, states: seq<Outcome>)
    requires |files| == |outs| && n <= |files| && Distinct(files)
    ensures Sorted(Notable(files[..n], outs[..n], states), Discovery(files))
    ensures forall e :: e in Notable(files[..n], outs[..n], states) ==>
      0 <= Discovery(files)(e) < n && e == (outs[Discovery(files)(e)], files[Discovery(files)(e)])
    decreases n
  {
    if n > 0 {
      var m := n - 1;
      assert files[..n][..m] == files[..m] && outs[..n][..m] == outs[..m];
      NotableIndexed(files, outs, m, states);
      var pre := Notable(files[..m], outs[..m], states);
      var x := (outs[m], files[m]);
      assert Discovery(files)(x) == m by {
        var k := LastIndexIn(files, files[m]);
        assert k >= m && files[k] == files[m];
      }
      var r := pre + (if outs[m] in states then [x] else []);
      assert Notable(files[..n], outs[..n], states) == r;
      forall i, j | 0 <= i < j < |r| ensures Discovery(files)(r[i]) <= Discovery(files)(r[j]) {
        assert r[i] in pre;
        if j < |pre| {
          assert r[i] == pre[i] && r[j] == pre[j];
        } else {
          assert r[j] == x;
        }
      }
    }
  }

  lemma ListedMultiset(report: Report, outs: seq<Outcome>, states: seq<Outcome>)
    requires FromCreate(report, outs) && Increasing(states)
    ensures multiset(Grouped(report.results, states)) == multiset(Notable(report.files, outs, states))
  {
    GroupedFromCreate(report, outs, states);
    NotableMatchesGrouped(report.files, outs, states);
  }

  /** Sorting any arrangement of the reference listing by discovery gives the reference listing. */
  lemma SortedIsNotable(es: seq<Entry>, files: seq<Planner.Pair>, outs: seq<Outcome>, states: seq<Outcome>)
    requires |files| == |outs| && Distinct(files)
    requires multiset(es) == multiset(Notable(files, outs, states))
    ensures SortBy(es, Discovery(files)) == Notable(files, outs, states)
  {
    var key := Discovery(files);
    var a := SortBy(es, key);
    var b := Notable(files, outs, states);
    SortBySorted(es, key);
    SortByMultiset(es, key);
    NotableSorted(files, outs, states);
    NotableKeysApart(files, outs, states, a);
    SortedUnique(a, b, key);
  }

  lemma NotableSorted(files: seq<Planner.Pair>, outs: seq<Outcome>, states: seq<Outcome>)
    requires |files| == |outs| && Distinct(files)
    ensures Sorted(Notable(files, outs, states), Discovery(files))
  {
    assert files[..|files|] == files && outs[..|outs|] == outs;
    NotableIndexed(files, outs, |files|, states);
  }

  /** In any arrangement of the reference listing, no two entries share a discovery index. */
  lemma NotableKeysApart(files: seq<Planner.Pair>, outs: seq<Outcome>, states: seq<Outcome>, a: seq<Entry>)
    requires |files| == |outs| && Distinct(files)
    requires multiset(a) == multiset(Notable(files, outs, states))
    ensures forall x, y :: x in a && y in a && Discovery(files)(x) == Discovery(files)(y) ==> x == y
  {
    var b := Notable(files, outs, states);
    assert files[..|files|] == files && outs[..|outs|] == outs;
    NotableIndexed(files, outs, |files|, states);
    forall x, y | x in a && y in a && Discovery(files)(x) == Discovery(files)(y) ensures x == y {
      assert x in multiset(b) && y in multiset(b);
    }
  }

  /**
   * Without `group_output`, a report built by `create` over distinct
   * candidates is listed in discovery order: exactly the candidates whose
   * outcome is listed, each once with its outcome, in the order `collect`
   * found them.
   */
  lemma ListedInDiscoveryOrder(report: Report, outs: seq<Outcome>, dryRun: bool)
    requires FromCreate(report, outs) && Distinct(report.files)
    ensures ListedEntries(report, dryRun, false) == Notable(report.files, outs, Listed(dryRun))
  {
    var states := Listed(dryRun);
    assert Increasing(states);
    ListedMultiset(report, outs, states);
    SortedIsNotable(Grouped(report.results, states), report.files, outs, states);
  }

  /**
   * With `group_output`, the listing comes state by state in result-dict
   * order, each listed state's entries being its result list in order; no
   * other state appears.
   */
  lemma GroupedListing(report: Report, dryRun: bool)
    ensures Sorted(ListedEntries(report, dryRun, true), ByState())
    ensures forall s :: s in Listed(dryRun) && s in report.results ==>
      WithKey(ListedEntries(report, dryRun, true), ByState(), Rank(s)) == Tagged(s, report.results[s])
    ensures forall e :: e in ListedEntries(report, dryRun, true) ==> e.0 in Listed(dryRun)
  {
    var states := Listed(dryRun);
    assert Increasing(states);
    GroupedSorted(report.results, states);
    GroupedByState(report.results, states);
    GroupedStates(report.results, states);
  }

  /**
   * Without `group_output`, the listing is the grouped one sorted stably by
   * discovery index: same entries, non-decreasing index, and the entries of
   * one pair in their grouped order.
   */
  lemma ListedByDiscovery(report: Report, dryRun: bool)
    ensures var es := Grouped(report.results, Listed(dryRun));
      var key := Discovery(report.files);
      && Sorted(ListedEntries(report, dryRun, false), key)
      && multiset(ListedEntries(report, dryRun, false)) == multiset(es)
      && forall k :: WithKey(ListedEntries(report, dryRun, false), key, k) == WithKey(es, key, k)
  {
    SortByCorrect(Grouped(report.results, Listed(dryRun)), Discovery(report.files));
  }
}
