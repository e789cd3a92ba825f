# link-the-dots, modelled in Dafny

link-the-dots links dotfiles from a repository into a home directory. A JSON
configuration names, for each machine, the *containers* of packages to link.
Each package is a directory tree whose files are symlinked into a
destination. Files and directories may carry host tags (`name#host1#host2`).
Include and exclude rules select the files to link.

This project models the decision-making core of the linker as pure functions
over immutable data, and proves what those decisions guarantee.

| module | file | models |
|---|---|---|
| `Wrappers` | wrappers.dfy | `Option` and `Result` |
| `Strings` | strings.dfy | the `str` methods the code relies on: `in`, `find`, `replace` (first and all), `split()`, `split(c)`, `join`, `lower`, integer formatting |
| `Paths` | paths.dfy | `posixpath.join`, `basename`, `dirname`, `normpath` and `expanduser` for the current user |
| `Functions` | functions.dfy | `shrinkuser` |
| `Json` | json.dfy | the values `json.load` returns, with objects as ordered field lists; `get`, item assignment, `update`, truth value |
| `Planner` | planner.dfy | `Stow.collect`: the walk, host-tag filtering, the hint rewriting and the include/exclude filter |
| `Executor` | executor.dfy | `Stow.create`: the per-candidate retry loop over an abstract file system, and the result dictionary |
| `Config` | config.dfy | `Config._get_section` and `Config.read` |
| `Sorting` | sorting.dfy | `sorted(..., key=...)` as a stable insertion sort |
| `Results` | results.dfy | `show_results`: the summary line, the listed states and the order of the listed links |
| `Orchestrator` | orchestrator.dfy | `stow_container` and the calls around it in `run`: options, package list, rule lookup, `Stow` arguments, the package loop |

The file system is a map from path to `File`, `Dir` or `Link`, plus a set of
paths on which every change raises `PermissionError`. Each system call
(`symlink`, `remove`, `mkdir`, `makedirs`) either completes with a new state
or raises one of the `OSError` subclasses the code tells apart. A package
directory is a `Tree` (name, files, sub-directories) walked the way
`os.walk` walks it. Apart from the cases named under "Left out", every Python exception the modelled code can raise is a
value: `Config.ConfigError` holds one variant per `Warning` that `read`
raises, plus `Crash(name)` for an exception that escapes it. `Executor.Escape`
is an `OSError` escaping `create`, together with the file system as the
failing call left it: links and directories made before the error stay. `Orchestrator.MainError` is an exception of
`stow_container`.

Where the documented behaviour and the code disagree, the model follows the
code:

- Host hints accumulate over the whole walk. Sibling sub-directories see
  each other's hints, not only their ancestors' (stow.py:70-74).
- `packages` and rule file lists become lists in order, duplicates kept
  (config.py:64-66, 74-75).
- `rules` must be a mapping whenever it is present (config.py:72-81).
- `read` fills in `name`, but `stow_container` copies `hostname`
  (config.py:33-34, main.py:107-109). Unless a configuration spells out
  `hostname`, `collect` runs with no host, and every tagged entry is
  dropped. `Orchestrator.NoHostnameKeepsUntaggedOnly` and
  `Orchestrator.ReadLeavesHostnameUnset` state this.
- `opts.get('packages', os.listdir(source))` evaluates the listing even when
  `packages` is given, so a failing listing stops the container either way
  (main.py:87).
- Uncaught exceptions are modelled as error values rather than excluded by
  preconditions:
  - `IndexError` on a one-element rule;
  - `IsADirectoryError` when `overwrite` removes a directory;
  - `ValueError` from `dict.update` with a malformed pair list.

## Model

| member | source | states |
|---|---|---|
| Functions.ShrinkUser | linkthedots/functions.py:4-6 | a path that does not contain the expanded home comes back unchanged; the result is never longer than the input |
| Functions.ShrinkUserUndoesExpandUser | linkthedots/functions.py:4-6 | `shrinkuser(expanduser("~" + rest)) == "~" + rest` whenever `rest` is empty or starts with `/` and does not itself contain the home string (the `~/test` round trip) |
| Strings.Find | linkthedots/stow.py:74 | `find` gives the leftmost occurrence: the substring occurs there and nowhere earlier, and -1 exactly when it does not occur |
| Strings.ReplaceAll | linkthedots/functions.py:6 | with a non-empty pattern, an absent pattern leaves the string unchanged, and a replacement no longer than the pattern never lengthens it |
| Strings.ReplaceAllPrefix | linkthedots/functions.py:6 | replacing every occurrence in `pat + rest`, where `rest` does not contain `pat`, gives `rep + rest` |
| Strings.SplitWs | linkthedots/config.py:64-66 | `split()` yields non-empty tokens without whitespace |
| Strings.SplitWsEmptyIff | linkthedots/config.py:64-66 | `split()` yields no token exactly when the string is all whitespace |
| Strings.SplitWsJoin | linkthedots/config.py:64-66 | `split()` of space-joined whitespace-free tokens gives back the same tokens, in order and with duplicates kept |
| Strings.SplitWsSpaced | linkthedots/config.py:64-66 | `split()` of whitespace-free tokens separated by non-empty whitespace runs of any length, with any leading and trailing whitespace, gives exactly those tokens, in order and with duplicates |
| Strings.SplitOn | linkthedots/stow.py:55 | `split('#')` gives at least one part, no part holds the separator, and joining the parts with it gives back the string |
| Strings.SplitOnHead | linkthedots/stow.py:55 | the first part of `split(c)` is the text before the first `c`; there is more than one part exactly when `c` occurs |
| Strings.Lower | linkthedots/config.py:20-23 | `lower()` keeps the length and leaves no ASCII capital: each capital becomes the letter 32 code points above it, and every other character stays where it was |
| Strings.LowerFixes | linkthedots/config.py:20-23 | a name is its own `lower()` exactly when it has no capital, so lowering an already lowered section name changes nothing |
| Strings.NatToStringValue | main.py:131-132 | the decimal text of a count reads back as that count |
| Paths.Basename | linkthedots/stow.py:37 | a basename holds no `/`, and a path without `/` is its own basename |
| Paths.BasenameSuffix | linkthedots/stow.py:37 | the basename is the suffix of the path after its last `/`: it holds no `/`, and either it is the whole path or a `/` stands right before it |
| Paths.Dirname | linkthedots/stow.py:126 | the directory part is a prefix of the path, and is empty for a path without `/` |
| Paths.DirnameHead | linkthedots/stow.py:126 | the directory part is the path before its basename (up to and including the last `/`), kept as it is when it is all slashes and otherwise with its trailing slashes stripped |
| Paths.SplitOnSnoc | linkthedots/stow.py:85 | splitting `s + "/" + n` on `/`, for `n` without `/`, gives the parts of `s` followed by `n` |
| Paths.NormpathKeepsName | linkthedots/stow.py:85 | `basename(normpath(join(d, n))) == n` for an ordinary name `n` |
| Paths.ExpandUser | linkthedots/stow.py:14-15 | only a leading `~` is expanded; a non-empty path stays non-empty; `~` alone becomes the home directory without trailing slashes, or `/` when that is empty; `~/rest` becomes that directory followed by `/rest`; `~user` is returned unchanged |
| Planner.KeptIff | linkthedots/stow.py:49-58 | a name survives host filtering iff it has no `#` or the host equals one of its tags, and it does not start with `#`; its effective name is the text before the first `#` |
| Planner.RuleLoopIff | linkthedots/stow.py:34-47 | the rule loop of `need` is true iff some rule gives a positive verdict |
| Planner.NeedIff | linkthedots/stow.py:30-47 | with no rules every file is needed; otherwise a file is needed iff some active rule gives a positive verdict |
| Planner.ExcludeDropsOnlyOnFullMatch | linkthedots/stow.py:34-47 | in exclude mode a file is dropped iff every exclude rule occurs in its target |
| Planner.IncludeWins | linkthedots/stow.py:34-41 | with include rules present, a file is kept iff one include rule occurs in its target, whatever the exclude rules say |
| Planner.VisitDirHints | linkthedots/stow.py:65-74 | the hint list only grows during the walk and only ever holds (tagged name, name before `#`) pairs that differ |
| Planner.VisitAllHints | linkthedots/stow.py:61-74 | the hint list threaded through sibling directories only grows and stays valid |
| Planner.CollectNamesLinksAfterFiles | linkthedots/stow.py:83-86 | every planned link is named after its source file's effective name whenever that name is an ordinary one |
| Planner.NoneSelectedBelow | linkthedots/stow.py:66-69 | a directory whose tags exclude the host contributes no file of its entire subtree |
| Planner.VisitDirSources | linkthedots/stow.py:60-88 | the sources a directory's walk lists are exactly its selected files, in pre-order |
| Planner.CollectSources | linkthedots/stow.py:60-88 | the sources `collect` lists are, in order, exactly the pre-order files whose directories and own name are kept and which `need` accepts |
| Executor.Symlink | linkthedots/stow.py:104 | `symlink` succeeds iff the parent can hold an entry and nothing and no denial is at the path; it then adds exactly the link; a raise changes nothing |
| Executor.Remove | linkthedots/stow.py:109-118 | `remove` succeeds iff a non-directory entry is there and allowed; it then removes exactly that entry |
| Executor.Mkdir | linkthedots/stow.py:126 | the last step of `makedirs`, `os.mkdir(d)`, succeeds iff `d`'s directory is usable and `d` is free and allowed, and then adds exactly `d`; a raise changes nothing, and `FileExistsError` means `d` was there |
| Executor.Makedirs | linkthedots/stow.py:126 | `makedirs` only adds directories on the path's own prefixes; success means the directory was missing and now exists |
| Executor.MakedirsDone | linkthedots/stow.py:126 | `makedirs(d)` succeeds exactly when `d` is free and allowed and its directory is the current one, an existing directory, or (for a path with a basename) itself missing and makeable in the same way |
| Executor.Recover | linkthedots/stow.py:108-131 | every retry after a failed `symlink` strictly lowers the number of obstacles left (an entry in the way, a missing parent), so the loop ends |
| Executor.RecoverKeeps | linkthedots/stow.py:108-131 | the handlers change no path other than the destination and the directories they make, and never the permissions, also in the state an escaping error leaves; only a skip leaves the loop successfully |
| Executor.Attempt | linkthedots/stow.py:99-131 | a dry run succeeds without changing the file system; a real attempt keeps the permissions and every other existing entry, whether it succeeds or an error escapes |
| Executor.AttemptLinks | linkthedots/stow.py:99-131 | a real attempt that does not skip leaves a link at the destination |
| Executor.AttemptStowed | linkthedots/stow.py:99-128 | `stowed` is recorded only on a first try, and, in a real run, only when nothing was at the destination |
| Executor.AttemptReplaces | linkthedots/stow.py:108-120 | `restowed` means the destination was a link; `replaced` means `overwrite` was set and a non-link entry was there |
| Executor.AttemptOnReadyParent | linkthedots/stow.py:99-131 | with the parent in place: nothing there gives `stowed` plus the link; a denied path gives `skipped` with no change; an allowed link gives `restowed` and a non-directory with `overwrite` gives `replaced`, both relinked; a non-link without `overwrite` gives `skipped` with no change; a directory with `overwrite` escapes as `IsADirectoryError` |
| Executor.AttemptOnDeniedMakedirs | linkthedots/stow.py:124-131 | a missing directory whose `makedirs` raises `PermissionError` gives `skipped`, over the directories `makedirs` made before the error |
| Executor.AttemptOnMissingParentDenied | linkthedots/stow.py:99-131 | a denied destination whose missing directory can be made gives `skipped`, over the directories `makedirs` made |
| Executor.AttemptOnMissingParent | linkthedots/stow.py:99-131 | a free, allowed destination whose directory is missing but can be made is `stowed`: the result is the state `makedirs` leaves plus the link, and the link stands in a reachable directory |
| Executor.RemoveThenLink | linkthedots/stow.py:108-120 | a removable existing entry, a link or anything with `overwrite`, is removed and relinked under `restowed` or `replaced` |
| Executor.RelinkIsStable | linkthedots/stow.py:108-114 | linking over the link already made gives `restowed` and the same file system |
| Executor.AttemptTwice | linkthedots/stow.py:99-131 | a second real attempt after a successful non-skipped one is `restowed` and changes nothing |
| Executor.SelectPartition | linkthedots/stow.py:92-133 | the four result lists together hold every candidate exactly once |
| Executor.SelectMembers | linkthedots/stow.py:133 | a pair is in an outcome's list iff some candidate position holds it with that outcome |
| Executor.DryRunReports | linkthedots/stow.py:103-123 | a dry run never fails or changes anything; each candidate gets `restowed` over a link, else `replaced` with `overwrite`, else `skipped` when `isfile` holds, and `stowed` otherwise |
| Executor.RunAllStops | linkthedots/stow.py:96-133 | the first error escaping an attempt ends the whole run with that error, and it cannot happen in a dry run |
| Executor.RunAllFails | linkthedots/stow.py:96-133 | conversely, a failed run is a successful run of a prefix followed by one attempt that lets the error escape; the state carried by the error keeps everything that prefix did, except at that candidate's destination |
| Executor.EscapeKeepsEarlierLink | linkthedots/stow.py:96-131 | with `/d` a directory and `/f` a file, linking `/d/a` then `/f/b` escapes with `NotADirectoryError`, and the state it leaves still holds the link at `/d/a` |
| Paths.DirnameOfChild | linkthedots/stow.py:126 | the directory of `d/b`, for a name `b` and a `d` without trailing slash, is `d` |
| Executor.FiledIsSelect | linkthedots/stow.py:92-133 | appending each candidate to its outcome's list gives exactly the four keys, each list holding its candidates in input order |
| Executor.Create | linkthedots/stow.py:90-135 | the loop that appends each candidate under its outcome computes `CreateResult`: it fails with the first error an attempt lets escape, carrying the state that attempt left, and otherwise returns `files` unchanged, the four states each mapped to their candidates in input order, and the run's final file system; a dry run succeeds without change |
| Executor.RunLinksAll | linkthedots/stow.py:96-133 | when no candidate is skipped and the destinations are independent, every destination ends up linked |
| Executor.RerunRestowsAll | linkthedots/stow.py:96-133 | running `create` again over independent destinations, none of them skipped the first time, restows every one and changes nothing |
| Executor.StableRun | linkthedots/stow.py:108-114 | over destinations that are all links already, a real run restows every one and leaves the file system as it was |
| Sorting.SortByCorrect | main.py:152 | `sorted` returns a sorted permutation that keeps the input order of equal keys |
| Sorting.SortedUnique | main.py:152 | two sorted arrangements of the same elements are equal when the key tells elements apart |
| Json.Get | linkthedots/config.py:22 | `get` finds a value iff the key is present, and the value is stored under it |
| Json.Set | linkthedots/config.py:34 | after `d[k] = v`, `k` reads `v` and every other key reads as before |
| Json.SetShape | linkthedots/config.py:34 | an existing key is assigned in place; a new key goes at the end |
| Json.UpdateGet | linkthedots/config.py:49 | after `a.update(b)`, a key reads `b`'s value when `b` has it and `a`'s otherwise |
| Json.UpdateKeepsOrder | linkthedots/config.py:49 | `update` keeps `a`'s keys at their positions |
| Json.Without | main.py:43 | the comprehension drops the key and keeps every other one |
| Config.SectionFromFinds | linkthedots/config.py:21-26 | the section loop returns the first key whose `name` lower-cases to the host, else the host itself; it fails only on an entry it cannot inspect |
| Config.GetSection | linkthedots/config.py:15-26 | the section is the first key, `general` included, whose `name` lower-cased equals the lower-cased hostname, and otherwise the lower-cased hostname; a non-dict entry, or a non-string `name`, met first raises `AttributeError` |
| Config.MissingSection | linkthedots/config.py:30-40 | an absent section is "must be in lowercase" when some key lower-cases to it, and "not found" otherwise |
| Config.ReadFillsNameAndGroupOutput | linkthedots/config.py:28-95 | `name` is the host's own when present and the section key otherwise; `group_output` is always general's value or null; every other key except `containers` is the host's |
| Config.ReadKeepsKey | linkthedots/config.py:28-95 | `read` passes every host key except `name`, `containers` and `group_output` through untouched |
| Config.ContainersKeyErrors | linkthedots/config.py:43-89 | a missing `containers` key, and a non-dict `containers` value, are each reported with their own warning |
| Config.ContainerLookupErrors | linkthedots/config.py:46-60 | no `general`, no `general.containers`, or no such container, is "doesn't appear in general"; a `general` or `general.containers` that cannot be indexed by name is "Improperly formatted general Containers" |
| Config.Merge | linkthedots/config.py:46-86 | the merge succeeds, with a dict, exactly when the host entry is a dict; over a dict from `general` a non-dict host entry fails as `update` does with it; over any other general value a string or list holding `source` ends as the `Improperly formatted "containers" value` warning (from the later `items.get`) and anything else escapes as `TypeError` |
| Config.MergeGet | linkthedots/config.py:46-54 | each key of the merged container reads the host's value over a dict from `general`, falling back to `general`'s; over any other general value `source` falls back to that value and the host's keys stay |
| Config.MergeHostWins | linkthedots/config.py:48-50 | over a dict from `general`, each key reads the host's value when the host has it and general's otherwise |
| Config.MergeSourceFallback | linkthedots/config.py:51-54 | over a non-dict general value, `source` becomes that value unless the host gives one, and the host's other keys are unchanged |
| Config.Containers | linkthedots/config.py:43-60 | the containers keep their names and order, and each is its own container's normalisation |
| Config.PackagesNormalised | linkthedots/config.py:62-66 | a string `packages` of the host becomes its whitespace tokens; a list is kept; absent, the merged value stays |
| Config.NormRule | linkthedots/config.py:72-81 | a rule is normalised with its mode untouched and its file list split when a string; a dict rule stops the loop silently; any other shape fails |
| Config.NormRulesKeys | linkthedots/config.py:72-75 | normalising the rules keeps every package name at its position |
| Config.NormRulesValues | linkthedots/config.py:72-75 | each rule is left as it was or has its string file list split |
| Config.NormRulesModes | linkthedots/config.py:72-75 | up to the first dict rule, each rule keeps its mode and ends with a list of files |
| Config.RulesNormalised | linkthedots/config.py:68-83 | absent `rules` stays absent; present `rules` is a dict and is replaced by its normalised rules |
| Config.ImproperRulesRefused | linkthedots/config.py:72-81 | a `rules` value that is not a dict is "Improperly formatted rules" |
| Results.StatPartParses | main.py:131-132 | each summary part reads back as its list's size and its state's name |
| Results.StatPartsEmpty | main.py:129-133 | there is no summary part exactly when every list is empty |
| Results.NothingChangedIff | main.py:133 | the summary is "Nothing changed" exactly when no state got a file |
| Results.ShowResults | main.py:119-160 | the summary line is always shown; a real run with no `replaced` or `skipped` entry returns early with no link line; every listed line's state is one the run lists (all four on a dry run, else only `replaced` and `skipped`) |
| Results.ShowResultsLines | main.py:136-158 | for a report `create` built, the printed lines are the shrunk reference listing: with `group_output`, each listed state's candidates in input order, state by state; without it, over distinct candidates, every candidate with a listed outcome, once, in the order `collect` found them |
| Results.LastIndexIn | main.py:151-152 | the `order` lookup gives the last position holding the pair, since later `enumerate` entries overwrite earlier ones, and -1 exactly when it is absent |
| Results.GroupedListing | main.py:136-150 | with `group_output` the entries come state by state, each state's entries being its list in order, and only listed states appear |
| Results.ListedByDiscovery | main.py:149-152 | without `group_output` the entries are the grouped ones, sorted stably by discovery index |
| Results.ListedInDiscoveryOrder | main.py:136-152 | without `group_output`, and with distinct candidates, the listing is exactly the candidates with a listed outcome, each once, in the order `collect` found them |
| Orchestrator.ExtraOpts | main.py:37-43 | the extra options are the read options without `containers`, with `dry_run` forced true by `--dry-run` |
| Orchestrator.CallOpts | main.py:73-80 | the call succeeds iff the container entry is a dict sharing no key with the extra options and neither side has a `container` key, which `stow_container`'s positional parameter already binds; otherwise it raises `TypeError` |
| Orchestrator.CallOptsGet | main.py:73 | each keyword comes from exactly one side |
| Orchestrator.Iterate | main.py:90-102 | iterating gives a list's items, a string's characters or a dict's keys; anything else raises `TypeError` |
| Orchestrator.PackageItems | main.py:84-87 | a truthy `pkg` gives exactly `[source]`; otherwise a failing listing raises, else `packages` when given, else the listing |
| Orchestrator.PackagesStringSplit | main.py:84-87 | a `packages` string in the host's container entry, once `read` has split it (config.py:64-66), reaches `stow_container` as exactly its whitespace-separated names, in order, whatever the directory listing holds |
| Orchestrator.Unpack2 | main.py:102 | unpacking succeeds iff iteration gives exactly two items |
| Orchestrator.RuleFor | main.py:101-104 | no `rules`, or no rule for the package, gives `('include', [])`; a `rules` that cannot be indexed by name raises `TypeError`; otherwise the rule is unpacked |
| Orchestrator.StowArgsKeys | main.py:107-110 | the `Stow` arguments hold exactly the five copied options, `source` and the rule's mode; the mode is bound to its files, `source` to the package path, and the copied options to their values or null |
| Orchestrator.DefaultRuleKeepsEverything | main.py:101-110 | a package without a rule of its own gets no include and no exclude patterns, so every file is needed |
| Orchestrator.NewStow | linkthedots/stow.py:5-21 | `Stow(**args)` succeeds iff every keyword is one of its parameters, `source` and `destination` are strings, `hostname` is given, and the include patterns, and the exclude patterns when there are no includes, iterate to strings; every failure is a `TypeError`; the plan's source and destination are the expanded arguments, and its host, dry-run and overwrite flags and patterns are the arguments' |
| Orchestrator.PackageCall | main.py:94-112 | a non-string package raises `TypeError`; a package that is not a directory under the source is skipped |
| Orchestrator.NoHostnameKeepsUntaggedOnly | main.py:107-112 | without a `hostname` option, `collect` has no host, and only names without `#` survive |
| Orchestrator.StowPackage | main.py:90-116 | a skipped package, or one stowed in a dry run, leaves the file system unchanged; a linked package was linked with the `Stow` its decisions build; an `OSError` out of `create` comes from a real `Stow` the decisions built, and is the error that run of `create` lets escape |
| Orchestrator.ContainerLoop | main.py:90-116 | the loop handles the packages in order and stops at the first exception, exactly when not every package was handled; when an `OSError` escaped `create`, the file system is the one that error carries, which follows on from the earlier packages' state and keeps the failing package's earlier links (`Executor.RunAllFails`) |
| Orchestrator.ContainerLoopCalls | main.py:90-116 | each linked package used the `Stow` its own decisions build; an exception stops the loop at the first package whose decisions raise it, or at a package whose real `Stow` let an `OSError` escape |
| Orchestrator.DryLoopLeavesFs | main.py:90-116 | a loop in which every `Stow` built was a dry run, so that no `OSError` escaped, leaves the file system unchanged |
| Orchestrator.StowContainer | main.py:80-87 | a missing or non-string `source` stops the container before any package |
| Orchestrator.DryOptionMakesDryCalls | main.py:107-110 | a truthy `dry_run` option reaches every `Stow`, unless the rule's mode is itself `dry_run` |
| Orchestrator.DryContainerLeavesFs | main.py:37-116 | a container stowed with a truthy `dry_run`, none of whose rules is keyed `dry_run`, leaves the file system unchanged |
| Orchestrator.HostnameThroughOptions | main.py:43-73 | the `hostname` a container is stowed with is the container entry's, else the read options' |
| Orchestrator.ReadLeavesHostnameUnset | linkthedots/config.py:28-95 | `read` never supplies `hostname`: the value used is the container entry's, else the host section's own |

## Left out

- Printing: `linkthedots/style.py` and every `style` call are left out. `show_results` returns the summary and the lines it would print.
- `run`'s argument parsing and `exit` are left out. So are the `os.access` writability check, the per-container catching of `TypeError`/`KeyError`, and the title built with `shrinkuser`. The model starts at the read options and at `stow_container` for one container.
- JSON file loading and its errors are left out. `read` takes the parsed value.
- A JSON object is a list of fields, so it can repeat a key, which a parsed `json.load` dict cannot. Lookups find the first field. The lemmas that compare lookups before and after a merge (`Json.UpdateGet`, `Config.MergeHostWins`, `Config.MergeGet`, `Config.PackagesNormalised`) require `Json.UniqueKeys` of the object merged in, which every parsed object meets.
- `gethostname()` is left out. The hostname is a parameter.
- JSON numbers are integers. Floats are left out because no decision depends on them.
- `lower()` maps ASCII letters only; Unicode case mapping is left out.
- `expanduser` models only the current user's `~`; `~user` is returned unchanged. `os.path.relpath` and the link target text are not computed, because nothing depends on them. A made link points at a file.
- `os.walk` is the `Tree` datatype. The directories `isdir` sees are the keys of a map of trees. `os.listdir` is an input that may fail.
- `read` mutates dicts in place, so the `general` dict is shared between hosts. Aliasing is left out; the merge is a new value.
- The statement `if items.get('rules'): ...['rules'] = items['rules']` is left out. It only stores a value already present, so it changes nothing.
- Orchestrator.NewStow: rejects non-string patterns when the `Stow` is built. Python raises only when `need` first iterates them.
- Results.LastIndexIn: returns -1 for a pair that is not a candidate, where Python's `order.get` gives `None`. Every listed pair is a candidate, so this never matters.
- Executor.Attempt: models only `PermissionError` raised through the denied set, and the errors the path layout itself causes. Other I/O failures (a full disk, a read-only mount) are left out. The directories `makedirs` made before an error stay made, both when the candidate is skipped and when the error escapes.
- Planner.CollectNamesLinksAfterFiles: states the destination's last component, not the whole directory the hints rewrite. The full destination is given only by the definition of `Planner.CollectFiles`.
- Strings.ReplaceAll: its contract gives the unchanged and shorter cases. The left-to-right non-overlapping scan is given by its definition and by `Strings.ReplaceAllPrefix`.
- Strings.SplitWs: its own contract gives only the shape of the tokens (non-empty, no whitespace). Which tokens it yields, for any string of tokens and whitespace runs, is stated by `Strings.SplitWsSpaced`.
- Paths.Basename: its own contract gives only that the result holds no `/`; that it is exactly the text after the last `/` is stated separately by `Paths.BasenameSuffix`.
- Paths.Dirname: its own contract gives only that the result is a prefix of the path; its exact value is stated separately by `Paths.DirnameHead`.
- Executor.Makedirs: its own contract gives what a call may change; when it succeeds is stated separately by `Executor.MakedirsDone`.
- `show_results` called with an option named `title` or `stow_result` raises a duplicate-argument `TypeError`; this is left out.
