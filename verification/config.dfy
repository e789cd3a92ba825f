/**
 * `Config._get_section` and `Config.read`: pick the host's section of the
 * parsed configuration and normalise its containers. Every `Warning` the
 * code raises is a `ConfigError` variant; any other exception that escapes
 * `read` is `Crash` with the Python exception's name.
 */
module Config {
  import opened Wrappers
  import opened Strings
  import opened Json

  datatype ConfigError =
    | SectionNotLowercase
    | SectionNotFound(section: string)
    | NoContainersKey(section: string)
    | ImproperContainers(section: string)
    | NotInGeneral(container: string)
    | ImproperGeneralContainers
    | ImproperRule(rule: Value)
    | ImproperRules(container: string)
    | Crash(exception: string)

  /** A section `_get_section` can look at: a dict whose `name`, if any, is a string. */
  predicate Inspectable(v: Value) {
    v.Obj? && (Get(v.fields, "name").None? || Get(v.fields, "name").value.Str?)
  }

  /** `value.get('name', '')`. */
  function NameOf(v: Value): string
    requires Inspectable(v)
  {
    match Get(v.fields, "name")
    case None => ""
    case Some(n) => n.s
  }

  /** The section declares itself to be for host `h` (already lower-cased). */
  predicate NamesHost(v: Value, h: string)
    requires Inspectable(v)
  {
    Lower(NameOf(v)) == h
  }

  /** No section in `cfg[i..j]` names host `h`, and all of them could be inspected. */
  predicate NoneNames(cfg: seq<Field>, i: int, j: int, h: string)
    requires 0 <= i <= j <= |cfg|
  {
    forall l :: i <= l < j ==> Inspectable(cfg[l].val) && !NamesHost(cfg[l].val, h)
  }

  /** The section loop of `_get_section` from index `i` on. */
  function SectionFrom(cfg: seq<Field>, i: nat, h: string): (r: Result<string, ConfigError>)
    requires i <= |cfg|
    ensures r.Failure? ==> r.error == Crash("AttributeError")
    decreases |cfg| - i
  {
    if i == |cfg| then Success(h)
    else if !Inspectable(cfg[i].val) then Failure(Crash("AttributeError"))
    else if NamesHost(cfg[i].val, h) then Success(cfg[i].key)
    else SectionFrom(cfg, i + 1, h)
  }

  /** Nothing in `cfg[i..j]` names the host, and `cfg[i]` does not either, so nothing in `cfg[i..j]`. */
  lemma NoneNamesCons(cfg: seq<Field>, i: nat, j: int, h: string)
    requires i < |cfg| && i + 1 <= j <= |cfg|
    requires Inspectable(cfg[i].val) && !NamesHost(cfg[i].val, h)
    requires NoneNames(cfg, i + 1, j, h)
    ensures NoneNames(cfg, i, j, h)
  {
  }

  /**
   * The section loop finds the first section from `i` on that names the
   * host, falls back to the host name when there is none, and stops at the
   * first section it cannot inspect.
   */
  lemma {:induction false} SectionFromFinds(cfg: seq<Field>, i: nat, h: string)
    requires i <= |cfg|
    ensures var r := SectionFrom(cfg, i, h);
      r.Success? ==>
        || (exists j :: i <= j < |cfg| && r.value == cfg[j].key && NoneNames(cfg, i, j, h)
              && Inspectable(cfg[j].val) && NamesHost(cfg[j].val, h))
        || (r.value == h && NoneNames(cfg, i, |cfg|, h))
    ensures var r := SectionFrom(cfg, i, h);
      r.Failure? ==> exists j :: i <= j < |cfg| && NoneNames(cfg, i, j, h) && !Inspectable(cfg[j].val)
    decreases |cfg| - i
  {
    if i < |cfg| {
      if !Inspectable(cfg[i].val) || NamesHost(cfg[i].val, h) {
        assert NoneNames(cfg, i, i, h);
      } else {
        SectionFromFinds(cfg, i + 1, h);
        var r := SectionFrom(cfg, i + 1, h);
        if r.Failure? {
          var j :| i + 1 <= j < |cfg| && NoneNames(cfg, i + 1, j, h) && !Inspectable(cfg[j].val);
          NoneNamesCons(cfg, i, j, h);
        } else if r.value == h && NoneNames(cfg, i + 1, |cfg|, h) {
          NoneNamesCons(cfg, i, |cfg|, h);
        } else {
          var j :| i + 1 <= j < |cfg| && r.value == cfg[j].key && NoneNames(cfg, i + 1, j, h)
            && Inspectable(cfg[j].val) && NamesHost(cfg[j].val, h);
          NoneNamesCons(cfg, i, j, h);
        }
      }
    }
  }

  /**
   * `_get_section(hostname)`: the first section, in file order and `general`
   * included, whose `name` equals the host name ignoring case; otherwise the
   * lower-cased host name. A section that is not a dict, or whose `name` is
   * not a string, met before a match stops the search with an
   * `AttributeError`.
   */
  function GetSection(cfg: seq<Field>, hostname: string): (r: Result<string, ConfigError>)
    ensures r.Success? ==>
      || (exists j :: 0 <= j < |cfg| && r.value == cfg[j].key && NoneNames(cfg, 0, j, Lower(hostname))
            && Inspectable(cfg[j].val) && NamesHost(cfg[j].val, Lower(hostname)))
      || (r.value == Lower(hostname) && NoneNames(cfg, 0, |cfg|, Lower(hostname)))
    ensures r.Failure? ==> r.error == Crash("AttributeError")
    ensures r.Failure? ==> exists j :: 0 <= j < |cfg| && NoneNames(cfg, 0, j, Lower(hostname)) && !Inspectable(cfg[j].val)
  {
    SectionFromFinds(cfg, 0, Lower(hostname));
    SectionFrom(cfg, 0, Lower(hostname))
  }

  /** Some section name lower-cases to `s`. */
  predicate SomeKeyLowersTo(cfg: seq<Field>, s: string) {
    exists i :: 0 <= i < |cfg| && Lower(cfg[i].key) == s
  }

  /** The section `read` works on, with `name` filled in from the section key when absent. */
  function HostSection(cfg: seq<Field>, hostname: string): Result<(string, seq<Field>), ConfigError> {
    var section :- GetSection(cfg, hostname);
    match Get(cfg, section)
    case None =>
      if SomeKeyLowersTo(cfg, section) then Failure(SectionNotLowercase)
      else Failure(SectionNotFound(section))
    case Some(host) =>
      if !host.Obj? then Failure(Crash("TypeError"))
      else if HasKey(host.fields, "name") then Success((section, host.fields))
      else Success((section, Set(host.fields, "name", Str(section))))
  }

  /** `config['general']['containers'][ctnr]`, or the warning its lookup raises. */
  function GeneralContainer(cfg: seq<Field>, ctnr: string): Result<Value, ConfigError> {
    match Get(cfg, "general")
    case None => Failure(NotInGeneral(ctnr))
    case Some(g) =>
      if !g.Obj? then Failure(ImproperGeneralContainers)
      else match Get(g.fields, "containers")
        case None => Failure(NotInGeneral(ctnr))
        case Some(gcs) =>
          if !gcs.Obj? then Failure(ImproperGeneralContainers)
          else match Get(gcs.fields, ctnr)
            case None => Failure(NotInGeneral(ctnr))
            case Some(v) => Success(v)
  }

  /**
   * How `dict.update(items)` ends for a host entry that is not a dict, and
   * so what `read` reports: an empty string or a list of key/value pairs is
   * accepted, and the `items.get` that follows fails (improper containers);
   * something that is not iterable, or a pair with an unhashable key, is a
   * `TypeError` (improper general containers); a pair of the wrong length is
   * an uncaught `ValueError`.
   */
  function UpdateFromNonDict(items: Value, section: string): ConfigError
    requires !items.Obj?
  {
    match items
    case Str(s) => if s == "" then ImproperContainers(section) else Crash("ValueError")
    case List(es) => UpdatePairs(es, section)
    case _ => ImproperGeneralContainers
  }

  function UpdatePairs(es: seq<Value>, section: string): ConfigError
    decreases |es|
  {
    if es == [] then ImproperContainers(section)
    else
      match es[0]
      case Str(t) => if |t| != 2 then Crash("ValueError") else UpdatePairs(es[1..], section)
      case List(l) =>
        if |l| != 2 then Crash("ValueError")
        else if l[0].List? || l[0].Obj? then ImproperGeneralContainers
        else UpdatePairs(es[1..], section)
      case Obj(f) => if |f| != 2 then Crash("ValueError") else UpdatePairs(es[1..], section)
      case _ => ImproperGeneralContainers
  }

  /**
   * The container merge: a dict from `general` takes the host's items over
   * it; any other general value becomes the host's `source` unless the host
   * has one.
   */
  function Merge(gc: Value, items: Value, section: string): (r: Result<Value, ConfigError>)
    ensures r.Success? <==> items.Obj?
    ensures r.Success? ==> r.value.Obj?
    ensures gc.Obj? && !items.Obj? ==> r == Failure(UpdateFromNonDict(items, section))
    ensures !gc.Obj? && !items.Obj? ==> r == Failure(
      if (items.Str? && Contains(items.s, "source")) || (items.List? && Str("source") in items.items)
      then ImproperContainers(section) else Crash("TypeError"))
  {
    if gc.Obj? then
      if items.Obj? then Success(Obj(Update(gc.fields, items.fields)))
      else Failure(UpdateFromNonDict(items, section))
    else
      match items
      case Obj(f) => Success(if HasKey(f, "source") then items else Obj(Set(f, "source", gc)))
      case Str(s) => if Contains(s, "source") then Failure(ImproperContainers(section)) else Failure(Crash("TypeError"))
      case List(es) => if Str("source") in es then Failure(ImproperContainers(section)) else Failure(Crash("TypeError"))
      case _ => Failure(Crash("TypeError"))
  }

  /**
   * The merged container key by key: over a dict from `general` the host's
   * value wins and `general`'s stays where the host has none; over any other
   * general value the host's keys stay and `source` falls back to that value.
   */
  lemma MergeGet(gc: Value, items: Value, section: string, k: string)
    requires items.Obj? && UniqueKeys(items.fields)
    ensures Get(Merge(gc, items, section).value.fields, k) ==
      if gc.Obj? then (if HasKey(items.fields, k) then Get(items.fields, k) else Get(gc.fields, k))
      else if k == "source" && !HasKey(items.fields, "source") then Some(gc)
      else Get(items.fields, k)
  {
    if gc.Obj? {
      UpdateGet(gc.fields, items.fields, k);
    } else if k == "source" && HasKey(items.fields, "source") {
      assert Merge(gc, items, section).value == items;
    }
  }

  /** Whitespace-split tokens as a JSON list of strings. */
  function Tokens(s: string): Value {
    List(StrList(SplitWs(s)))
  }

  /** `packages`, read from the host's own items, is split when it is a string. */
  function Packages(items: Value, entry: Value, section: string): (r: Result<Value, ConfigError>)
    requires items.Obj? && entry.Obj?
    ensures r.Success? ==> r.value.Obj?
  {
    match Get(items.fields, "packages")
    case None => Success(entry)
    case Some(p) =>
      if p.List? then Success(entry)
      else if p.Str? then Success(Obj(Set(entry.fields, "packages", Tokens(p.s))))
      else Failure(ImproperContainers(section))
  }

  /** What the rules loop does with one rule. */
  datatype RuleStep = Normalised(rule: Value) | StopRules | RuleFails(error: ConfigError)

  /** A rule whose file list was a string, after splitting it. */
  predicate SplitRule(before: Value, after: Value) {
    && before.List? && |before.items| >= 2 && before.items[1].Str?
    && after == List(before.items[1 := Tokens(before.items[1].s)])
  }

  /** A rule as `stow_container` can unpack it: a mode and a list of file patterns. */
  predicate RuleShaped(v: Value) {
    v.List? && |v.items| >= 2 && v.items[1].List?
  }

  /** `after` is `before` made unpackable, its mode (first element) untouched. */
  predicate KeepsMode(before: Value, after: Value) {
    before.List? && |before.items| >= 2 && RuleShaped(after) && after.items[0] == before.items[0]
  }

  /**
   * `rule[1] = rule[1].split()` unless it already is a list. A dict rule
   * raises `KeyError`, which silently ends the loop.
   */
  function NormRule(rule: Value, ctnr: string): (r: RuleStep)
    ensures r.StopRules? <==> rule.Obj?
    ensures r.Normalised? ==> KeepsMode(rule, r.rule)
    ensures r.Normalised? ==> r.rule == rule || SplitRule(rule, r.rule)
  {
    match rule
    case List(l) =>
      if |l| < 2 then RuleFails(Crash("IndexError"))
      else if l[1].List? then Normalised(rule)
      else if l[1].Str? then Normalised(List(l[1 := Tokens(l[1].s)]))
      else RuleFails(ImproperRules(ctnr))
    case Str(s) => if |s| < 2 then RuleFails(Crash("IndexError")) else RuleFails(ImproperRule(rule))
    case Obj(_) => StopRules
    case _ => RuleFails(ImproperRule(rule))
  }

  /** No dict rule among the first `n` rules. */
  predicate NoDictRuleBefore(rs: seq<Field>, n: int)
    requires n <= |rs|
  {
    forall j :: 0 <= j < n ==> !rs[j].val.Obj?
  }

  /** The loop over `rules.items()`; the first dict rule ends it, leaving the rest as it was. */
  function NormRules(rs: seq<Field>, ctnr: string): (r: Result<seq<Field>, ConfigError>)
    ensures r.Success? ==> |r.value| == |rs|
    decreases |rs|
  {
    if rs == [] then Success([])
    else
      match NormRule(rs[0].val, ctnr)
      case StopRules => Success(rs)
      case RuleFails(e) => Failure(e)
      case Normalised(v) =>
        var rest :- NormRules(rs[1..], ctnr);
        Success([Field(rs[0].key, v)] + rest)
  }

  /** A successful rules loop over a non-empty list that normalised its first rule to `v`. */
  lemma NormRulesCons(rs: seq<Field>, ctnr: string)
    requires rs != [] && NormRules(rs, ctnr).Success? && NormRule(rs[0].val, ctnr).Normalised?
    ensures NormRules(rs[1..], ctnr).Success?
    ensures NormRules(rs, ctnr).value
      == [Field(rs[0].key, NormRule(rs[0].val, ctnr).rule)] + NormRules(rs[1..], ctnr).value
  {
  }

  /** The rules loop keeps every rule's key, in order. */
  lemma {:induction false} NormRulesKeys(rs: seq<Field>, ctnr: string)
    requires NormRules(rs, ctnr).Success?
    ensures forall i :: 0 <= i < |rs| ==> NormRules(rs, ctnr).value[i].key == rs[i].key
    decreases |rs|
  {
    if rs != [] && NormRule(rs[0].val, ctnr).Normalised? {
      NormRulesCons(rs, ctnr);
      NormRulesKeys(rs[1..], ctnr);
      var out := NormRules(rs, ctnr).value;
      forall i | 1 <= i < |rs| ensures out[i].key == rs[i].key {
        assert out[i] == NormRules(rs[1..], ctnr).value[i - 1] && rs[i] == rs[1..][i - 1];
      }
    }
  }

  /** Each rule comes out as it was or with its string file list split. */
  lemma {:induction false} NormRulesValues(rs: seq<Field>, ctnr: string)
    requires NormRules(rs, ctnr).Success?
    ensures forall i :: 0 <= i < |rs| ==>
      NormRules(rs, ctnr).value[i].val == rs[i].val || SplitRule(rs[i].val, NormRules(rs, ctnr).value[i].val)
    decreases |rs|
  {
    if rs != [] && NormRule(rs[0].val, ctnr).Normalised? {
      NormRulesCons(rs, ctnr);
      NormRulesValues(rs[1..], ctnr);
      var out := NormRules(rs, ctnr).value;
      forall i | 1 <= i < |rs| ensures out[i].val == rs[i].val || SplitRule(rs[i].val, out[i].val) {
        assert out[i] == NormRules(rs[1..], ctnr).value[i - 1] && rs[i] == rs[1..][i - 1];
      }
    }
  }

  /** Every rule before the first dict rule comes out unpackable, its mode untouched. */
  lemma {:induction false} NormRulesModes(rs: seq<Field>, ctnr: string)
    requires NormRules(rs, ctnr).Success?
    ensures forall i :: 0 <= i < |rs| && NoDictRuleBefore(rs, i + 1) ==>
      KeepsMode(rs[i].val, NormRules(rs, ctnr).value[i].val)
    decreases |rs|
  {
    if rs != [] && NormRule(rs[0].val, ctnr).Normalised? {
      NormRulesCons(rs, ctnr);
      NormRulesModes(rs[1..], ctnr);
      var out := NormRules(rs, ctnr).value;
      forall i | 1 <= i < |rs| && NoDictRuleBefore(rs, i + 1) ensures KeepsMode(rs[i].val, out[i].val) {
        assert out[i] == NormRules(rs[1..], ctnr).value[i - 1] && rs[i] == rs[1..][i - 1];
        forall j | 0 <= j < i ensures !rs[1..][j].val.Obj? {
          assert rs[1..][j] == rs[j + 1];
        }
      }
    }
  }

  /** The rules of the merged entry are normalised when present; a non-dict `rules` is an error. */
  function Rules(entry: Value, ctnr: string): (r: Result<Value, ConfigError>)
    requires entry.Obj?
    ensures r.Success? ==> r.value.Obj?
  {
    match Get(entry.fields, "rules")
    case None => Success(entry)
    case Some(rv) =>
      if !rv.Obj? then Failure(ImproperRules(ctnr))
      else
        var rs :- NormRules(rv.fields, ctnr);
        Success(Obj(Set(entry.fields, "rules", Obj(rs))))
  }

  /** One pass of the containers loop: look up, merge, split `packages`, normalise `rules`. */
  function Container(cfg: seq<Field>, section: string, ctnr: string, items: Value): (r: Result<Value, ConfigError>)
    ensures r.Success? ==> r.value.Obj? && items.Obj?
  {
    var gc :- GeneralContainer(cfg, ctnr);
    var merged :- Merge(gc, items, section);
    var packed :- Packages(items, merged, section);
    Rules(packed, ctnr)
  }

  /** Every container of the host, in order; the first warning stops the loop. */
  function Containers(cfg: seq<Field>, section: string, cs: seq<Field>): (r: Result<seq<Field>, ConfigError>)
    ensures r.Success? ==> |r.value| == |cs|
    ensures r.Success? ==> forall i :: 0 <= i < |cs| ==>
      r.value[i].key == cs[i].key && Container(cfg, section, cs[i].key, cs[i].val) == Success(r.value[i].val)
    decreases |cs|
  {
    if cs == [] then Success([])
    else
      var e :- Container(cfg, section, cs[0].key, cs[0].val);
      var rest :- Containers(cfg, section, cs[1..]);
      Success([Field(cs[0].key, e)] + rest)
  }

  /** The containers, `group_output` and the rest of the host section, once the section is known. */
  function Normalise(cfg: seq<Field>, section: string, host: seq<Field>): Result<Value, ConfigError> {
    match Get(host, "containers")
    case None => Failure(NoContainersKey(section))
    case Some(cv) =>
      if !cv.Obj? then Failure(ImproperContainers(section))
      else
        var cs :- Containers(cfg, section, cv.fields);
        match Get(cfg, "general")
        case None => Failure(Crash("KeyError"))
        case Some(g) =>
          if !g.Obj? then Failure(Crash("AttributeError"))
          else Success(Obj(Set(Set(host, "containers", Obj(cs)), "group_output", Get(g.fields, "group_output").GetOr(Null))))
  }

  /** `Config.read()` on the parsed file, for the machine named `hostname`. */
  function Read(config: Value, hostname: string): Result<Value, ConfigError> {
    if !config.Obj? then Failure(Crash("AttributeError"))
    else
      var (section, host) :- HostSection(config.fields, hostname);
      Normalise(config.fields, section, host)
  }

  /**
   * A missing section is reported as a case problem when some section name
   * lower-cases to the one looked for, and as not found otherwise.
   */
  lemma MissingSection(cfg: seq<Field>, hostname: string)
    requires GetSection(cfg, hostname).Success?
    requires !HasKey(cfg, GetSection(cfg, hostname).value)
    ensures var s := GetSection(cfg, hostname).value;
      Read(Obj(cfg), hostname) == Failure(if SomeKeyLowersTo(cfg, s) then SectionNotLowercase else SectionNotFound(s))
  {
  }

  /** A successful `read`, taken apart: the section found, its entry, `general`, the containers. */
  lemma {:induction false} ReadUnfold(cfg: seq<Field>, hostname: string, out: seq<Field>)
    returns (section: string, host: seq<Field>, named: seq<Field>, general: seq<Field>, cs: seq<Field>)
    requires Read(Obj(cfg), hostname) == Success(Obj(out))
    ensures GetSection(cfg, hostname) == Success(section)
    ensures Get(cfg, section) == Some(Obj(host))
    ensures named == if HasKey(host, "name") then host else Set(host, "name", Str(section))
    ensures Get(cfg, "general") == Some(Obj(general))
    ensures out == Set(Set(named, "containers", Obj(cs)), "group_output", Get(general, "group_output").GetOr(Null))
  {
    section := GetSection(cfg, hostname).value;
    host := Get(cfg, section).value.fields;
    named := HostSection(cfg, hostname).value.1;
    general := Get(cfg, "general").value.fields;
    cs := Containers(cfg, section, Get(named, "containers").value.fields).value;
  }

  /**
   * The host section comes back with `name` set to the section key only
   * when it had none, `group_output` always taken from `general` (null when
   * absent there), and every other key as it was.
   */
  lemma ReadFillsNameAndGroupOutput(cfg: seq<Field>, hostname: string, out: seq<Field>)
    requires Read(Obj(cfg), hostname) == Success(Obj(out))
    ensures GetSection(cfg, hostname).Success?
    ensures var section := GetSection(cfg, hostname).value;
      && Get(cfg, section).Some? && Get(cfg, section).value.Obj?
      && Get(cfg, "general").Some? && Get(cfg, "general").value.Obj?
    ensures var section := GetSection(cfg, hostname).value;
      var host := Get(cfg, section).value.fields;
      var general := Get(cfg, "general").value.fields;
      && Get(out, "name") == (if HasKey(host, "name") then Get(host, "name") else Some(Str(section)))
      && Get(out, "group_output") == Some(Get(general, "group_output").GetOr(Null))
      && (forall k :: k != "name" && k != "containers" && k != "group_output" ==> Get(out, k) == Get(host, k))
  {
    var section, host, named, general, cs := ReadUnfold(cfg, hostname, out);
    NameNotContainers();
    var mid := Set(named, "containers", Obj(cs));
    assert Get(out, "name") == Get(mid, "name") == Get(named, "name");
    assert Get(out, "group_output") == Some(Get(general, "group_output").GetOr(Null));
    forall k | k != "name" && k != "containers" && k != "group_output" ensures Get(out, k) == Get(host, k) {
      ReadKeepsKey(cfg, hostname, out, k);
    }
  }

  lemma NameNotContainers()
    ensures "name" != "containers" && "name" != "group_output"
  {
    assert "name"[0] == 'n' && "containers"[0] == 'c' && "group_output"[0] == 'g';
  }

  /** A key other than `name`, `containers` and `group_output` reads as it did in the host section. */
  lemma ReadKeepsKey(cfg: seq<Field>, hostname: string, out: seq<Field>, k: string)
    requires Read(Obj(cfg), hostname) == Success(Obj(out))
    requires k != "name" && k != "containers" && k != "group_output"
    ensures GetSection(cfg, hostname).Success? && HasKey(cfg, GetSection(cfg, hostname).value)
    ensures Get(cfg, GetSection(cfg, hostname).value).value.Obj?
    ensures Get(out, k) == Get(Get(cfg, GetSection(cfg, hostname).value).value.fields, k)
  {
    var section, host, named, general, cs := ReadUnfold(cfg, hostname, out);
  }

  /** A host section without `containers`, or with a value that is not a dict there, is refused. */
  lemma ContainersKeyErrors(cfg: seq<Field>, hostname: string)
    requires HostSection(cfg, hostname).Success?
    ensures var (section, host) := HostSection(cfg, hostname).value;
      && (!HasKey(host, "containers") ==> Read(Obj(cfg), hostname) == Failure(NoContainersKey(section)))
      && (HasKey(host, "containers") && !Get(host, "containers").value.Obj?
          ==> Read(Obj(cfg), hostname) == Failure(ImproperContainers(section)))
  {
  }

  /**
   * A container that `general` does not list, or a `general` without
   * `containers`, is "not in general"; a `general` or `general.containers`
   * that cannot be indexed by name is "improperly formatted".
   */
  lemma ContainerLookupErrors(cfg: seq<Field>, section: string, ctnr: string, items: Value)
    ensures var g := Get(cfg, "general");
      && (g.None? ==> Container(cfg, section, ctnr, items) == Failure(NotInGeneral(ctnr)))
      && (g.Some? && !g.value.Obj? ==> Container(cfg, section, ctnr, items) == Failure(ImproperGeneralContainers))
      && (g.Some? && g.value.Obj? ==>
            var gcs := Get(g.value.fields, "containers");
            && (gcs.None? ==> Container(cfg, section, ctnr, items) == Failure(NotInGeneral(ctnr)))
            && (gcs.Some? && !gcs.value.Obj? ==> Container(cfg, section, ctnr, items) == Failure(ImproperGeneralContainers))
            && (gcs.Some? && gcs.value.Obj? && !HasKey(gcs.value.fields, ctnr)
                ==> Container(cfg, section, ctnr, items) == Failure(NotInGeneral(ctnr))))
  {
  }

  /** `packages` and `rules` are the only keys the normalisation steps may change. */
  lemma NormalisationKeepsOtherKeys(items: Value, merged: Value, section: string, ctnr: string, k: string)
    requires items.Obj? && merged.Obj?
    requires Packages(items, merged, section).Success?
    requires Rules(Packages(items, merged, section).value, ctnr).Success?
    requires k != "packages" && k != "rules"
    ensures Get(Rules(Packages(items, merged, section).value, ctnr).value.fields, k) == Get(merged.fields, k)
  {
  }

  /**
   * Container merge over a dict from `general`: the host wins key by key
   * (shallow), and `general`'s value stays wherever the host has none.
   */
  lemma MergeHostWins(cfg: seq<Field>, section: string, ctnr: string, items: Value, k: string)
    requires Container(cfg, section, ctnr, items).Success?
    requires GeneralContainer(cfg, ctnr).Success? && GeneralContainer(cfg, ctnr).value.Obj?
    requires UniqueKeys(items.fields)
    requires k != "packages" && k != "rules"
    ensures var gc := GeneralContainer(cfg, ctnr).value;
      Get(Container(cfg, section, ctnr, items).value.fields, k)
        == if HasKey(items.fields, k) then Get(items.fields, k) else Get(gc.fields, k)
  {
    var gc := GeneralContainer(cfg, ctnr).value;
    var merged := Merge(gc, items, section).value;
    NormalisationKeepsOtherKeys(items, merged, section, ctnr, k);
    UpdateGet(gc.fields, items.fields, k);
  }

  /**
   * Container merge over anything else from `general`: that value becomes
   * the host's `source` unless the host gives one; the host's other keys
   * stay.
   */
  lemma MergeSourceFallback(cfg: seq<Field>, section: string, ctnr: string, items: Value, k: string)
    requires Container(cfg, section, ctnr, items).Success?
    requires GeneralContainer(cfg, ctnr).Success? && !GeneralContainer(cfg, ctnr).value.Obj?
    requires k != "packages" && k != "rules"
    ensures var gc := GeneralContainer(cfg, ctnr).value;
      Get(Container(cfg, section, ctnr, items).value.fields, k)
        == if k == "source" && !HasKey(items.fields, "source") then Some(gc) else Get(items.fields, k)
  {
    var gc := GeneralContainer(cfg, ctnr).value;
    var merged := Merge(gc, items, section).value;
    NormalisationKeepsOtherKeys(items, merged, section, ctnr, k);
  }

  /**
   * `packages` given as a string on the host becomes its whitespace-split
   * list; a list stays as it is; with no host `packages`, whatever the merge
   * brought from `general` stays, unsplit.
   */
  lemma PackagesNormalised(cfg: seq<Field>, section: string, ctnr: string, items: Value)
    requires Container(cfg, section, ctnr, items).Success?
    requires UniqueKeys(items.fields)
    ensures var e := Container(cfg, section, ctnr, items).value;
      var p := Get(items.fields, "packages");
      var merged := Merge(GeneralContainer(cfg, ctnr).value, items, section).value;
      && (p.Some? && p.value.Str? ==> Get(e.fields, "packages") == Some(Tokens(p.value.s)))
      && (p.Some? && p.value.List? ==> Get(e.fields, "packages") == p)
      && (p.None? ==> Get(e.fields, "packages") == Get(merged.fields, "packages"))
  {
    var gc := GeneralContainer(cfg, ctnr).value;
    var merged := Merge(gc, items, section).value;
    var packed := Packages(items, merged, section).value;
    assert Container(cfg, section, ctnr, items) == Rules(packed, ctnr);
    RulesKeepPackages(packed, ctnr);
    PackagesStep(items, merged, section);
    if HasKey(items.fields, "packages") {
      MergeKeepsHostPackages(gc, items, section);
    }
  }

  /** The `packages` step splits a host string and otherwise leaves the merged entry as it is. */
  lemma PackagesStep(items: Value, merged: Value, section: string)
    requires items.Obj? && merged.Obj? && Packages(items, merged, section).Success?
    ensures var p := Get(items.fields, "packages");
      && (p.Some? && p.value.Str? ==> Get(Packages(items, merged, section).value.fields, "packages") == Some(Tokens(p.value.s)))
      && (!(p.Some? && p.value.Str?) ==> Packages(items, merged, section).value == merged)
  {
  }

  /** The `rules` step leaves `packages` alone. */
  lemma RulesKeepPackages(entry: Value, ctnr: string)
    requires entry.Obj? && Rules(entry, ctnr).Success?
    ensures Get(Rules(entry, ctnr).value.fields, "packages") == Get(entry.fields, "packages")
  {
    assert "rules"[0] == 'r' && "packages"[0] == 'p';
  }

  /** The merge keeps the host's own `packages`. */
  lemma MergeKeepsHostPackages(gc: Value, items: Value, section: string)
    requires Merge(gc, items, section).Success? && UniqueKeys(items.fields) && HasKey(items.fields, "packages")
    ensures Get(Merge(gc, items, section).value.fields, "packages") == Get(items.fields, "packages")
  {
    if gc.Obj? {
      UpdateGet(gc.fields, items.fields, "packages");
    } else {
      assert "source"[0] == 's' && "packages"[0] == 'p';
    }
  }

  /**
   * The merged entry's `rules`, when present, come out as the rules loop
   * leaves them: same packages, each rule before the first dict rule
   * unpackable as a mode and a list of patterns.
   */
  lemma RulesNormalised(cfg: seq<Field>, section: string, ctnr: string, items: Value)
    requires Container(cfg, section, ctnr, items).Success?
    ensures var e := Container(cfg, section, ctnr, items).value;
      var merged := Merge(GeneralContainer(cfg, ctnr).value, items, section).value;
      var rv := Get(merged.fields, "rules");
      && (rv.None? ==> !HasKey(e.fields, "rules"))
      && (rv.Some? ==>
            (rv.value.Obj? && NormRules(rv.value.fields, ctnr).Success?
             && Get(e.fields, "rules") == Some(Obj(NormRules(rv.value.fields, ctnr).value))))
  {
    var gc := GeneralContainer(cfg, ctnr).value;
    var merged := Merge(gc, items, section).value;
    var packed := Packages(items, merged, section).value;
    assert Get(packed.fields, "rules") == Get(merged.fields, "rules");
  }

  /** A `rules` value that is not a dict (an empty string, a list) is refused. */
  lemma ImproperRulesRefused(entry: Value, ctnr: string)
    requires entry.Obj? && HasKey(entry.fields, "rules") && !Get(entry.fields, "rules").value.Obj?
    ensures Rules(entry, ctnr) == Failure(ImproperRules(ctnr))
  {
  }
}
