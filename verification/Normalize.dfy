/** Tidying and validating a source's filters: what a save stores. */
module Normalize {
  import opened Text
  import opened Sorting
  import opened Config
  import opened GroupKeys

  datatype FilterError =
    | BadDefault
    | TooManyRules
    | PatternTooLong(rule: nat)
    | BadField(rule: nat)
    | BadAction(rule: nat)
    | BadPattern(rule: nat)
    | BadMode
    | KeepsNothing
    | BadImportType(value: string)
    | BadOverrideType(group: string)
    | ConflictingOverride(kept: string, other: string)
    | BadTier(tier: string)
    | BadRegex(field: string)

  datatype Result<+T> = Ok(value: T) | Err(error: FilterError)

  /** r with xs put in front of its value. */
  function Before<T>(xs: seq<T>, r: Result<seq<T>>): (q: Result<seq<T>>)
    ensures xs == [] ==> q == r
  {
    match r
    case Ok(ys) =>
      assert xs == [] ==> xs + ys == ys;
      Ok(xs + ys)
    case Err(e) => Err(e)
  }

  // ---- rules -----------------------------------------------------------------

  /** Keep is stored as the empty value. */
  function NormalDefault(a: Alphabet, value: string): Result<string> {
    var v := a.Lower(a.Trim(value));
    if v == "" || v == DEFAULT_KEEP then Ok("")
    else if v == DEFAULT_DROP then Ok(DEFAULT_DROP)
    else Err(BadDefault)
  }

  function TidyRule(a: Alphabet, r: FilterRule): FilterRule {
    var field := a.Lower(a.Trim(r.field));
    var action := a.Lower(a.Trim(r.action));
    FilterRule(
      if field == "" then FIELD_GROUP else field,
      if action == "" then ACTION_INCLUDE else action,
      r.pattern,
      a.Trim(r.note))
  }

  function RuleError(e: Engine, r: FilterRule, i: nat): Option<FilterError> {
    if |r.pattern| > MAX_FILTER_PATTERN_LENGTH then Some(PatternTooLong(i + 1))
    else if r.field !in {FIELD_GROUP, FIELD_NAME, FIELD_URL, FIELD_ANY} then Some(BadField(i + 1))
    else if r.action !in {ACTION_INCLUDE, ACTION_EXCLUDE} then Some(BadAction(i + 1))
    else if !e.compiles(RulePattern(r.pattern)) then Some(BadPattern(i + 1))
    else None
  }

  lemma BeforeTwice<T>(xs: seq<T>, ys: seq<T>, r: Result<seq<T>>)
    ensures Before(xs, Before(ys, r)) == Before(xs + ys, r)
  {
    if r.Ok? {
      assert xs + (ys + r.value) == xs + ys + r.value;
    }
  }

  function NormalRulesFrom(e: Engine, rules: seq<FilterRule>, i: nat): Result<seq<FilterRule>>
    requires i <= |rules|
    decreases |rules| - i
  {
    if i == |rules| then Ok([])
    else
      var r := TidyRule(e.alphabet, rules[i]);
      if r.pattern == "" then NormalRulesFrom(e, rules, i + 1)
      else match RuleError(e, r, i)
        case Some(error) => Err(error)
        case None => Before([r], NormalRulesFrom(e, rules, i + 1))
  }

  function NormalRules(e: Engine, rules: seq<FilterRule>): Result<seq<FilterRule>> {
    if |rules| > MAX_FILTER_RULES then Err(TooManyRules) else NormalRulesFrom(e, rules, 0)
  }

  method NormalizeRules(e: Engine, rules: seq<FilterRule>) returns (r: Result<seq<FilterRule>>)
    ensures r == NormalRules(e, rules)
  {
    if |rules| == 0 {
      return Ok([]);
    }
    if |rules| > MAX_FILTER_RULES {
      return Err(TooManyRules);
    }
    var out := [];
    for i := 0 to |rules|
      invariant NormalRules(e, rules) == Before(out, NormalRulesFrom(e, rules, i))
    {
      var rule := TidyRule(e.alphabet, rules[i]);
      if rule.pattern != "" {
        var error := RuleError(e, rule, i);
        if error.Some? {
          return Err(error.value);
        }
        BeforeTwice(out, [rule], NormalRulesFrom(e, rules, i + 1));
        out := out + [rule];
      }
    }
    assert out + [] == out;
    return Ok(out);
  }

  ghost predicate CanonicalRule(e: Engine, r: FilterRule) {
    && r.field in {FIELD_GROUP, FIELD_NAME, FIELD_URL, FIELD_ANY}
    && r.action in {ACTION_INCLUDE, ACTION_EXCLUDE}
    && 0 < |r.pattern| <= MAX_FILTER_PATTERN_LENGTH
    && e.compiles(RulePattern(r.pattern))
    && Trimmed(e.alphabet, r.note)
  }

  ghost predicate CanonicalRules(e: Engine, rules: seq<FilterRule>) {
    |rules| <= MAX_FILTER_RULES && forall i :: 0 <= i < |rules| ==> CanonicalRule(e, rules[i])
  }

  lemma {:induction false} NormalRulesAreCanonical(e: Engine, rules: seq<FilterRule>, i: nat)
    requires i <= |rules| && NormalRulesFrom(e, rules, i).Ok?
    ensures var out := NormalRulesFrom(e, rules, i).value;
            |out| <= |rules| - i && forall k :: 0 <= k < |out| ==> CanonicalRule(e, out[k])
    decreases |rules| - i
  {
    hide Alphabet.Trim, Alphabet.Lower, RulePattern;
    if i < |rules| {
      NormalRulesAreCanonical(e, rules, i + 1);
      TrimIsTrimmed(e.alphabet, rules[i].note);
    }
  }

  /** Words of the file formats are already lower-case and carry no space. */
  lemma {:induction false} PlainWordIsFixed(a: Alphabet, s: string)
    requires a.Lawful() && forall i :: 0 <= i < |s| ==> 'a' <= s[i] <= 'z'
    ensures a.Trim(s) == s && a.Lower(s) == s
  {
  }

  lemma TrimmedIsFixed(a: Alphabet, s: string)
    requires Trimmed(a, s)
    ensures a.Trim(s) == s
  {
  }

  lemma {:induction false} CanonicalRulesAreFixed(e: Engine, rules: seq<FilterRule>, i: nat)
    requires e.Lawful() && CanonicalRules(e, rules) && i <= |rules|
    ensures NormalRulesFrom(e, rules, i) == Ok(rules[i..])
    decreases |rules| - i
  {
    hide Alphabet.Trim, Alphabet.Lower, RulePattern;
    if i < |rules| {
      CanonicalRulesAreFixed(e, rules, i + 1);
      PlainWordIsFixed(e.alphabet, rules[i].field);
      PlainWordIsFixed(e.alphabet, rules[i].action);
      TrimmedIsFixed(e.alphabet, rules[i].note);
      assert TidyRule(e.alphabet, rules[i]) == rules[i];
      assert rules[i..] == [rules[i]] + rules[i + 1..];
    }
  }

  // ---- group labels ------------------------------------------------------------

  function DedupeFrom(a: Alphabet, groups: seq<string>, seen: set<string>): seq<string> {
    if groups == [] then []
    else
      var g := a.Trim(groups[0]);
      var key := GroupKey(a, g);
      if key in seen then DedupeFrom(a, groups[1..], seen)
      else [g] + DedupeFrom(a, groups[1..], seen + {key})
  }

  method DedupeGroups(a: Alphabet, groups: seq<string>) returns (out: seq<string>)
    ensures out == DedupeFrom(a, groups, {})
  {
    hide GroupKey, Alphabet.Trim;
    out := [];
    var seen: set<string> := {};
    for i := 0 to |groups|
      invariant DedupeFrom(a, groups, {}) == out + DedupeFrom(a, groups[i..], seen)
    {
      assert groups[i..][1..] == groups[i + 1..];
      var g := a.Trim(groups[i]);
      var key := GroupKey(a, g);
      if key !in seen {
        seen := seen + {key};
        out := out + [g];
      }
    }
  }

  ghost predicate CanonicalLabels(a: Alphabet, groups: seq<string>) {
    && (forall i :: 0 <= i < |groups| ==> Trimmed(a, groups[i]))
    && (forall i, j :: 0 <= i < j < |groups| ==> GroupKey(a, groups[i]) != GroupKey(a, groups[j]))
  }

  ghost function KeysOf(a: Alphabet, groups: seq<string>): set<string> {
    set g | g in groups :: GroupKey(a, g)
  }

  /** The same groups, each named once: the set of keys is kept and no key
      has two labels. */
  lemma {:induction false} DedupeKeepsEveryGroup(a: Alphabet, groups: seq<string>, seen: set<string>)
    requires a.Lawful()
    ensures CanonicalLabels(a, DedupeFrom(a, groups, seen))
    ensures KeysOf(a, DedupeFrom(a, groups, seen)) == KeysOf(a, groups) - seen
  {
    hide GroupKey, Alphabet.Trim;
    if groups != [] {
      var g := a.Trim(groups[0]);
      var key := GroupKey(a, g);
      KeyOfTrim(a, groups[0]);
      TrimIsTrimmed(a, groups[0]);
      KeysOfCons(a, groups[0], groups[1..]);
      assert groups == [groups[0]] + groups[1..];
      if key in seen {
        DedupeKeepsEveryGroup(a, groups[1..], seen);
      } else {
        DedupeKeepsEveryGroup(a, groups[1..], seen + {key});
        var rest := DedupeFrom(a, groups[1..], seen + {key});
        KeysOfCons(a, g, rest);
        forall i | 0 <= i < |rest|
          ensures GroupKey(a, rest[i]) != key
        {
          assert rest[i] in rest && GroupKey(a, rest[i]) in KeysOf(a, rest);
        }
      }
    }
  }

  /** Every label kept is one of the operator's own, trimmed. */
  lemma {:induction false} DedupeKeepsSpellings(a: Alphabet, groups: seq<string>, seen: set<string>)
    ensures forall l :: l in DedupeFrom(a, groups, seen) ==> exists g :: g in groups && l == a.Trim(g)
  {
    if groups != [] {
      var seen' := seen + {GroupKey(a, a.Trim(groups[0]))};
      DedupeKeepsSpellings(a, groups[1..], seen);
      DedupeKeepsSpellings(a, groups[1..], seen');
      assert groups[0] in groups;
      assert forall g :: g in groups[1..] ==> g in groups;
    }
  }

  lemma KeysOfCons(a: Alphabet, g: string, groups: seq<string>)
    ensures KeysOf(a, [g] + groups) == {GroupKey(a, g)} + KeysOf(a, groups)
  {
    var all := [g] + groups;
    assert forall x :: x in all <==> x == g || x in groups;
  }

  lemma {:induction false} CanonicalLabelsAreFixed(a: Alphabet, groups: seq<string>, seen: set<string>)
    requires CanonicalLabels(a, groups) && KeysOf(a, groups) !! seen
    ensures DedupeFrom(a, groups, seen) == groups
  {
    if groups != [] {
      TrimmedIsFixed(a, groups[0]);
      KeysOfCons(a, groups[0], groups[1..]);
      assert groups == [groups[0]] + groups[1..];
      assert forall i :: 0 <= i < |groups[1..]| ==> groups[1..][i] == groups[i + 1];
      CanonicalLabelsAreFixed(a, groups[1..], seen + {GroupKey(a, groups[0])});
    }
  }

  // ---- import types --------------------------------------------------------------

  function NormalTypesFrom(a: Alphabet, values: seq<string>, seen: set<string>): Result<seq<string>> {
    if values == [] then Ok([])
    else
      var t := a.Lower(a.Trim(values[0]));
      if !IsContentTypeName(t) then Err(BadImportType(t))
      else if t in seen then NormalTypesFrom(a, values[1..], seen)
      else Before([t], NormalTypesFrom(a, values[1..], seen + {t}))
  }

  /** A gate that lets all three types through is kept as an empty list. */
  function NormalTypes(a: Alphabet, values: seq<string>): Result<seq<string>> {
    match NormalTypesFrom(a, values, {})
    case Err(e) => Err(e)
    case Ok(ts) => if |ts| == 3 then Ok([]) else Ok(ts)
  }

  method NormalizeTypes(a: Alphabet, values: seq<string>) returns (r: Result<seq<string>>)
    ensures r == NormalTypes(a, values)
  {
    var out := [];
    var seen: set<string> := {};
    for i := 0 to |values|
      invariant NormalTypesFrom(a, values, {}) == Before(out, NormalTypesFrom(a, values[i..], seen))
    {
      assert values[i..][1..] == values[i + 1..];
      var t := a.Lower(a.Trim(values[i]));
      if !IsContentTypeName(t) {
        return Err(BadImportType(t));
      }
      if t !in seen {
        BeforeTwice(out, [t], NormalTypesFrom(a, values[i + 1..], seen + {t}));
        seen := seen + {t};
        out := out + [t];
      }
    }
    assert out + [] == out;
    if |out| == 0 || |out| == 3 {
      return Ok([]);
    }
    return Ok(out);
  }

  ghost predicate CanonicalTypes(types: seq<string>) {
    && |types| != 3
    && NoDuplicates(types)
    && forall t :: t in types ==> IsContentTypeName(t)
  }

  lemma {:induction false} NormalTypesAreDistinct(a: Alphabet, values: seq<string>, seen: set<string>)
    requires NormalTypesFrom(a, values, seen).Ok?
    ensures var out := NormalTypesFrom(a, values, seen).value;
            && NoDuplicates(out)
            && (forall t :: t in out ==> IsContentTypeName(t) && t !in seen)
  {
    if values != [] {
      var t := a.Lower(a.Trim(values[0]));
      if t in seen {
        NormalTypesAreDistinct(a, values[1..], seen);
      } else {
        NormalTypesAreDistinct(a, values[1..], seen + {t});
      }
    }
  }

  lemma {:induction false} DistinctTypesAreFixed(a: Alphabet, types: seq<string>, seen: set<string>)
    requires a.Lawful() && NoDuplicates(types)
    requires forall t :: t in types ==> IsContentTypeName(t) && t !in seen
    ensures NormalTypesFrom(a, types, seen) == Ok(types)
  {
    if types != [] {
      assert types[0] in types;
      PlainWordIsFixed(a, types[0]);
      assert types == [types[0]] + types[1..];
      assert forall t :: t in types[1..] ==> t in types;
      assert types[0] !in types[1..];
      DistinctTypesAreFixed(a, types[1..], seen + {types[0]});
    }
  }

  // ---- group type overrides ----------------------------------------------------------

  /** One override, in the sorted order of the labels as written: over holds
      what is kept so far and seen the label kept for each group key. */
  function NormalOverridesFrom(a: Alphabet, keys: seq<string>, m: map<string, string>,
                               over: map<string, string>, seen: map<string, string>): Result<map<string, string>>
    requires forall k :: k in keys ==> k in m
    requires seen.Values <= over.Keys
  {
    if keys == [] then Ok(over)
    else
      var t := a.Lower(a.Trim(m[keys[0]]));
      var name := a.Trim(keys[0]);
      var key := GroupKey(a, name);
      if name == "" || t == "" then NormalOverridesFrom(a, keys[1..], m, over, seen)
      else if !IsContentTypeName(t) then Err(BadOverrideType(keys[0]))
      else if key in seen then
        if over[seen[key]] != t then Err(ConflictingOverride(seen[key], name))
        else NormalOverridesFrom(a, keys[1..], m, over, seen)
      else NormalOverridesFrom(a, keys[1..], m, over[name := t], seen[key := name])
  }

  ghost function NormalOverrides(a: Alphabet, m: map<string, string>): Result<map<string, string>> {
    NormalOverridesFrom(a, SortedSet(m.Keys), m, map[], map[])
  }

  method NormalizeOverrides(a: Alphabet, m: map<string, string>) returns (r: Result<map<string, string>>)
    ensures r == NormalOverrides(a, m)
  {
    hide GroupKey, Alphabet.Trim, Alphabet.Lower, SortedSet;
    var keys := SortedStrings(m.Keys);
    var over: map<string, string> := map[];
    var seen: map<string, string> := map[];
    for i := 0 to |keys|
      invariant seen.Values <= over.Keys
      invariant NormalOverrides(a, m) == NormalOverridesFrom(a, keys[i..], m, over, seen)
    {
      assert keys[i..][1..] == keys[i + 1..];
      var t := a.Lower(a.Trim(m[keys[i]]));
      var name := a.Trim(keys[i]);
      if name == "" || t == "" {
        continue;
      }
      if !IsContentTypeName(t) {
        return Err(BadOverrideType(keys[i]));
      }
      var key := GroupKey(a, name);
      if key in seen {
        if over[seen[key]] != t {
          return Err(ConflictingOverride(seen[key], name));
        }
        continue;
      }
      seen := seen[key := name];
      over := over[name := t];
    }
    return Ok(over);
  }

  /** One label per group key, trimmed and not blank, with a known type. */
  ghost predicate CanonicalOverrides(a: Alphabet, m: map<string, string>) {
    && (forall g :: g in m ==> g != "" && Trimmed(a, g) && IsContentTypeName(m[g]))
    && DistinctUnderKey(a, m)
  }

  ghost predicate DistinctUnderKey(a: Alphabet, m: map<string, string>) {
    forall g, h :: g in m && h in m && GroupKey(a, g) == GroupKey(a, h) ==> g == h
  }

  ghost predicate KeptLabels(a: Alphabet, over: map<string, string>, seen: map<string, string>) {
    && CanonicalOverrides(a, over)
    && seen.Values <= over.Keys
    && (forall g :: g in over ==> GroupKey(a, g) in seen && seen[GroupKey(a, g)] == g)
  }

  lemma {:induction false} NormalOverridesAreCanonical(a: Alphabet, keys: seq<string>, m: map<string, string>,
                                                       over: map<string, string>, seen: map<string, string>)
    requires forall k :: k in keys ==> k in m
    requires KeptLabels(a, over, seen)
    requires NormalOverridesFrom(a, keys, m, over, seen).Ok?
    ensures CanonicalOverrides(a, NormalOverridesFrom(a, keys, m, over, seen).value)
  {
    hide GroupKey, Alphabet.Trim, Alphabet.Lower;
    if keys != [] {
      var t := a.Lower(a.Trim(m[keys[0]]));
      var name := a.Trim(keys[0]);
      var key := GroupKey(a, name);
      if name == "" || t == "" || key in seen {
        NormalOverridesAreCanonical(a, keys[1..], m, over, seen);
      } else {
        TrimIsTrimmed(a, keys[0]);
        var over', seen' := over[name := t], seen[key := name];
        assert KeptLabels(a, over', seen') by {
          assert forall g :: g in over' && g != name ==> g in over && GroupKey(a, g) in seen;
          assert forall g :: g in over ==> GroupKey(a, g) != key;
        }
        NormalOverridesAreCanonical(a, keys[1..], m, over', seen');
      }
    }
  }

  lemma FreshKey(a: Alphabet, m: map<string, string>, over: map<string, string>, seen: map<string, string>, g: string)
    requires DistinctUnderKey(a, m) && g in m && g !in over && over.Keys <= m.Keys
    requires forall k :: k in seen ==> seen[k] in over && k == GroupKey(a, seen[k])
    ensures GroupKey(a, g) !in seen
  {
  }

  /** A canonical map is rebuilt entry by entry. */
  lemma {:induction false} CanonicalOverridesAreFixed(a: Alphabet, keys: seq<string>, m: map<string, string>,
                                                      over: map<string, string>, seen: map<string, string>)
    requires a.Lawful() && CanonicalOverrides(a, m) && NoDuplicates(keys)
    requires forall k :: k in keys <==> k in m && k !in over
    requires over.Keys <= m.Keys && forall g :: g in over ==> over[g] == m[g]
    requires seen.Values <= over.Keys
    requires forall k :: k in seen ==> seen[k] in over && k == GroupKey(a, seen[k])
    ensures NormalOverridesFrom(a, keys, m, over, seen) == Ok(m)
  {
    hide GroupKey, Alphabet.Trim, Alphabet.Lower;
    if keys == [] {
      assert over == m;
    } else {
      var g := keys[0];
      assert g in keys && keys == [g] + keys[1..] && g !in keys[1..];
      TrimmedIsFixed(a, g);
      PlainWordIsFixed(a, m[g]);
      FreshKey(a, m, over, seen, g);
      CanonicalOverridesAreFixed(a, keys[1..], m, over[g := m[g]], seen[GroupKey(a, g) := g]);
    }
  }

  // ---- quality tiers -------------------------------------------------------------------

  function NormalTiers(a: Alphabet, tiers: seq<string>): seq<string> {
    if tiers == [] then []
    else
      var t := a.Trim(tiers[0]);
      (if t == "" then [] else [t]) + NormalTiers(a, tiers[1..])
  }

  method NormalizeQualityTiers(a: Alphabet, tiers: seq<string>) returns (out: seq<string>)
    ensures out == NormalTiers(a, tiers)
  {
    out := [];
    for i := 0 to |tiers|
      invariant NormalTiers(a, tiers) == out + NormalTiers(a, tiers[i..])
    {
      assert tiers[i..][1..] == tiers[i + 1..];
      var t := a.Trim(tiers[i]);
      if t != "" {
        out := out + [t];
      }
    }
  }

  ghost predicate CanonicalTiers(a: Alphabet, tiers: seq<string>) {
    forall i :: 0 <= i < |tiers| ==> tiers[i] != "" && Trimmed(a, tiers[i])
  }

  lemma {:induction false} NormalTiersAreCanonical(a: Alphabet, tiers: seq<string>)
    ensures CanonicalTiers(a, NormalTiers(a, tiers))
  {
    if tiers != [] {
      TrimIsTrimmed(a, tiers[0]);
      NormalTiersAreCanonical(a, tiers[1..]);
    }
  }

  lemma {:induction false} CanonicalTiersAreFixed(a: Alphabet, tiers: seq<string>)
    requires CanonicalTiers(a, tiers)
    ensures NormalTiers(a, tiers) == tiers
  {
    if tiers != [] {
      TrimmedIsFixed(a, tiers[0]);
      CanonicalTiersAreFixed(a, tiers[1..]);
    }
  }

  // ---- the whole source ------------------------------------------------------------------

  function NamedPatterns(s: Source): seq<(string, string)> {
    [ ("groupFilterRegex", s.groupFilterRegex),
      ("liveCategoryRegex", s.liveCategory),
      ("vodCategoryRegex", s.vodCategory),
      ("seriesCategoryRegex", s.seriesCategory),
      ("liveIncludeRegex", s.liveInclude),
      ("liveExcludeRegex", s.liveExclude),
      ("seriesIncludeRegex", s.seriesInclude),
      ("seriesExcludeRegex", s.seriesExclude),
      ("vodIncludeRegex", s.vodInclude),
      ("vodExcludeRegex", s.vodExclude) ]
  }

  /** The first pattern that is set and does not compile. */
  function FirstBad(e: Engine, ps: seq<(string, string)>): (r: Option<string>)
    ensures r.None? <==> forall i :: 0 <= i < |ps| ==> ps[i].1 == "" || e.compiles(ps[i].1)
  {
    if ps == [] then None
    else if ps[0].1 != "" && !e.compiles(ps[0].1) then Some(ps[0].0)
    else
      assert forall i :: 0 < i < |ps| ==> ps[i] == ps[1..][i - 1];
      FirstBad(e, ps[1..])
  }

  function FirstBadTier(e: Engine, tiers: seq<string>): (r: Option<string>)
    ensures r.None? <==> forall i :: 0 <= i < |tiers| ==> e.compiles(QualityTierPattern(tiers[i]))
  {
    if tiers == [] then None
    else if !e.compiles(QualityTierPattern(tiers[0])) then Some(tiers[0])
    else
      assert forall i :: 0 < i < |tiers| ==> tiers[i] == tiers[1..][i - 1];
      FirstBadTier(e, tiers[1..])
  }

  predicate IsMode(mode: string) {
    mode == MODE_OFF || mode == MODE_INCLUDE || mode == MODE_EXCLUDE
  }

  /** A source after a normalization run, finished or cut short by an error. */
  datatype Normal = Normal(source: Source, error: Option<FilterError>)

  /** The steps of NormalizeFilters: each rewrites one field, and the first
      error leaves the fields as they are at that point. */
  ghost function NormalRulesStep(e: Engine, s: Source): Normal {
    var s1 := s.(filterProfile := e.alphabet.Trim(s.filterProfile));
    match NormalDefault(e.alphabet, s1.filterDefault)
    case Err(error) => Normal(s1.(filterDefault := ""), Some(error))
    case Ok(d) =>
      var s2 := s1.(filterDefault := d);
      match NormalRules(e, s2.filterRules)
      case Err(error) => Normal(s2.(filterRules := []), Some(error))
      case Ok(rules) => Normal(s2.(filterRules := rules), None)
  }

  ghost function NormalGroupStep(e: Engine, s: Source): Normal {
    if !IsMode(s.groupFilterMode) then Normal(s, Some(BadMode))
    else
      var s1 := s.(groupFilterList := DedupeFrom(e.alphabet, s.groupFilterList, {}));
      if s1.groupFilterMode == MODE_INCLUDE && s1.groupFilterList == [] && s1.groupFilterRegex == "" then
        Normal(s1, Some(KeepsNothing))
      else Normal(s1, None)
  }

  ghost function NormalTypeStep(e: Engine, s: Source): Normal {
    match NormalTypes(e.alphabet, s.importTypes)
    case Err(error) => Normal(s, Some(error))
    case Ok(types) =>
      var s1 := s.(importTypes := types);
      match NormalOverrides(e.alphabet, s1.groupTypeOverrides)
      case Err(error) => Normal(s1, Some(error))
      case Ok(m) => Normal(s1.(groupTypeOverrides := m), None)
  }

  ghost function NormalPatternStep(e: Engine, s: Source): Normal {
    var s1 := s.(qualityTiers := NormalTiers(e.alphabet, s.qualityTiers));
    match FirstBadTier(e, s1.qualityTiers)
    case Some(tier) => Normal(s1, Some(BadTier(tier)))
    case None =>
      match FirstBad(e, NamedPatterns(s1))
      case Some(field) => Normal(s1, Some(BadRegex(field)))
      case None => Normal(s1, None)
  }

  ghost function Normalized(e: Engine, s: Source): Normal {
    var n1 := NormalRulesStep(e, s);
    if n1.error.Some? then n1 else
    var n2 := NormalGroupStep(e, n1.source);
    if n2.error.Some? then n2 else
    var n3 := NormalTypeStep(e, n2.source);
    if n3.error.Some? then n3 else
    NormalPatternStep(e, n3.source)
  }

  /** What a stored source looks like, said without running anything. */
  ghost predicate Canonical(e: Engine, s: Source) {
    CanonicalOwnRules(e, s) && CanonicalGroups(e, s) && CanonicalTypeGate(e, s) && CanonicalPatterns(e, s)
  }

  ghost predicate CanonicalOwnRules(e: Engine, s: Source) {
    && Trimmed(e.alphabet, s.filterProfile)
    && (s.filterDefault == "" || s.filterDefault == DEFAULT_DROP)
    && CanonicalRules(e, s.filterRules)
  }

  ghost predicate CanonicalGroups(e: Engine, s: Source) {
    && IsMode(s.groupFilterMode)
    && CanonicalLabels(e.alphabet, s.groupFilterList)
    && !(s.groupFilterMode == MODE_INCLUDE && s.groupFilterList == [] && s.groupFilterRegex == "")
  }

  ghost predicate CanonicalTypeGate(e: Engine, s: Source) {
    CanonicalTypes(s.importTypes) && CanonicalOverrides(e.alphabet, s.groupTypeOverrides)
  }

  ghost predicate CanonicalPatterns(e: Engine, s: Source) {
    && CanonicalTiers(e.alphabet, s.qualityTiers)
    && (forall i :: 0 <= i < |s.qualityTiers| ==> e.compiles(QualityTierPattern(s.qualityTiers[i])))
    && (forall i :: 0 <= i < |NamedPatterns(s)| ==> NamedPatterns(s)[i].1 == "" || e.compiles(NamedPatterns(s)[i].1))
  }

  lemma RulesStepIffFixed(e: Engine, s: Source)
    requires e.Lawful()
    ensures NormalRulesStep(e, s).error.None? ==> CanonicalOwnRules(e, NormalRulesStep(e, s).source)
    ensures CanonicalOwnRules(e, s) ==> NormalRulesStep(e, s) == Normal(s, None)
  {
    hide Alphabet.Trim, Alphabet.Lower, RulePattern, Trimmed, NormalRulesFrom;
    TrimIsTrimmed(e.alphabet, s.filterProfile);
    if NormalRulesStep(e, s).error.None? {
      NormalRulesAreCanonical(e, s.filterRules, 0);
    }
    if CanonicalOwnRules(e, s) {
      TrimmedIsFixed(e.alphabet, s.filterProfile);
      PlainWordIsFixed(e.alphabet, s.filterDefault);
      CanonicalRulesAreFixed(e, s.filterRules, 0);
      assert s.filterRules[0..] == s.filterRules;
    }
  }

  lemma GroupStepIffFixed(e: Engine, s: Source)
    requires e.Lawful()
    ensures NormalGroupStep(e, s).error.None? ==> CanonicalGroups(e, NormalGroupStep(e, s).source)
    ensures CanonicalGroups(e, s) ==> NormalGroupStep(e, s) == Normal(s, None)
  {
    DedupeKeepsEveryGroup(e.alphabet, s.groupFilterList, {});
    if CanonicalGroups(e, s) {
      CanonicalLabelsAreFixed(e.alphabet, s.groupFilterList, {});
    }
  }

  lemma TypesIffFixed(a: Alphabet, values: seq<string>)
    requires a.Lawful()
    ensures NormalTypes(a, values).Ok? ==> CanonicalTypes(NormalTypes(a, values).value)
    ensures CanonicalTypes(values) ==> NormalTypes(a, values) == Ok(values)
  {
    if NormalTypes(a, values).Ok? {
      NormalTypesAreDistinct(a, values, {});
    }
    if CanonicalTypes(values) {
      DistinctTypesAreFixed(a, values, {});
    }
  }

  lemma NothingKeptYet(a: Alphabet)
    ensures KeptLabels(a, map[], map[])
  {
  }

  lemma OverridesIffFixed(a: Alphabet, m: map<string, string>)
    requires a.Lawful()
    ensures NormalOverrides(a, m).Ok? ==> CanonicalOverrides(a, NormalOverrides(a, m).value)
    ensures CanonicalOverrides(a, m) ==> NormalOverrides(a, m) == Ok(m)
  {
    hide NormalOverridesFrom, CanonicalOverrides, SortedSet, GroupKey;
    var keys := SortedSet(m.Keys);
    NothingKeptYet(a);
    if NormalOverrides(a, m).Ok? {
      NormalOverridesAreCanonical(a, keys, m, map[], map[]);
    }
    if CanonicalOverrides(a, m) {
      CanonicalOverridesAreFixed(a, keys, m, map[], map[]);
    }
  }

  lemma TypeStepIffFixed(e: Engine, s: Source)
    requires e.Lawful()
    ensures NormalTypeStep(e, s).error.None? ==> CanonicalTypeGate(e, NormalTypeStep(e, s).source)
    ensures CanonicalTypeGate(e, s) ==> NormalTypeStep(e, s) == Normal(s, None)
  {
    TypesIffFixed(e.alphabet, s.importTypes);
    OverridesIffFixed(e.alphabet, s.groupTypeOverrides);
  }

  lemma PatternStepIffFixed(e: Engine, s: Source)
    requires e.Lawful()
    ensures NormalPatternStep(e, s).error.None? ==> CanonicalPatterns(e, NormalPatternStep(e, s).source)
    ensures CanonicalPatterns(e, s) ==> NormalPatternStep(e, s) == Normal(s, None)
  {
    NormalTiersAreCanonical(e.alphabet, s.qualityTiers);
    if CanonicalPatterns(e, s) {
      CanonicalTiersAreFixed(e.alphabet, s.qualityTiers);
    }
  }

  /** A successful normalization leaves a canonical source. */
  lemma NormalizedIsCanonical(e: Engine, s: Source)
    requires e.Lawful() && Normalized(e, s).error.None?
    ensures Canonical(e, Normalized(e, s).source)
  {
    hide NormalRules, NormalTypes, NormalOverrides, NormalTiers, DedupeFrom, NormalDefault, Trimmed,
      CanonicalRules, CanonicalLabels, CanonicalTypes, CanonicalOverrides, CanonicalTiers;
    var n1 := NormalRulesStep(e, s);
    RulesStepIffFixed(e, s);
    var n2 := NormalGroupStep(e, n1.source);
    GroupStepIffFixed(e, n1.source);
    var n3 := NormalTypeStep(e, n2.source);
    TypeStepIffFixed(e, n2.source);
    PatternStepIffFixed(e, n3.source);
  }

  /** Exactly the canonical sources come through unchanged and unrefused. */
  lemma CanonicalIffFixed(e: Engine, s: Source)
    requires e.Lawful()
    ensures Canonical(e, s) <==> Normalized(e, s) == Normal(s, None)
  {
    if Normalized(e, s) == Normal(s, None) {
      NormalizedIsCanonical(e, s);
    }
    if Canonical(e, s) {
      RulesStepIffFixed(e, s);
      GroupStepIffFixed(e, s);
      TypeStepIffFixed(e, s);
      PatternStepIffFixed(e, s);
    }
  }

  /** A second run succeeds and changes nothing. */
  lemma NormalizingTwice(e: Engine, s: Source)
    requires e.Lawful() && Normalized(e, s).error.None?
    ensures Normalized(e, Normalized(e, s).source) == Normalized(e, s)
  {
    NormalizedIsCanonical(e, s);
    CanonicalIffFixed(e, Normalized(e, s).source);
  }

  // ---- the default in force --------------------------------------------------------------

  /** What the operator's words say: the source's own default as typed, else that
      of the profile it names, else keep. */
  function DefaultAsTyped(a: Alphabet, cfg: Config, s: Source): string {
    var own := a.Lower(a.Trim(s.filterDefault));
    if own != "" then own
    else match ProfileOf(cfg, s.(filterProfile := a.Trim(s.filterProfile)))
      case Some(p) => if p.fallback != "" then p.fallback else DEFAULT_KEEP
      case None => DEFAULT_KEEP
  }

  /** The profile the source names has a default of its own that is not keep. */
  predicate ProfileOverrides(a: Alphabet, cfg: Config, s: Source) {
    var p := ProfileOf(cfg, s.(filterProfile := a.Trim(s.filterProfile)));
    p.Some? && p.value.fallback != "" && p.value.fallback != DEFAULT_KEEP
  }

  /** Tidying keeps the default in force exactly when it is not a keep that the
      profile's own default then replaces: keep is stored as empty. */
  lemma DefaultSurvivesTidyingIff(e: Engine, cfg: Config, s: Source)
    requires NormalDefault(e.alphabet, s.filterDefault).Ok?
    ensures EffectiveDefault(cfg, Normalized(e, s).source) == DefaultAsTyped(e.alphabet, cfg, s)
            <==> !(DefaultAsTyped(e.alphabet, cfg, s) == DEFAULT_KEEP && ProfileOverrides(e.alphabet, cfg, s))
  {
    hide NormalRulesStep, NormalGroupStep, NormalTypeStep, NormalPatternStep, FilterProfileByName;
    OwnDefaultTidied(e, s);
  }

  lemma OwnDefaultTidied(e: Engine, s: Source)
    requires NormalDefault(e.alphabet, s.filterDefault).Ok?
    ensures Normalized(e, s).source.filterProfile == e.alphabet.Trim(s.filterProfile)
    ensures Normalized(e, s).source.filterDefault == NormalDefault(e.alphabet, s.filterDefault).value
  {
    hide NormalRules, DedupeFrom, NormalTypes, NormalOverrides, NormalTiers, FirstBad, FirstBadTier, NamedPatterns, NormalDefault;
  }

  /** The case where it does not: a source that says keep, under a profile that
      says drop. */
  lemma KeepTurnsIntoDrop(e: Engine, s: Source, p: FilterProfile)
    requires e.Lawful() && s.filterDefault == "keep" && s.filterProfile == "p" && p.name == "p" && p.fallback == DEFAULT_DROP
    ensures EffectiveDefault(Config([p]), s) == DEFAULT_KEEP
    ensures EffectiveDefault(Config([p]), Normalized(e, s).source) == DEFAULT_DROP
  {
    PlainWordIsFixed(e.alphabet, "keep");
    PlainWordIsFixed(e.alphabet, "p");
    OwnDefaultTidied(e, s);
    hide Normalized;
  }

  /** A configured source, whose filters are tidied in place. */
  class SourceConfig {
    const name: string
    const url: string
    const groupFilterMode: string
    const groupFilterRegex: string
    const qualityDedupe: bool
    const liveCategory: string
    const vodCategory: string
    const seriesCategory: string
    const liveInclude: string
    const liveExclude: string
    const seriesInclude: string
    const seriesExclude: string
    const vodInclude: string
    const vodExclude: string
    var filterProfile: string
    var filterRules: seq<FilterRule>
    var filterDefault: string
    var groupFilterList: seq<string>
    var importTypes: seq<string>
    var groupTypeOverrides: map<string, string>
    var qualityTiers: seq<string>

    constructor (s: Source)
      ensures View() == s
    {
      name, url := s.name, s.url;
      filterProfile, filterRules, filterDefault := s.filterProfile, s.filterRules, s.filterDefault;
      groupFilterMode, groupFilterList, groupFilterRegex := s.groupFilterMode, s.groupFilterList, s.groupFilterRegex;
      importTypes, groupTypeOverrides := s.importTypes, s.groupTypeOverrides;
      qualityDedupe, qualityTiers := s.qualityDedupe, s.qualityTiers;
      liveCategory, vodCategory, seriesCategory := s.liveCategory, s.vodCategory, s.seriesCategory;
      liveInclude, liveExclude := s.liveInclude, s.liveExclude;
      seriesInclude, seriesExclude := s.seriesInclude, s.seriesExclude;
      vodInclude, vodExclude := s.vodInclude, s.vodExclude;
    }

    function View(): Source
      reads this
    {
      Source(name, url, filterProfile, filterRules, filterDefault,
             groupFilterMode, groupFilterList, groupFilterRegex,
             importTypes, groupTypeOverrides, qualityDedupe, qualityTiers,
             liveCategory, vodCategory, seriesCategory,
             liveInclude, liveExclude, seriesInclude, seriesExclude, vodInclude, vodExclude)
    }

    /** Rewrites the fields in turn and stops at the first value the import
        could not honour; a default or a rule list that is refused is blanked. */
    method NormalizeFilters(e: Engine) returns (error: Option<FilterError>)
      modifies this
      ensures Normal(View(), error) == Normalized(e, old(View()))
    {
      filterProfile := e.alphabet.Trim(filterProfile);
      var fallback := NormalDefault(e.alphabet, filterDefault);
      if fallback.Err? {
        filterDefault := "";
        return Some(fallback.error);
      }
      filterDefault := fallback.value;
      var rules := NormalizeRules(e, filterRules);
      if rules.Err? {
        filterRules := [];
        return Some(rules.error);
      }
      filterRules := rules.value;
      error := NormalizeGroups(e);
      if error.Some? {
        return;
      }
      error := NormalizeTypeGate(e);
      if error.Some? {
        return;
      }
      error := NormalizePatterns(e);
    }

    method NormalizeGroups(e: Engine) returns (error: Option<FilterError>)
      modifies this
      ensures Normal(View(), error) == NormalGroupStep(e, old(View()))
    {
      if !IsMode(groupFilterMode) {
        return Some(BadMode);
      }
      groupFilterList := DedupeGroups(e.alphabet, groupFilterList);
      if groupFilterMode == MODE_INCLUDE && |groupFilterList| == 0 && groupFilterRegex == "" {
        return Some(KeepsNothing);
      }
      return None;
    }

    method NormalizeTypeGate(e: Engine) returns (error: Option<FilterError>)
      modifies this
      ensures Normal(View(), error) == NormalTypeStep(e, old(View()))
    {
      var types := NormalizeTypes(e.alphabet, importTypes);
      if types.Err? {
        return Some(types.error);
      }
      importTypes := types.value;
      var overrides := NormalizeOverrides(e.alphabet, groupTypeOverrides);
      if overrides.Err? {
        return Some(overrides.error);
      }
      groupTypeOverrides := overrides.value;
      return None;
    }

    method NormalizePatterns(e: Engine) returns (error: Option<FilterError>)
      modifies this
      ensures Normal(View(), error) == NormalPatternStep(e, old(View()))
    {
      qualityTiers := NormalizeQualityTiers(e.alphabet, qualityTiers);
      for i := 0 to |qualityTiers|
        invariant View() == old(View()).(qualityTiers := NormalTiers(e.alphabet, old(qualityTiers)))
        invariant FirstBadTier(e, qualityTiers) == FirstBadTier(e, qualityTiers[i..])
      {
        if !e.compiles(QualityTierPattern(qualityTiers[i])) {
          return Some(BadTier(qualityTiers[i]));
        }
        assert qualityTiers[i..][1..] == qualityTiers[i + 1..];
      }
      var patterns := NamedPatterns(View());
      for i := 0 to |patterns|
        invariant View() == old(View()).(qualityTiers := NormalTiers(e.alphabet, old(qualityTiers)))
        invariant FirstBad(e, patterns) == FirstBad(e, patterns[i..])
      {
        var (field, pattern) := patterns[i];
        if pattern != "" && !e.compiles(pattern) {
          return Some(BadRegex(field));
        }
        assert patterns[i..][1..] == patterns[i + 1..];
      }
      return None;
    }
  }
}
