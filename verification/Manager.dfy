/** Compiling a source's filters, and the cache of compiled filters. */
module Manager {
  import opened Text
  import opened Sorting
  import opened Config
  import opened Stages
  import opened Signatures
  import opened Normalize

  // ---- compiling ---------------------------------------------------------------------

  /** No pattern, and one that does not compile, both mean no filter. */
  function CompilePattern(e: Engine, pattern: string): Option<string> {
    if pattern == "" || !e.compiles(pattern) then None else Some(pattern)
  }

  function CompiledOf(rule: FilterRule, origin: string): CompiledRule {
    CompiledRule(rule.field, rule.action == ACTION_INCLUDE, RulePattern(rule.pattern), origin, rule)
  }

  /** The rules that compile, in order, each with its origin. */
  function CompiledRules(e: Engine, rules: seq<FilterRule>, origins: seq<string>): seq<CompiledRule>
    requires |origins| == |rules|
  {
    if rules == [] then []
    else
      var n := |rules| - 1;
      CompiledRules(e, rules[..n], origins[..n])
      + (if e.compiles(RulePattern(rules[n].pattern)) then [CompiledOf(rules[n], origins[n])] else [])
  }

  method CompileRules(e: Engine, rules: seq<FilterRule>, origins: seq<string>) returns (compiled: seq<CompiledRule>)
    requires |origins| == |rules|
    ensures compiled == CompiledRules(e, rules, origins)
  {
    compiled := [];
    for i := 0 to |rules|
      invariant compiled == CompiledRules(e, rules[..i], origins[..i])
    {
      assert rules[..i + 1][..i] == rules[..i] && origins[..i + 1][..i] == origins[..i];
      if e.compiles(RulePattern(rules[i].pattern)) {
        compiled := compiled + [CompiledOf(rules[i], origins[i])];
      }
    }
    assert rules[..|rules|] == rules && origins[..|rules|] == origins;
  }

  /** The forced type per group key, the labels visited in the given order: a
      later label of the same group overwrites an earlier one. */
  function GroupTypesIn(a: Alphabet, labels: seq<string>, m: map<string, string>): map<string, string>
    requires forall g :: g in labels ==> g in m
  {
    if labels == [] then map[]
    else
      var n := |labels| - 1;
      GroupTypesIn(a, labels[..n], m)[GroupKey(a, labels[n]) := m[labels[n]]]
  }

  method CompileGroupTypes(a: Alphabet, m: map<string, string>) returns (r: map<string, string>)
    ensures r == GroupTypesIn(a, SortedSet(m.Keys), m)
  {
    hide GroupKey, SortedSet;
    var labels := SortedStrings(m.Keys);
    r := map[];
    for i := 0 to |labels|
      invariant r == GroupTypesIn(a, labels[..i], m)
    {
      assert labels[..i + 1][..i] == labels[..i];
      r := r[GroupKey(a, labels[i]) := m[labels[i]]];
    }
    assert labels[..|labels|] == labels;
  }

  /** What the map says, whatever the labels: a group's type is that of the last
      label visited under its key. */
  lemma {:induction false} LastLabelWins(a: Alphabet, labels: seq<string>, m: map<string, string>, key: string)
    requires forall g :: g in labels ==> g in m
    ensures var r := GroupTypesIn(a, labels, m);
            && (key in r <==> exists i :: 0 <= i < |labels| && GroupKey(a, labels[i]) == key)
            && (key in r ==> exists i :: 0 <= i < |labels| && GroupKey(a, labels[i]) == key && r[key] == m[labels[i]]
                                         && forall j :: i < j < |labels| ==> GroupKey(a, labels[j]) != key)
  {
    hide GroupKey;
    if labels != [] {
      var n := |labels| - 1;
      LastLabelWins(a, labels[..n], m, key);
      assert forall i :: 0 <= i < n ==> labels[..n][i] == labels[i];
      if GroupKey(a, labels[n]) != key && key in GroupTypesIn(a, labels, m) {
        var i :| 0 <= i < n && GroupKey(a, labels[..n][i]) == key && GroupTypesIn(a, labels[..n], m)[key] == m[labels[..n][i]]
          && forall j :: i < j < n ==> GroupKey(a, labels[..n][j]) != key;
        assert GroupKey(a, labels[i]) == key;
      }
    }
  }

  /** Where no two labels share a key, as in every normalized source, the order
      they are visited in does not show. */
  lemma GroupTypesOrderFree(a: Alphabet, xs: seq<string>, ys: seq<string>, m: map<string, string>)
    requires DistinctUnderKey(a, m)
    requires (forall g :: g in xs <==> g in m) && (forall g :: g in ys <==> g in m)
    ensures GroupTypesIn(a, xs, m) == GroupTypesIn(a, ys, m)
  {
    hide GroupKey;
    var p, q := GroupTypesIn(a, xs, m), GroupTypesIn(a, ys, m);
    forall k
      ensures k in p <==> k in q
      ensures k in p ==> p[k] == q[k]
    {
      LastLabelWins(a, xs, m, k);
      LastLabelWins(a, ys, m, k);
      if k in p {
        var i :| 0 <= i < |xs| && GroupKey(a, xs[i]) == k && p[k] == m[xs[i]];
        assert xs[i] in xs;
        assert xs[i] in ys;
        var l :| 0 <= l < |ys| && ys[l] == xs[i];
      }
      if k in q {
        var j :| 0 <= j < |ys| && GroupKey(a, ys[j]) == k && q[k] == m[ys[j]];
        assert ys[j] in ys;
        assert ys[j] in xs;
        var l :| 0 <= l < |xs| && xs[l] == ys[j];
      }
    }
  }

  function CompiledTiers(e: Engine, tiers: seq<string>): seq<string> {
    if tiers == [] then []
    else
      var n := |tiers| - 1;
      CompiledTiers(e, tiers[..n])
      + (if e.compiles(QualityTierPattern(tiers[n])) then [QualityTierPattern(tiers[n])] else [])
  }

  /** The tiers of a source whose quality stage is on: its own, or the defaults. */
  function TiersOf(s: Source): seq<string> {
    if !s.qualityDedupe then [] else if s.qualityTiers == [] then DEFAULT_QUALITY_TIERS else s.qualityTiers
  }

  method CompileTiers(e: Engine, tiers: seq<string>) returns (r: seq<string>)
    ensures r == CompiledTiers(e, tiers)
  {
    hide QualityTierPattern;
    r := [];
    for i := 0 to |tiers|
      invariant r == CompiledTiers(e, tiers[..i])
    {
      assert tiers[..i + 1][..i] == tiers[..i];
      if e.compiles(QualityTierPattern(tiers[i])) {
        r := r + [QualityTierPattern(tiers[i])];
      }
    }
    assert tiers[..|tiers|] == tiers;
  }

  ghost function GroupSetOf(a: Alphabet, groups: seq<string>): set<string> {
    set g | g in groups :: GroupKey(a, g)
  }

  ghost function TypeGateOf(types: seq<string>): Option<set<string>> {
    if types == [] then None else Some(set t | t in types)
  }

  /** A source and its resolved rules, compiled. */
  ghost function Compiled(e: Engine, s: Source, rs: RuleSet): CompiledFilter
    requires |rs.origins| == |rs.rules|
  {
    CompiledFilter(
      CompiledRules(e, rs.rules, rs.origins),
      rs.fallback,
      s.groupFilterMode,
      GroupSetOf(e.alphabet, s.groupFilterList),
      CompilePattern(e, s.groupFilterRegex),
      TypeGateOf(s.importTypes),
      GroupTypesIn(e.alphabet, SortedSet(s.groupTypeOverrides.Keys), s.groupTypeOverrides),
      CompilePattern(e, s.liveCategory),
      CompilePattern(e, s.vodCategory),
      CompilePattern(e, s.seriesCategory),
      CompilePattern(e, s.liveInclude),
      CompilePattern(e, s.liveExclude),
      CompilePattern(e, s.seriesInclude),
      CompilePattern(e, s.seriesExclude),
      CompilePattern(e, s.vodInclude),
      CompilePattern(e, s.vodExclude),
      CompiledTiers(e, TiersOf(s)),
      Signature(s, rs))
  }

  method CompileGroupSet(a: Alphabet, groups: seq<string>) returns (r: set<string>)
    ensures r == GroupSetOf(a, groups)
  {
    hide GroupKey;
    r := {};
    for i := 0 to |groups|
      invariant r == GroupSetOf(a, groups[..i])
    {
      assert forall g :: g in groups[..i + 1] <==> g in groups[..i] || g == groups[i];
      r := r + {GroupKey(a, groups[i])};
    }
    assert groups[..|groups|] == groups;
  }

  method CompileTypeGate(types: seq<string>) returns (r: Option<set<string>>)
    ensures r == TypeGateOf(types)
  {
    if |types| == 0 {
      return None;
    }
    var gate: set<string> := {};
    for i := 0 to |types|
      invariant gate == set t | t in types[..i]
    {
      assert forall t :: t in types[..i + 1] <==> t in types[..i] || t == types[i];
      gate := gate + {types[i]};
    }
    assert types[..|types|] == types;
    return Some(gate);
  }

  method Compile(e: Engine, s: Source, rs: RuleSet, signature: string) returns (f: CompiledFilter)
    requires |rs.origins| == |rs.rules| && signature == Signature(s, rs)
    ensures f == Compiled(e, s, rs)
  {
    hide CompiledRules, GroupSetOf, TypeGateOf, GroupTypesIn, SortedSet, CompiledTiers, Signature;
    var rules := CompileRules(e, rs.rules, rs.origins);
    var groupSet := CompileGroupSet(e.alphabet, s.groupFilterList);
    var importTypes := CompileTypeGate(s.importTypes);
    var groupTypes := CompileGroupTypes(e.alphabet, s.groupTypeOverrides);
    var tiers := CompileTiers(e, TiersOf(s));
    f := CompiledFilter(
      rules, rs.fallback, s.groupFilterMode, groupSet, CompilePattern(e, s.groupFilterRegex), importTypes, groupTypes,
      CompilePattern(e, s.liveCategory), CompilePattern(e, s.vodCategory), CompilePattern(e, s.seriesCategory),
      CompilePattern(e, s.liveInclude), CompilePattern(e, s.liveExclude),
      CompilePattern(e, s.seriesInclude), CompilePattern(e, s.seriesExclude),
      CompilePattern(e, s.vodInclude), CompilePattern(e, s.vodExclude),
      tiers, signature);
  }

  // ---- the cache ------------------------------------------------------------------------

  type Cache = map<string, CompiledFilter>

  /** One lookup: the cached filter of the source's address when its signature
      still fits, a fresh one otherwise. */
  ghost function Serve(e: Engine, cache: Cache, s: Source, cfg: Option<Config>): (Cache, CompiledFilter) {
    var rs := ResolvedRules(s, cfg);
    if s.url in cache && cache[s.url].signature == Signature(s, rs) then (cache, cache[s.url])
    else (cache[s.url := Compiled(e, s, rs)], Compiled(e, s, rs))
  }

  class FilterManager {
    var filters: map<string, CompiledFilter>

    constructor ()
      ensures filters == map[]
    {
      filters := map[];
    }

    method GetOrCreateFilter(e: Engine, s: Source, cfg: Option<Config>) returns (f: CompiledFilter)
      modifies this
      ensures (filters, f) == Serve(e, old(filters), s, cfg)
    {
      hide Compiled, Signature;
      var rs := ResolveRules(s, cfg);
      var signature := FilterSignature(s, rs);
      if s.url in filters {
        if filters[s.url].signature == signature {
          return filters[s.url];
        }
        filters := filters - {s.url};
      }
      f := Compile(e, s, rs, signature);
      filters := filters[s.url := f];
      assert filters == old(filters)[s.url := f];
    }

    method ClearFilters()
      modifies this
      ensures filters == map[]
    {
      filters := map[];
    }

    method RemoveFilter(url: string)
      modifies this
      ensures filters == old(filters) - {url}
    {
      filters := filters - {url};
    }
  }

  // ---- what a signature guarantees ----------------------------------------------------------

  /** Every stage answers alike on every stream. */
  ghost predicate Alike(e: Engine, f: CompiledFilter, g: CompiledFilter) {
    && f.qualityTiers == g.qualityTiers
    && forall it: Item :: SameStages(e, f, g, it)
  }

  ghost predicate SameStages(e: Engine, f: CompiledFilter, g: CompiledFilter, it: Item) {
    && FirstMatch(e, f.rules, it) == FirstMatch(e, g.rules, it)
    && (RulesKeep(e, f, it) <==> RulesKeep(e, g, it))
    && TypeOf(e, f, it) == TypeOf(e, g, it)
    && (PassesGroup(e, f, it) <==> PassesGroup(e, g, it))
    && (PassesType(e, f, it) <==> PassesType(e, g, it))
    && (PassesPatterns(e, f, it) <==> PassesPatterns(e, g, it))
  }

  /** Compiled rules that differ in their notes at most. */
  ghost predicate SameCompiledRules(f: seq<CompiledRule>, g: seq<CompiledRule>) {
    && |f| == |g|
    && forall i :: 0 <= i < |f| ==>
         f[i].field == g[i].field && f[i].includes == g[i].includes && f[i].pattern == g[i].pattern
         && f[i].origin == g[i].origin
  }

  lemma {:induction false} SameRulesCompileAlike(e: Engine, r: RuleSet, q: RuleSet)
    requires |r.origins| == |r.rules| && |q.origins| == |q.rules| && SameRules(r, q)
    ensures SameCompiledRules(CompiledRules(e, r.rules, r.origins), CompiledRules(e, q.rules, q.origins))
    decreases |r.rules|
  {
    hide RulePattern;
    if r.rules != [] {
      var n := |r.rules| - 1;
      SameRulesCompileAlike(e, RuleSet(r.rules[..n], r.origins[..n], r.fallback), RuleSet(q.rules[..n], q.origins[..n], q.fallback));
    }
  }

  lemma SameRulesSameMatch(e: Engine, f: seq<CompiledRule>, g: seq<CompiledRule>, it: Item)
    requires SameCompiledRules(f, g)
    ensures FirstMatch(e, f, it) == FirstMatch(e, g, it)
  {
    hide GroupOf;
    assert forall i :: 0 <= i < |f| ==> RuleMatches(e, f[i], it) == RuleMatches(e, g[i], it);
  }

  /** A blank key belongs to the blank label only. */
  lemma BlankKey(a: Alphabet, it: Item)
    requires a.Lawful()
    ensures GroupKeyOf(a, it) == "" <==> GroupOf(a, it) == ""
  {
    var name := GroupOf(a, it);
    TrimIsTrimmed(a, Attribute(it.attributes, GROUP_TITLE));
    TrimIsTrimmed(a, Attribute(it.attributes, TVG_GROUP));
    if name != "" {
      var s := a.Lower(name);
      assert !a.space(s[0]);
      FieldsAreWords(a, s);
      assert a.Fields(s) != [];
    }
  }

  /** The operator's "(no group)" entry changes nothing: the group stage is off,
      or its pattern matches the blank label anyway. */
  ghost predicate BlankEntryHarmless(e: Engine, s: Source) {
    || s.groupFilterMode == MODE_OFF
    || (CompilePattern(e, s.groupFilterRegex).Some? && e.matches(s.groupFilterRegex, ""))
  }

  /** Neither list holds just one blank entry; no normalized source has one. */
  ghost predicate NoBlankLists(s: Source) {
    s.importTypes != [""] && s.qualityTiers != [""]
  }

  lemma CanonicalHasNoBlankLists(e: Engine, s: Source)
    requires Canonical(e, s)
    ensures NoBlankLists(s)
  {
    assert [""][0] == "" && "" in [""];
  }

  /** Two sources alike in everything but the spelling of an empty selection. */
  ghost predicate SameButSelection(f: CompiledFilter, g: CompiledFilter) {
    SameButLists(f, g) && f.importTypes == g.importTypes && f.qualityTiers == g.qualityTiers
  }

  /** Alike in everything but the spelling of empty lists. */
  ghost predicate SameButLists(f: CompiledFilter, g: CompiledFilter) {
    && SameCompiledRules(f.rules, g.rules)
    && g == f.(rules := g.rules, groupSet := g.groupSet, importTypes := g.importTypes, qualityTiers := g.qualityTiers)
  }

  /** What equal signatures leave open: each list may be empty in one source and
      one blank entry in the other. */
  ghost predicate SameLists(s: Source, t: Source) {
    && SameList(s.groupFilterList, t.groupFilterList) && SameList(s.importTypes, t.importTypes)
    && SameList(s.qualityTiers, t.qualityTiers)
    && s.groupFilterMode == t.groupFilterMode && s.groupFilterRegex == t.groupFilterRegex
    && s.qualityDedupe == t.qualityDedupe
  }

  lemma SameSignatureCompiles(e: Engine, s: Source, rs: RuleSet, t: Source, qs: RuleSet)
    requires Separable(s, rs) && Separable(t, qs)
    requires Signature(s, rs) == Signature(t, qs)
    ensures SameButLists(Compiled(e, s, rs), Compiled(e, t, qs)) && SameLists(s, t)
    ensures NoBlankLists(s) && NoBlankLists(t) ==> SameButSelection(Compiled(e, s, rs), Compiled(e, t, qs))
  {
    assert RulesSeparable(rs) && RulesSeparable(qs);
    hide CompiledRules, GroupTypesIn, SortedSet, CompiledTiers, Signature, GroupSetOf, CompilePattern, Separable;
    SignatureDetermines(s, rs, t, qs);
    SameRulesCompileAlike(e, rs, qs);
    assert PatternsOf(s)[0] == PatternsOf(t)[0] && PatternsOf(s)[1] == PatternsOf(t)[1] && PatternsOf(s)[2] == PatternsOf(t)[2];
    assert PatternsOf(s)[3] == PatternsOf(t)[3] && PatternsOf(s)[4] == PatternsOf(t)[4] && PatternsOf(s)[5] == PatternsOf(t)[5];
    assert PatternsOf(s)[6] == PatternsOf(t)[6] && PatternsOf(s)[7] == PatternsOf(t)[7] && PatternsOf(s)[8] == PatternsOf(t)[8];
  }

  lemma SelectionOnlyAlike(e: Engine, f: CompiledFilter, g: CompiledFilter, it: Item)
    requires SameButSelection(f, g)
    requires PassesGroup(e, f, it) <==> PassesGroup(e, g, it)
    ensures SameStages(e, f, g, it)
  {
    hide FirstMatch, AnyProbe, GroupKeyOf, ContentTypeOfStream, PassesGroup;
    SameRulesSameMatch(e, f.rules, g.rules, it);
    assert TypeOf(e, f, it) == TypeOf(e, g, it);
  }

  /** The group stage of two sources whose selections share their text. */
  lemma GroupStageAlike(e: Engine, s: Source, t: Source, f: CompiledFilter, g: CompiledFilter, it: Item)
    requires e.Lawful() && SameButLists(f, g) && SameList(s.groupFilterList, t.groupFilterList)
    requires f.groupMode == s.groupFilterMode && f.groupRegex == CompilePattern(e, s.groupFilterRegex)
    requires f.groupSet == GroupSetOf(e.alphabet, s.groupFilterList)
    requires g.groupSet == GroupSetOf(e.alphabet, t.groupFilterList)
    ensures s.groupFilterList == t.groupFilterList || BlankEntryHarmless(e, s)
            ==> (PassesGroup(e, f, it) <==> PassesGroup(e, g, it))
    ensures s.groupFilterList != t.groupFilterList && !BlankEntryHarmless(e, s) && GroupOf(e.alphabet, it) == ""
            ==> (PassesGroup(e, f, it) <==> !PassesGroup(e, g, it))
    ensures GroupOf(e.alphabet, it) != "" ==> (PassesGroup(e, f, it) <==> PassesGroup(e, g, it))
  {
    if s.groupFilterList != t.groupFilterList {
      BlankSelection(e.alphabet);
      hide GroupOf, GroupKeyOf, GroupKey, GroupSetOf;
      BlankKey(e.alphabet, it);
      assert GroupSubject(e.alphabet, "") == "";
    }
  }

  lemma BlankSelection(a: Alphabet)
    ensures GroupSetOf(a, []) == {} && GroupSetOf(a, [""]) == {""}
  {
    assert a.Lower("") == "";
    assert GroupKey(a, "") == "";
    assert [""][0] == "";
  }

  /** Filters with equal signatures answer alike stage by stage, on every stream
      there could be, exactly when the selections are equal or a blank entry in
      them is harmless. Verdicts can agree where stages do not, since no stage is
      asked about a stream an earlier one dropped. */
  lemma SameSignatureAlike(e: Engine, s: Source, rs: RuleSet, t: Source, qs: RuleSet)
    requires e.Lawful()
    requires Separable(s, rs) && Separable(t, qs) && NoBlankLists(s) && NoBlankLists(t)
    requires Signature(s, rs) == Signature(t, qs)
    ensures Alike(e, Compiled(e, s, rs), Compiled(e, t, qs))
            <==> s.groupFilterList == t.groupFilterList || BlankEntryHarmless(e, s)
  {
    var f, g := Compiled(e, s, rs), Compiled(e, t, qs);
    SameSignatureCompiles(e, s, rs, t, qs);
    hide CompiledRules, GroupTypesIn, SortedSet, CompiledTiers, Signature, GroupSetOf, CompilePattern, Separable, PassesGroup,
      BlankEntryHarmless;
    if s.groupFilterList == t.groupFilterList || BlankEntryHarmless(e, s) {
      forall it: Item
        ensures SameStages(e, f, g, it)
      {
        GroupStageAlike(e, s, t, f, g, it);
        SelectionOnlyAlike(e, f, g, it);
      }
    } else {
      var it := Item("", "", map[], "");
      assert GroupOf(e.alphabet, it) == "";
      GroupStageAlike(e, s, t, f, g, it);
      assert !SameStages(e, f, g, it);
    }
  }

  // ---- every run of the cache --------------------------------------------------------------------

  datatype Call = Get(source: Source, cfg: Option<Config>) | Clear | Remove(url: string)

  ghost function CacheAfter(e: Engine, calls: seq<Call>): Cache {
    if calls == [] then map[]
    else
      var n := |calls| - 1;
      var cache := CacheAfter(e, calls[..n]);
      match calls[n]
      case Get(s, cfg) => Serve(e, cache, s, cfg).0
      case Clear => map[]
      case Remove(url) => cache - {url}
  }

  /** The source, with its rules, that the cached filter of an address was
      compiled from. */
  ghost function Holder(calls: seq<Call>, url: string): Option<(Source, RuleSet)> {
    if calls == [] then None
    else
      var n := |calls| - 1;
      var before := Holder(calls[..n], url);
      match calls[n]
      case Get(s, cfg) =>
        if s.url == url && !Fits(before, s, ResolvedRules(s, cfg)) then Some((s, ResolvedRules(s, cfg))) else before
      case Clear => None
      case Remove(u) => if u == url then None else before
  }

  /** The filter of this holder is served again for that source. */
  ghost predicate Fits(holder: Option<(Source, RuleSet)>, s: Source, rs: RuleSet)
    requires |rs.origins| == |rs.rules|
  {
    && holder.Some? && |holder.value.1.origins| == |holder.value.1.rules|
    && Signature(holder.value.0, holder.value.1) == Signature(s, rs)
  }

  lemma CompiledSignature(e: Engine, s: Source, rs: RuleSet)
    requires |rs.origins| == |rs.rules|
    ensures Compiled(e, s, rs).signature == Signature(s, rs)
  {
  }

  lemma {:induction false} CacheHoldsHolder(e: Engine, calls: seq<Call>, url: string)
    ensures var h := Holder(calls, url);
            && (url in CacheAfter(e, calls) <==> h.Some?)
            && (h.Some? ==>
                  && |h.value.1.origins| == |h.value.1.rules|
                  && CacheAfter(e, calls)[url] == Compiled(e, h.value.0, h.value.1))
  {
    hide Compiled, Signature, ResolvedRules;
    if calls != [] {
      var n := |calls| - 1;
      CacheHoldsHolder(e, calls[..n], url);
      var h := Holder(calls[..n], url);
      if h.Some? {
        CompiledSignature(e, h.value.0, h.value.1);
      }
    }
  }

  /** What is served: the holder's filter when it fits, a fresh one otherwise. */
  lemma ServedFrom(e: Engine, calls: seq<Call>, s: Source, cfg: Option<Config>)
    ensures var h, rs := Holder(calls, s.url), ResolvedRules(s, cfg);
            Serve(e, CacheAfter(e, calls), s, cfg).1
            == if Fits(h, s, rs) then Compiled(e, h.value.0, h.value.1) else Compiled(e, s, rs)
  {
    hide Compiled, Signature, ResolvedRules;
    CacheHoldsHolder(e, calls, s.url);
    var h := Holder(calls, s.url);
    if h.Some? {
      CompiledSignature(e, h.value.0, h.value.1);
    }
  }

  /** A source filtered by nothing but one shared profile. */
  function FollowsProfile(name: string): Source {
    Source("tv", "http://tv", name, [], "", "", [], "", [], map[], false, [], "", "", "", "", "", "", "", "", "")
  }

  /** A name that says name but holds no x is dropped by the first rule only. */
  const LONG_RULE := FilterRule(FIELD_NAME, ACTION_EXCLUDE, "name|exclude|x", "")
  const SHORT_RULE := FilterRule(FIELD_NAME, ACTION_EXCLUDE, "x", "")

  const PLAIN_PROFILE := FilterProfile(1, "a", "", [LONG_RULE])
  const BAR_PROFILE := FilterProfile(2, "a|name|exclude", "", [SHORT_RULE])

  lemma FollowedRules(profiles: seq<FilterProfile>, p: FilterProfile)
    requires FilterProfileByName(profiles, p.name) == Some(p) && p.name != "" && p.fallback == "" && |p.rules| == 1
    ensures ResolvedRules(FollowsProfile(p.name), Some(Config(profiles))) == RuleSet(p.rules, ["profile:" + p.name], DEFAULT_KEEP)
  {
    assert p.rules + [] == p.rules;
    assert Repeat("profile:" + p.name, 1) + Repeat(ORIGIN_SOURCE, 0) == ["profile:" + p.name];
  }

  lemma SameText()
    ensures Signature(FollowsProfile("a"), RuleSet([LONG_RULE], ["profile:" + PLAIN_PROFILE.name], DEFAULT_KEEP))
            == Signature(FollowsProfile("a|name|exclude"), RuleSet([SHORT_RULE], ["profile:" + BAR_PROFILE.name], DEFAULT_KEEP))
  {
    var before, after := FollowsProfile("a"), FollowsProfile("a|name|exclude");
    var rs := RuleSet([LONG_RULE], ["profile:a"], DEFAULT_KEEP);
    hide Signature;
    BarCollision(after, "profile:a", SHORT_RULE, DEFAULT_KEEP);
    assert FIELD_NAME + "|" + ACTION_EXCLUDE == "name|exclude";
    assert "name|exclude" + "|" + "x" == LONG_RULE.pattern;
    assert "profile:a" + "|" + "name|exclude" == "profile:" + BAR_PROFILE.name;
    assert "profile:" + PLAIN_PROFILE.name == "profile:a";
    SameInputsSameSignature(before, rs, after, rs);
  }

  /** The other case the signature misses: a source moves from a profile to one
      whose name holds a bar, the old filter is served again and drops a stream
      that the new profile's rules keep. */
  lemma StaleProfile(e: Engine, it: Item)
    requires e.compiles(RulePattern("name|exclude|x")) && e.compiles(RulePattern("x"))
    requires it.name == "a name"
    requires e.matches(RulePattern("name|exclude|x"), "a name") && !e.matches(RulePattern("x"), "a name")
    ensures var cfg := Some(Config([PLAIN_PROFILE, BAR_PROFILE]));
            var before, after := FollowsProfile("a"), FollowsProfile("a|name|exclude");
            var served := Serve(e, CacheAfter(e, [Get(before, cfg)]), after, cfg).1;
            && !RulesKeep(e, served, it)
            && RulesKeep(e, Compiled(e, after, ResolvedRules(after, cfg)), it)
  {
    var profiles := [PLAIN_PROFILE, BAR_PROFILE];
    assert profiles[0] == PLAIN_PROFILE && profiles[1..] == [BAR_PROFILE];
    assert FilterProfileByName(profiles[1..], "a|name|exclude") == Some(BAR_PROFILE);
    FollowedRules(profiles, PLAIN_PROFILE);
    FollowedRules(profiles, BAR_PROFILE);
    hide Signature, FirstMatch, RuleMatches, RulePattern, ResolvedRules, FilterProfileByName, CompiledRules;
    SameText();
    var cfg := Some(Config(profiles));
    var before, after := FollowsProfile("a"), FollowsProfile("a|name|exclude");
    var calls := [Get(before, cfg)];
    OneRule(e, LONG_RULE, "profile:" + PLAIN_PROFILE.name, it);
    OneRule(e, SHORT_RULE, "profile:" + BAR_PROFILE.name, it);
    ServedFrom(e, calls, after, cfg);
    assert calls[..0] == [];
    assert Holder(calls[..0], after.url) == None;
    assert Holder(calls, after.url) == Some((before, ResolvedRules(before, cfg)));
  }

  /** A single rule on the name decides exactly what it matches. */
  lemma OneRule(e: Engine, rule: FilterRule, origin: string, it: Item)
    requires rule.field == FIELD_NAME && e.compiles(RulePattern(rule.pattern)) && it.name != ""
    ensures var rules := CompiledRules(e, [rule], [origin]);
            && |rules| == 1 && rules[0] == CompiledOf(rule, origin)
            && FirstMatch(e, rules, it) == if e.matches(RulePattern(rule.pattern), it.name) then 0 else -1
  {
    hide GroupOf, RulePattern;
    assert [rule][..0] == [] && [origin][..0] == [];
    assert CompiledRules(e, [rule][..0], [origin][..0]) == [];
    var rules := CompiledRules(e, [rule], [origin]);
    assert rules == [CompiledOf(rule, origin)];
    assert |FIELD_NAME| != |FIELD_GROUP| && |FIELD_NAME| != |FIELD_URL|;
    assert RuleMatches(e, rules[0], it) <==> e.matches(RulePattern(rule.pattern), it.name);
  }
}
