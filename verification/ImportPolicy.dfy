/** What an import does, in the operator's words: a condition on the source as it
    is stored, the rules it is filtered by and the stream, with nothing compiled.
    The compiled filter is proved to decide by it. */
module ImportPolicy {
  import opened Text
  import opened Sorting
  import opened Config
  import opened Stages
  import opened Quality
  import opened Manager
  import opened Pass
  import opened PassLaws
  import opened Signatures
  import CacheLaws

  // ---- what a stream shows ----------------------------------------------------------------------

  predicate ShownUnder(it: Item, attribute: string, value: string) {
    if attribute in it.attributes then it.attributes[attribute] == value else value == ""
  }

  /** The label the operator sees the stream under. */
  ghost predicate InGroup(a: Alphabet, it: Item, group: string) {
    exists title, other :: ShownUnder(it, "group-title", title) && ShownUnder(it, "tvg-group", other)
                           && group == if a.Trim(title) != "" then a.Trim(title) else a.Trim(other)
  }

  /** One of the values a pattern is tried on. */
  predicate Shows(it: Item, value: string) {
    value == it.name || value == it.url || ShownUnder(it, "group-title", value) || ShownUnder(it, "tvg-group", value)
  }

  /** The pattern is set, compiles, and hits one of the values, which are compared
      in lower case and trimmed, blank ones never. */
  ghost predicate Touches(e: Engine, pattern: string, it: Item) {
    && pattern != "" && e.compiles(pattern)
    && exists value :: Shows(it, value) && e.alphabet.Trim(e.alphabet.Lower(value)) != ""
                       && e.matches(pattern, e.alphabet.Trim(e.alphabet.Lower(value)))
  }

  lemma TouchesIsHits(e: Engine, pattern: string, it: Item)
    ensures Touches(e, pattern, it) <==> Hits(e, CompilePattern(e, pattern), it)
  {
    hide Alphabet.Trim, Alphabet.Lower;
    var title, other := Attribute(it.attributes, "group-title"), Attribute(it.attributes, "tvg-group");
    assert Shows(it, it.name) && Shows(it, it.url) && Shows(it, title) && Shows(it, other);
    assert forall v :: Shows(it, v) ==> v == it.name || v == it.url || v == title || v == other;
  }

  lemma LabelIsGroup(a: Alphabet, it: Item, group: string)
    ensures InGroup(a, it, group) <==> group == GroupOf(a, it)
  {
    hide Alphabet.Trim;
    var title, other := Attribute(it.attributes, "group-title"), Attribute(it.attributes, "tvg-group");
    assert ShownUnder(it, "group-title", title) && ShownUnder(it, "tvg-group", other);
  }

  // ---- the rules ------------------------------------------------------------------------------------

  predicate HitBy(e: Engine, pattern: string, value: string) {
    value != "" && e.compiles(pattern) && e.matches(pattern, value)
  }

  /** The rule matches the stream; it ignores case unless it opens with flags of
      its own. */
  ghost predicate RuleTouches(e: Engine, rule: FilterRule, it: Item, group: string) {
    var pattern := if "(?" <= rule.pattern then rule.pattern else "(?i)" + rule.pattern;
    if rule.field == "group" then HitBy(e, pattern, group)
    else if rule.field == "name" then HitBy(e, pattern, it.name)
    else if rule.field == "url" then HitBy(e, pattern, it.url)
    else HitBy(e, pattern, group) || HitBy(e, pattern, it.name) || HitBy(e, pattern, it.url)
  }

  /** The first rule that matches. */
  ghost predicate Decides(e: Engine, rules: seq<FilterRule>, it: Item, group: string, k: nat) {
    k < |rules| && RuleTouches(e, rules[k], it, group) && forall j :: 0 <= j < k ==> !RuleTouches(e, rules[j], it, group)
  }

  /** The first rule that matches lets the stream in or not; without one the
      default does. */
  ghost predicate LetInByRules(e: Engine, rules: seq<FilterRule>, fallback: string, it: Item, group: string) {
    || (exists k: nat :: Decides(e, rules, it, group, k) && rules[k].action == "include")
    || ((forall k :: 0 <= k < |rules| ==> !RuleTouches(e, rules[k], it, group)) && fallback != "drop")
  }

  lemma RuleTouchesIsMatch(e: Engine, rule: FilterRule, origin: string, it: Item)
    ensures RuleTouches(e, rule, it, GroupOf(e.alphabet, it))
            <==> e.compiles(RulePattern(rule.pattern)) && RuleMatches(e, CompiledOf(rule, origin), it)
  {
    hide GroupOf;
  }

  lemma {:induction false} FirstMatchOf(e: Engine, f: seq<CompiledRule>, r: CompiledRule, it: Item)
    ensures FirstMatch(e, f + [r], it)
            == if FirstMatch(e, f, it) >= 0 then FirstMatch(e, f, it) else if RuleMatches(e, r, it) then |f| else -1
  {
    hide RuleMatches;
    var g := f + [r];
    assert forall j :: 0 <= j < |f| ==> g[j] == f[j];
    assert g[|f|] == r;
  }

  /** The deciding rule of the compiled list is the first that matches. */
  lemma {:induction false} RulesDecide(e: Engine, rules: seq<FilterRule>, origins: seq<string>, it: Item) returns (k: nat)
    requires |origins| == |rules|
    ensures var f, group := CompiledRules(e, rules, origins), GroupOf(e.alphabet, it);
            var m := FirstMatch(e, f, it);
            && (m < 0 <==> forall j :: 0 <= j < |rules| ==> !RuleTouches(e, rules[j], it, group))
            && (m >= 0 ==> Decides(e, rules, it, group, k) && f[m] == CompiledOf(rules[k], origins[k]))
  {
    hide RuleTouches, RuleMatches, FirstMatch, GroupOf, RulePattern, CompiledOf;
    k := 0;
    if rules != [] {
      var n := |rules| - 1;
      k := RulesDecide(e, rules[..n], origins[..n], it);
      RuleTouchesIsMatch(e, rules[n], origins[n], it);
      FirstMatchOf(e, CompiledRules(e, rules[..n], origins[..n]), CompiledOf(rules[n], origins[n]), it);
      assert forall j :: 0 <= j < n ==> rules[..n][j] == rules[j];
      var f, before := CompiledRules(e, rules, origins), CompiledRules(e, rules[..n], origins[..n]);
      if e.compiles(RulePattern(rules[n].pattern)) {
        assert f == before + [CompiledOf(rules[n], origins[n])];
      } else {
        assert f == before;
      }
      if FirstMatch(e, before, it) < 0 {
        k := n;
      }
    }
  }

  lemma OneDecides(e: Engine, rules: seq<FilterRule>, it: Item, group: string, k: nat, l: nat)
    requires Decides(e, rules, it, group, k) && Decides(e, rules, it, group, l)
    ensures k == l
  {
    hide RuleTouches;
  }

  lemma RulesFollow(e: Engine, s: Source, rs: RuleSet, it: Item)
    requires |rs.origins| == |rs.rules|
    ensures RulesKeep(e, Compiled(e, s, rs), it)
            <==> LetInByRules(e, rs.rules, rs.fallback, it, GroupOf(e.alphabet, it))
  {
    hide RuleTouches, RuleMatches, FirstMatch, GroupOf, CompiledRules, GroupTypesIn, SortedSet, CompiledTiers, GroupSetOf,
      CompilePattern, Signature, RulePattern, Decides;
    var group := GroupOf(e.alphabet, it);
    var k := RulesDecide(e, rs.rules, rs.origins, it);
    forall l: nat | Decides(e, rs.rules, it, group, l) && Decides(e, rs.rules, it, group, k)
      ensures l == k
    {
      OneDecides(e, rs.rules, it, group, l, k);
    }
    DecidesTouches(e, rs.rules, it, group);
  }

  lemma DecidesTouches(e: Engine, rules: seq<FilterRule>, it: Item, group: string)
    ensures forall k: nat :: Decides(e, rules, it, group, k) ==> k < |rules| && RuleTouches(e, rules[k], it, group)
  {
    hide RuleTouches;
  }

  // ---- the type a stream is filtered as -----------------------------------------------------------

  predicate Holds(text: string, word: string) {
    exists i {:trigger text[i..]} :: 0 <= i <= |text| - |word| && text[i..][..|word|] == word
  }

  lemma HoldsIsContains(text: string, word: string)
    ensures Holds(text, word) <==> Contains(text, word)
  {
    if Holds(text, word) {
      var i :| 0 <= i <= |text| - |word| && text[i..][..|word|] == word;
      assert word <= text[i..];
    }
    if Contains(text, word) {
      var i :| 0 <= i <= |text| && word <= text[i..];
      assert text[i..][..|word|] == word;
    }
  }

  /** What a group label says of the type: series before film before live. */
  ghost predicate LabelSays(a: Alphabet, value: string, t: string) {
    var w := a.Lower(value);
    var series, film, live := Holds(w, "series"), Holds(w, "vod") || Holds(w, "movie"), Holds(w, "live") || Holds(w, "tv");
    (t == "series" && series) || (t == "vod" && !series && film) || (t == "live" && !series && !film && live)
  }

  /** The type the importer gives the stream: the one it carries; vod by the
      address or the name; what group-title says, else tvg-group; else live. */
  ghost predicate ImportedAs(e: Engine, it: Item, t: string) {
    var film := "(?i)\\/vods\\/|\\/vod\\/|\\/movies\\/|\\/movie\\/";
    if it.stamp in {"live", "vod", "series"} then t == it.stamp
    else if e.matches(film, it.name) || e.matches(film, it.url) then t == "vod"
    else
      exists title, other :: ShownUnder(it, "group-title", title) && ShownUnder(it, "tvg-group", other) && (
        || LabelSays(e.alphabet, title, t)
        || ((forall u :: !LabelSays(e.alphabet, title, u)) && LabelSays(e.alphabet, other, t))
        || (t == "live" && forall u :: !LabelSays(e.alphabet, title, u) && !LabelSays(e.alphabet, other, u)))
  }

  lemma LabelSaysIs(a: Alphabet, value: string, t: string)
    ensures LabelSays(a, value, t) <==> TypeOfGroupLabel(a, value) == Some(t)
  {
    hide Alphabet.Lower, Holds, Contains;
    var w := a.Lower(value);
    HoldsIsContains(w, "series");
    HoldsIsContains(w, "vod");
    HoldsIsContains(w, "movie");
    HoldsIsContains(w, "live");
    HoldsIsContains(w, "tv");
  }

  lemma ImportedAsIs(e: Engine, it: Item, t: string)
    ensures ImportedAs(e, it, t) <==> ContentTypeOfStream(e, it) == t
  {
    hide LabelSays, TypeOfGroupLabel;
    var title, other := Attribute(it.attributes, "group-title"), Attribute(it.attributes, "tvg-group");
    assert ShownUnder(it, "group-title", title) && ShownUnder(it, "tvg-group", other);
    assert forall v :: (ShownUnder(it, "group-title", v) ==> v == title) && (ShownUnder(it, "tvg-group", v) ==> v == other);
    forall u
      ensures LabelSays(e.alphabet, title, u) <==> TypeOfGroupLabel(e.alphabet, title) == Some(u)
      ensures LabelSays(e.alphabet, other, u) <==> TypeOfGroupLabel(e.alphabet, other) == Some(u)
    {
      LabelSaysIs(e.alphabet, title, u);
      LabelSaysIs(e.alphabet, other, u);
    }
    if TypeOfGroupLabel(e.alphabet, title).Some? {
      assert LabelSays(e.alphabet, title, TypeOfGroupLabel(e.alphabet, title).value);
    }
    if TypeOfGroupLabel(e.alphabet, other).Some? {
      assert LabelSays(e.alphabet, other, TypeOfGroupLabel(e.alphabet, other).value);
    }
  }

  /** The label forces the group's type: of several spellings the one that sorts
      last. */
  ghost predicate Forces(a: Alphabet, m: map<string, string>, g: string, group: string) {
    && g in m && GroupKey(a, g) == GroupKey(a, group)
    && forall h :: h in m && GroupKey(a, h) == GroupKey(a, group) ==> StringLeq(h, g)
  }

  /** The operator's word for the group, else the category patterns, series before
      vod before live, else the importer's type. */
  ghost predicate FilteredAs(e: Engine, s: Source, it: Item, group: string, t: string) {
    || (exists g :: Forces(e.alphabet, s.groupTypeOverrides, g, group) && t == s.groupTypeOverrides[g])
    || ((forall g :: g in s.groupTypeOverrides ==> GroupKey(e.alphabet, g) != GroupKey(e.alphabet, group)) && (
          if Touches(e, s.seriesCategory, it) then t == "series"
          else if Touches(e, s.vodCategory, it) then t == "vod"
          else if Touches(e, s.liveCategory, it) then t == "live"
          else ImportedAs(e, it, t)))
  }

  lemma ForcedIs(a: Alphabet, m: map<string, string>, group: string)
    ensures var r, key := GroupTypesIn(a, SortedSet(m.Keys), m), GroupKey(a, group);
            && (key in r <==> exists g :: g in m && GroupKey(a, g) == key)
            && (key in r ==> exists g :: Forces(a, m, g, group) && r[key] == m[g])
  {
    hide GroupKey, SortedSet, StringLeq, Forces, GroupTypesIn;
    var keys, key := SortedSet(m.Keys), GroupKey(a, group);
    LastLabelWins(a, keys, m, key);
    var r := GroupTypesIn(a, keys, m);
    if g :| g in m && GroupKey(a, g) == key {
      assert g in keys;
      var i :| 0 <= i < |keys| && keys[i] == g;
    }
    if key in r {
      var i :| 0 <= i < |keys| && GroupKey(a, keys[i]) == key && r[key] == m[keys[i]]
        && forall j :: i < j < |keys| ==> GroupKey(a, keys[j]) != key;
      LastForces(a, m, i, group);
    }
  }

  lemma LastForces(a: Alphabet, m: map<string, string>, i: nat, group: string)
    requires i < |SortedSet(m.Keys)| && GroupKey(a, SortedSet(m.Keys)[i]) == GroupKey(a, group)
    requires forall j :: i < j < |SortedSet(m.Keys)| ==> GroupKey(a, SortedSet(m.Keys)[j]) != GroupKey(a, group)
    ensures Forces(a, m, SortedSet(m.Keys)[i], group)
  {
    hide GroupKey, SortedSet, StringLeq;
    var keys := SortedSet(m.Keys);
    SortedSetIsSorted(m.Keys);
    StringOrder();
    assert keys[i] in keys;
    forall h | h in m && GroupKey(a, h) == GroupKey(a, group)
      ensures StringLeq(h, keys[i])
    {
      assert h in keys;
      var j :| 0 <= j < |keys| && keys[j] == h;
    }
  }

  lemma OneForces(a: Alphabet, m: map<string, string>, g: string, h: string, group: string)
    requires Forces(a, m, g, group) && Forces(a, m, h, group)
    ensures g == h
  {
    StringLeqAntisymmetric(g, h);
  }

  lemma TypeFollows(e: Engine, s: Source, rs: RuleSet, it: Item, t: string)
    requires |rs.origins| == |rs.rules|
    ensures TypeOf(e, Compiled(e, s, rs), it) == t <==> FilteredAs(e, s, it, GroupOf(e.alphabet, it), t)
  {
    hide GroupOf, GroupKey, CompiledRules, GroupTypesIn, SortedSet, CompiledTiers, GroupSetOf, CompilePattern, Signature,
      Touches, ImportedAs, ContentTypeOfStream, Forces, Hits;
    var group, m := GroupOf(e.alphabet, it), s.groupTypeOverrides;
    ForcedIs(e.alphabet, m, group);
    forall g, h | Forces(e.alphabet, m, g, group) && Forces(e.alphabet, m, h, group)
      ensures g == h
    {
      OneForces(e.alphabet, m, g, h, group);
    }
    ForcingIsKnown(e.alphabet, m, group);
    TouchesIsHits(e, s.seriesCategory, it);
    TouchesIsHits(e, s.vodCategory, it);
    TouchesIsHits(e, s.liveCategory, it);
    ImportedAsIs(e, it, t);
  }

  lemma ForcingIsKnown(a: Alphabet, m: map<string, string>, group: string)
    ensures forall g :: Forces(a, m, g, group) ==> g in m && GroupKey(a, g) == GroupKey(a, group)
  {
    hide GroupKey;
  }

  // ---- the later stages ------------------------------------------------------------------------------

  /** Its label is listed, whatever its case and spacing, or the pattern hits it. */
  ghost predicate Selects(e: Engine, s: Source, group: string) {
    || (exists g :: g in s.groupFilterList && GroupKey(e.alphabet, g) == GroupKey(e.alphabet, group))
    || (s.groupFilterRegex != "" && e.compiles(s.groupFilterRegex)
        && e.matches(s.groupFilterRegex, e.alphabet.Trim(e.alphabet.Lower(group))))
  }

  ghost predicate LetInByGroup(e: Engine, s: Source, group: string) {
    if s.groupFilterMode == "" then true
    else if s.groupFilterMode == "exclude" then !Selects(e, s, group)
    else Selects(e, s, group)
  }

  ghost predicate LetInByType(s: Source, t: string) {
    s.importTypes == [] || t in s.importTypes
  }

  /** Hit by the include pattern, if there is one that compiles, and not by the
      exclude pattern. */
  ghost predicate Between(e: Engine, includes: string, excludes: string, it: Item) {
    && (includes == "" || !e.compiles(includes) || Touches(e, includes, it))
    && !Touches(e, excludes, it)
  }

  ghost predicate LetInByPatterns(e: Engine, s: Source, it: Item, t: string) {
    && (t == "live" ==> Between(e, s.liveInclude, s.liveExclude, it))
    && (t == "vod" ==> Between(e, s.vodInclude, s.vodExclude, it))
    && (t == "series" ==> Between(e, s.seriesInclude, s.seriesExclude, it))
  }

  lemma GroupFollows(e: Engine, s: Source, rs: RuleSet, it: Item)
    requires |rs.origins| == |rs.rules|
    ensures PassesGroup(e, Compiled(e, s, rs), it) <==> LetInByGroup(e, s, GroupOf(e.alphabet, it))
  {
    hide GroupOf, GroupKey, CompiledRules, GroupTypesIn, SortedSet, CompiledTiers, Signature, Alphabet.Trim, Alphabet.Lower;
    var f := Compiled(e, s, rs);
    assert f.groupMode == s.groupFilterMode && f.groupSet == GroupSetOf(e.alphabet, s.groupFilterList);
    assert f.groupRegex == CompilePattern(e, s.groupFilterRegex);
  }

  lemma LaterFollow(e: Engine, s: Source, rs: RuleSet, it: Item)
    requires |rs.origins| == |rs.rules|
    ensures var f := Compiled(e, s, rs);
            var t := TypeOf(e, f, it);
            && (PassesType(e, f, it) <==> LetInByType(s, t))
            && (PassesPatterns(e, f, it) <==> LetInByPatterns(e, s, it, t))
  {
    hide GroupOf, GroupKey, CompiledRules, GroupTypesIn, SortedSet, CompiledTiers, GroupSetOf, Signature, TypeOf, Touches, AnyProbe;
    TouchesIsHits(e, s.liveInclude, it);
    TouchesIsHits(e, s.liveExclude, it);
    TouchesIsHits(e, s.vodInclude, it);
    TouchesIsHits(e, s.vodExclude, it);
    TouchesIsHits(e, s.seriesInclude, it);
    TouchesIsHits(e, s.seriesExclude, it);
  }

  /** The stream is let in by the source's settings, as one of that type. */
  ghost predicate LetIn(e: Engine, s: Source, rs: RuleSet, it: Item, t: string) {
    exists group :: InGroup(e.alphabet, it, group)
      && FilteredAs(e, s, it, group, t)
      && LetInByRules(e, rs.rules, rs.fallback, it, group)
      && LetInByGroup(e, s, group)
      && LetInByType(s, t)
      && LetInByPatterns(e, s, it, t)
  }

  /** A compiled filter lets in what the settings it was compiled from let in, as
      the type they say. */
  lemma AdmittedIsLetIn(e: Engine, s: Source, rs: RuleSet, it: Item, t: string)
    requires |rs.origins| == |rs.rules|
    ensures var f := Compiled(e, s, rs);
            Admitted(e, f, it) && TypeOf(e, f, it) == t <==> LetIn(e, s, rs, it, t)
  {
    hide GroupOf, TypeOf, Compiled, FilteredAs, LetInByRules, LetInByGroup, LetInByType, LetInByPatterns, RulesKeep, PassesGroup,
      PassesType, PassesPatterns, InGroup;
    var group := GroupOf(e.alphabet, it);
    LabelIsGroup(e.alphabet, it, group);
    forall l | InGroup(e.alphabet, it, l)
      ensures l == group
    {
      LabelIsGroup(e.alphabet, it, l);
    }
    RulesFollow(e, s, rs, it);
    TypeFollows(e, s, rs, it, t);
    GroupFollows(e, s, rs, it);
    LaterFollow(e, s, rs, it);
  }

  // ---- the rules in force ----------------------------------------------------------------------------

  ghost predicate NamesProfile(profiles: seq<FilterProfile>, s: Source, i: nat) {
    && s.filterProfile != "" && i < |profiles| && profiles[i].name == s.filterProfile
    && forall j :: 0 <= j < i ==> profiles[j].name != s.filterProfile
  }

  /** The profile's rules ahead of the source's own, each saying where it is from;
      the source's own default before the profile's. */
  ghost predicate UnderProfile(p: FilterProfile, s: Source, rs: RuleSet) {
    && rs.rules == p.rules + s.filterRules && |rs.origins| == |rs.rules|
    && (forall k :: 0 <= k < |p.rules| ==> rs.origins[k] == "profile:" + s.filterProfile)
    && (forall k :: |p.rules| <= k < |rs.rules| ==> rs.origins[k] == "source")
    && rs.fallback == if s.filterDefault != "" then s.filterDefault else if p.fallback != "" then p.fallback else "keep"
  }

  ghost predicate OnItsOwn(s: Source, rs: RuleSet) {
    && rs.rules == s.filterRules && |rs.origins| == |rs.rules|
    && (forall k :: 0 <= k < |rs.rules| ==> rs.origins[k] == "source")
    && rs.fallback == if s.filterDefault != "" then s.filterDefault else "keep"
  }

  /** The rules and default a source is filtered by: with those of the first
      profile of the name it gives, if there is one. */
  ghost predicate InForce(profiles: seq<FilterProfile>, s: Source, rs: RuleSet) {
    && (forall i: nat :: NamesProfile(profiles, s, i) ==> UnderProfile(profiles[i], s, rs))
    && ((forall i: nat :: !NamesProfile(profiles, s, i)) ==> OnItsOwn(s, rs))
  }

  lemma ResolvedUnder(s: Source, cfg: Option<Config>)
    ensures var p, rs := ProfileOf(if cfg.Some? then cfg.value else Config([]), s), ResolvedRules(s, cfg);
            && (p.Some? && p.value.name == s.filterProfile ==> UnderProfile(p.value, s, rs))
            && (p.None? ==> OnItsOwn(s, rs))
  {
    hide FilterProfileByName;
  }

  lemma ResolvedIsInForce(s: Source, cfg: Option<Config>)
    ensures InForce(if cfg.Some? then cfg.value.filterProfiles else [], s, ResolvedRules(s, cfg))
  {
    hide FilterProfileByName, UnderProfile, OnItsOwn, ResolvedRules;
    ResolvedUnder(s, cfg);
    var profiles := if cfg.Some? then cfg.value.filterProfiles else [];
    var p := FilterProfileByName(profiles, s.filterProfile);
    if p.Some? && s.filterProfile != "" {
      var i :| 0 <= i < |profiles| && profiles[i] == p.value && profiles[i].name == s.filterProfile
        && forall j :: 0 <= j < i ==> profiles[j].name != s.filterProfile;
      assert NamesProfile(profiles, s, i);
    }
  }

  // ---- variants of one channel ----------------------------------------------------------------------

  /** The tiers the source asks for, best first. */
  function TiersAsked(s: Source): seq<string> {
    if !s.qualityDedupe then []
    else if s.qualityTiers == [] then ["4k|uhd|2160p", "fhd|full ?hd|1080p", "hd|720p", "sd|480p"]
    else s.qualityTiers
  }

  /** The name carries a marker of the tier, as a word of its own in any case. */
  predicate Carries(e: Engine, tier: string, name: string) {
    var pattern := "(?i)\\b(?:" + tier + ")\\b";
    e.compiles(pattern) && e.find(pattern, name).Some?
  }

  /** The best tier the name carries a marker of. */
  ghost predicate InTier(e: Engine, tiers: seq<string>, name: string, k: nat) {
    k < |tiers| && Carries(e, tiers[k], name) && forall j :: 0 <= j < k ==> !Carries(e, tiers[j], name)
  }

  /** What the name is without that marker, whatever its case, its spacing and the
      separators at its ends. */
  ghost predicate ChannelOf(e: Engine, tier: string, name: string, core: string)
    requires e.Lawful() && Carries(e, tier, name)
  {
    var span := e.find("(?i)\\b(?:" + tier + ")\\b", name).value;
    HasCore(Join(e.alphabet.LowerAll(e.alphabet.Fields(name[..span.0] + " " + name[span.1..])), " "), core)
  }

  ghost predicate BetterVariant(e: Engine, tiers: seq<string>, better: string, worse: string)
    requires e.Lawful()
  {
    exists k: nat, l: nat, core ::
      && k < l && InTier(e, tiers, better, k) && InTier(e, tiers, worse, l)
      && ChannelOf(e, tiers[k], better, core) && ChannelOf(e, tiers[l], worse, core)
  }

  /** A tier that compiles keeps its place among those that do. */
  lemma {:induction false} TierPlace(e: Engine, tiers: seq<string>, k: nat)
    requires k < |tiers|
    ensures var all, r := CompiledTiers(e, tiers), |CompiledTiers(e, tiers[..k])|;
            && r <= |all|
            && (e.compiles(QualityTierPattern(tiers[k])) ==> r < |all| && all[r] == QualityTierPattern(tiers[k]))
  {
    hide QualityTierPattern;
    var n := |tiers| - 1;
    assert tiers[..n][..k] == tiers[..k];
    if k < n {
      TierPlace(e, tiers[..n], k);
    }
  }

  lemma TierPlacesGrow(e: Engine, tiers: seq<string>, k: nat, l: nat)
    requires k < l < |tiers| && e.compiles(QualityTierPattern(tiers[k]))
    ensures |CompiledTiers(e, tiers[..k])| < |CompiledTiers(e, tiers[..l])|
  {
    hide QualityTierPattern, CompiledTiers;
    assert tiers[..l][..k] == tiers[..k];
    TierPlace(e, tiers[..l], k);
  }

  lemma {:induction false} TierPlaceOf(e: Engine, tiers: seq<string>, r: nat) returns (k: nat)
    requires r < |CompiledTiers(e, tiers)|
    ensures k < |tiers| && e.compiles(QualityTierPattern(tiers[k])) && |CompiledTiers(e, tiers[..k])| == r
    ensures CompiledTiers(e, tiers)[r] == QualityTierPattern(tiers[k])
  {
    hide QualityTierPattern;
    var n := |tiers| - 1;
    if r < |CompiledTiers(e, tiers[..n])| {
      k := TierPlaceOf(e, tiers[..n], r);
      assert tiers[..n][..k] == tiers[..k];
    } else {
      k := n;
    }
  }

  /** The tier a name is ranked in is the best one it carries a marker of. */
  lemma RankIsTier(e: Engine, tiers: seq<string>, name: string, k: nat)
    requires InTier(e, tiers, name, k)
    ensures var all := CompiledTiers(e, tiers);
            && TierOf(e, all, name) == |CompiledTiers(e, tiers[..k])|
            && all[TierOf(e, all, name)] == "(?i)\\b(?:" + tiers[k] + ")\\b"
  {
    hide CompiledTiers, TierFrom;
    var all := CompiledTiers(e, tiers);
    var r := |CompiledTiers(e, tiers[..k])|;
    assert Carries(e, tiers[k], name) && QualityTierPattern(tiers[k]) == "(?i)\\b(?:" + tiers[k] + ")\\b";
    TierPlace(e, tiers, k);
    forall q | 0 <= q < r
      ensures e.find(all[q], name).None?
    {
      var j := TierPlaceOf(e, tiers, q);
      if j > k {
        TierPlacesGrow(e, tiers, k, j);
      }
      assert !Carries(e, tiers[j], name);
    }
  }

  lemma RankedInSome(e: Engine, tiers: seq<string>, name: string) returns (k: nat)
    requires TierOf(e, CompiledTiers(e, tiers), name) >= 0
    ensures InTier(e, tiers, name, k)
  {
    hide CompiledTiers, TierFrom;
    var all := CompiledTiers(e, tiers);
    var r := TierOf(e, all, name);
    k := TierPlaceOf(e, tiers, r);
    assert QualityTierPattern(tiers[k]) == "(?i)\\b(?:" + tiers[k] + ")\\b";
    forall j | 0 <= j < k
      ensures !Carries(e, tiers[j], name)
    {
      assert QualityTierPattern(tiers[j]) == "(?i)\\b(?:" + tiers[j] + ")\\b";
      if Carries(e, tiers[j], name) {
        TierPlacesGrow(e, tiers, j, k);
        TierPlace(e, tiers, j);
      }
    }
  }

  lemma ChannelIsBase(e: Engine, tiers: seq<string>, name: string, k: nat, core: string)
    requires e.Lawful() && InTier(e, tiers, name, k)
    ensures Marked(e, CompiledTiers(e, tiers), name)
    ensures ChannelOf(e, tiers[k], name, core) <==> Base(e, CompiledTiers(e, tiers), name) == core
  {
    hide CompiledTiers, TierOf, HasCore, Base;
    RankIsTier(e, tiers, name, k);
    BaseIsCore(e, CompiledTiers(e, tiers), name, core);
  }

  /** Of two contenders of one type one outranks the other exactly when it is a
      better variant of the same channel. */
  lemma OutranksIsBetter(e: Engine, tiers: seq<string>, x: Entrant, y: Entrant)
    requires e.Lawful()
    ensures Outranks(e, CompiledTiers(e, tiers), x, y)
            <==> x.kept && y.kept && x.contentType == y.contentType && BetterVariant(e, tiers, x.name, y.name)
  {
    hide CompiledTiers, TierOf, Base, ChannelOf, InTier;
    var all := CompiledTiers(e, tiers);
    if Outranks(e, all, x, y) {
      var k := RankedInSome(e, tiers, x.name);
      var l := RankedInSome(e, tiers, y.name);
      ChannelIsBase(e, tiers, x.name, k, Base(e, all, x.name));
      ChannelIsBase(e, tiers, y.name, l, Base(e, all, x.name));
      BetterIsLower(e, tiers, x.name, y.name, k, l);
    }
    if BetterVariant(e, tiers, x.name, y.name) {
      var k, l, core := BetterGives(e, tiers, x.name, y.name);
      ChannelIsBase(e, tiers, x.name, k, core);
      ChannelIsBase(e, tiers, y.name, l, core);
      BetterIsLower(e, tiers, x.name, y.name, k, l);
    }
  }

  lemma BetterGives(e: Engine, tiers: seq<string>, better: string, worse: string) returns (k: nat, l: nat, core: string)
    requires e.Lawful() && BetterVariant(e, tiers, better, worse)
    ensures k < l && InTier(e, tiers, better, k) && InTier(e, tiers, worse, l)
    ensures ChannelOf(e, tiers[k], better, core) && ChannelOf(e, tiers[l], worse, core)
  {
    hide ChannelOf, Carries;
    k, l, core :| k < l && InTier(e, tiers, better, k) && InTier(e, tiers, worse, l)
      && ChannelOf(e, tiers[k], better, core) && ChannelOf(e, tiers[l], worse, core);
  }

  lemma BetterIsLower(e: Engine, tiers: seq<string>, x: string, y: string, k: nat, l: nat)
    requires InTier(e, tiers, x, k) && InTier(e, tiers, y, l)
    ensures var all := CompiledTiers(e, tiers);
            k < l <==> TierOf(e, all, x) < TierOf(e, all, y)
  {
    hide CompiledTiers, TierOf;
    RankIsTier(e, tiers, x, k);
    RankIsTier(e, tiers, y, l);
    if k < l {
      TierPlacesGrow(e, tiers, k, l);
    } else if l < k {
      TierPlacesGrow(e, tiers, l, k);
    }
  }

  /** The sources without filters are those that hold nothing but an address and, at
      most, a default that keeps, a group list without a mode and tiers without the
      stage. */
  lemma NothingToFilterIff(s: Source)
    ensures !s.HasContentFilters() <==>
            && s.filterDefault != "drop"
            && s == Source(s.name, s.url, "", [], s.filterDefault, "", s.groupFilterList, "", [], map[], false, s.qualityTiers,
                           "", "", "", "", "", "", "", "", "")
  {
  }

  // ---- what a pass keeps --------------------------------------------------------------------------------

  /** No forced type holds the separator of the variant key; one that a save has
      tidied never does. */
  ghost predicate PlainForced(s: Source) {
    forall g :: g in s.groupTypeOverrides ==> (0 as char) !in s.groupTypeOverrides[g]
  }

  /** The stream is let in as one of a type, and no better variant of its channel
      is let in as one of that type. */
  ghost predicate Stays(e: Engine, s: Source, rs: RuleSet, items: seq<Item>, i: nat)
    requires e.Lawful() && i < |items|
  {
    exists t :: LetIn(e, s, rs, items[i], t)
      && forall j :: 0 <= j < |items| && LetIn(e, s, rs, items[j], t) ==>
           !BetterVariant(e, TiersAsked(s), items[j].name, items[i].name)
  }

  lemma PlainForcedIsPlain(e: Engine, s: Source, rs: RuleSet)
    requires |rs.origins| == |rs.rules| && PlainForced(s)
    ensures PlainTypes(Compiled(e, s, rs))
  {
    hide GroupKey, CompiledRules, GroupTypesIn, SortedSet, CompiledTiers, Signature, GroupSetOf, CompilePattern;
    var m := s.groupTypeOverrides;
    var r := GroupTypesIn(e.alphabet, SortedSet(m.Keys), m);
    forall k | k in r
      ensures Free(r[k], NUL)
    {
      LastLabelWins(e.alphabet, SortedSet(m.Keys), m, k);
    }
  }

  lemma TiersCompiled(e: Engine, s: Source, rs: RuleSet)
    requires |rs.origins| == |rs.rules|
    ensures Compiled(e, s, rs).qualityTiers == CompiledTiers(e, TiersAsked(s))
  {
    hide CompiledTiers, Signature;
  }

  /** A compiled filter keeps exactly what its source's settings say stays. */
  lemma KeepsWhatStays(e: Engine, s: Source, rs: RuleSet, items: seq<Item>, i: nat)
    requires e.Lawful() && |rs.origins| == |rs.rules| && PlainForced(s) && i < |items|
    ensures Keeps(e, Compiled(e, s, rs), items, i) <==> Stays(e, s, rs, items, i)
  {
    hide Compiled, Admitted, TypeOf, LetIn, Outranks, BetterVariant, Keeps, PlainTypes, CompiledTiers, TiersAsked;
    var f, tiers := Compiled(e, s, rs), TiersAsked(s);
    PlainForcedIsPlain(e, s, rs);
    TiersCompiled(e, s, rs);
    KeptExactly(e, f, items, i);
    forall j, t | 0 <= j < |items|
      ensures LetIn(e, s, rs, items[j], t) <==> Admitted(e, f, items[j]) && TypeOf(e, f, items[j]) == t
    {
      AdmittedIsLetIn(e, s, rs, items[j], t);
    }
    forall j | 0 <= j < |items|
      ensures Outranks(e, f.qualityTiers, ItemEntrant(e, f, items[j]), ItemEntrant(e, f, items[i]))
              <==> && Admitted(e, f, items[j]) && Admitted(e, f, items[i]) && TypeOf(e, f, items[j]) == TypeOf(e, f, items[i])
                   && BetterVariant(e, tiers, items[j].name, items[i].name)
    {
      OutranksIsBetter(e, tiers, ItemEntrant(e, f, items[j]), ItemEntrant(e, f, items[i]));
    }
    var own := TypeOf(e, f, items[i]);
    assert forall t :: LetIn(e, s, rs, items[i], t) ==> t == own;
    assert Stays(e, s, rs, items, i) <==>
           && LetIn(e, s, rs, items[i], own)
           && forall j :: 0 <= j < |items| && LetIn(e, s, rs, items[j], own) ==>
                !BetterVariant(e, tiers, items[j].name, items[i].name);
  }

  predicate Works(e: Engine, rule: FilterRule) {
    e.compiles(if "(?" <= rule.pattern then rule.pattern else "(?i)" + rule.pattern)
  }

  /** How many of the rules compile. */
  function CountCompiling(e: Engine, rules: seq<FilterRule>): nat {
    if rules == [] then 0 else (if Works(e, rules[0]) then 1 else 0) + CountCompiling(e, rules[1..])
  }

  lemma {:induction false} CountCompilingSnoc(e: Engine, rules: seq<FilterRule>, r: FilterRule)
    ensures CountCompiling(e, rules + [r])
            == CountCompiling(e, rules) + if Works(e, r) then 1 else 0
  {
    if rules == [] {
      assert rules + [r] == [r] && [r][1..] == [];
    } else {
      assert (rules + [r])[1..] == rules[1..] + [r];
      CountCompilingSnoc(e, rules[1..], r);
    }
  }

  lemma {:induction false} CompiledLength(e: Engine, rules: seq<FilterRule>, origins: seq<string>)
    requires |origins| == |rules|
    ensures |CompiledRules(e, rules, origins)| == CountCompiling(e, rules)
  {
    hide RulePattern, CountCompiling;
    if rules == [] {
      NoneCompile(e);
    } else {
      var n := |rules| - 1;
      CompiledLength(e, rules[..n], origins[..n]);
      CountCompilingSnoc(e, rules[..n], rules[n]);
      PatternWorks(e, rules[n]);
      assert rules == rules[..n] + [rules[n]];
    }
  }

  /** A rule that compiles keeps its place among those that do. */
  lemma {:induction false} RulePlace(e: Engine, rules: seq<FilterRule>, origins: seq<string>, k: nat)
    requires |origins| == |rules| && k < |rules|
    ensures var all, r := CompiledRules(e, rules, origins), CountCompiling(e, rules[..k]);
            && r <= |all|
            && (Works(e, rules[k]) ==> r < |all| && all[r] == CompiledOf(rules[k], origins[k]))
  {
    hide RulePattern, CountCompiling, CompiledOf;
    var n := |rules| - 1;
    CompiledLength(e, rules[..n], origins[..n]);
    PatternWorks(e, rules[n]);
    if k < n {
      assert rules[..n][..k] == rules[..k];
      RulePlace(e, rules[..n], origins[..n], k);
    }
  }

  lemma PatternWorks(e: Engine, rule: FilterRule)
    ensures Works(e, rule) <==> e.compiles(RulePattern(rule.pattern))
  {
  }

  lemma RulePlacesGrow(e: Engine, rules: seq<FilterRule>, k: nat, l: nat)
    requires k < l <= |rules| && Works(e, rules[k])
    ensures CountCompiling(e, rules[..k]) < CountCompiling(e, rules[..l])
  {
    hide CountCompiling, CompiledRules;
    var origins := Repeat("", l);
    assert rules[..l][..k] == rules[..k];
    RulePlace(e, rules[..l], origins, k);
    CompiledLength(e, rules[..l], origins);
  }

  /** Numbers among the rules that compile are positions in the whole list exactly
      as long as every rule before compiles. */
  lemma {:induction false} NumberIsPositionIff(e: Engine, rules: seq<FilterRule>, k: nat)
    requires k <= |rules|
    ensures CountCompiling(e, rules[..k]) <= k
    ensures CountCompiling(e, rules[..k]) == k <==> forall j :: 0 <= j < k ==> Works(e, rules[j])
  {
    hide Works;
    if k > 0 {
      NumberIsPositionIff(e, rules, k - 1);
      CountCompilingSnoc(e, rules[..k - 1], rules[k - 1]);
      assert rules[..k] == rules[..k - 1] + [rules[k - 1]];
    }
  }

  lemma NoneCompile(e: Engine)
    ensures CountCompiling(e, []) == 0
  {
  }

  /** The number a verdict gives its rule counts the rules that compile. */
  lemma {:induction false} NumberOfRule(e: Engine, rules: seq<FilterRule>, origins: seq<string>, it: Item, k: nat)
    requires |origins| == |rules| && Decides(e, rules, it, GroupOf(e.alphabet, it), k)
    ensures FirstMatch(e, CompiledRules(e, rules, origins), it) == CountCompiling(e, rules[..k])
  {
    hide RuleTouches, RuleMatches, FirstMatch, GroupOf, RulePattern, CompiledOf, CountCompiling;
    var n := |rules| - 1;
    var f, before := CompiledRules(e, rules, origins), CompiledRules(e, rules[..n], origins[..n]);
    RuleTouchesIsMatch(e, rules[n], origins[n], it);
    FirstMatchOf(e, before, CompiledOf(rules[n], origins[n]), it);
    assert forall j :: 0 <= j < n ==> rules[..n][j] == rules[j];
    if e.compiles(RulePattern(rules[n].pattern)) {
      assert f == before + [CompiledOf(rules[n], origins[n])];
    } else {
      assert f == before;
    }
    if k < n {
      assert rules[..n][..k] == rules[..k];
      NumberOfRule(e, rules[..n], origins[..n], it, k);
    } else {
      var l := RulesDecide(e, rules[..n], origins[..n], it);
      CompiledLength(e, rules[..n], origins[..n]);
    }
  }

  /** What the preview says of a stream: its label, its type, whether it stays, the
      stage that settled it and the rule that did. */
  ghost predicate Told(e: Engine, s: Source, rs: RuleSet, items: seq<Item>, i: nat, v: Reports.Verdict)
    requires e.Lawful() && i < |items|
  {
    var it := items[i];
    var byRules, byGroup := LetInByRules(e, rs.rules, rs.fallback, it, v.group), LetInByGroup(e, s, v.group);
    var byType, byPatterns := LetInByType(s, v.contentType), LetInByPatterns(e, s, it, v.contentType);
    && v.name == it.name && InGroup(e.alphabet, it, v.group) && FilteredAs(e, s, it, v.group, v.contentType)
    && (v.kept <==> Stays(e, s, rs, items, i))
    && (v.stage == "group" <==> byRules && !byGroup)
    && (v.stage == "type" <==> byRules && byGroup && !byType)
    && (v.stage == "pattern" <==> byRules && byGroup && byType && !byPatterns)
    && (v.stage == "quality" <==> byRules && byGroup && byType && byPatterns && !v.kept)
    && (v.stage == "rule" || v.stage == "default" <==> v.kept || !byRules)
    && (v.stage == "rule" ==> v.rule > 0) && (v.stage == "default" ==> v.rule == 0)
    && (forall k: nat :: Decides(e, rs.rules, it, v.group, k) ==> v.rule == CountCompiling(e, rs.rules[..k]) + 1)
    && ((forall k: nat :: !Decides(e, rs.rules, it, v.group, k)) ==> v.rule == 0)
  }

  lemma VerdictIsTold(e: Engine, s: Source, rs: RuleSet, items: seq<Item>, i: nat)
    requires e.Lawful() && |rs.origins| == |rs.rules| && PlainForced(s) && i < |items|
    ensures Told(e, s, rs, items, i, VerdictOf(e, Compiled(e, s, rs), items, i))
  {
    hide Compiled, TypeOf, GroupOf, InGroup, FilteredAs, LetInByRules, LetInByGroup, LetInByType, LetInByPatterns, Stays, RulesKeep,
      PassesGroup, PassesType, PassesPatterns, FirstMatch, Decides, CountCompiling;
    var f, it := Compiled(e, s, rs), items[i];
    var v := VerdictOf(e, f, items, i);
    LabelIsGroup(e.alphabet, it, v.group);
    RulesFollow(e, s, rs, it);
    TypeFollows(e, s, rs, it, v.contentType);
    GroupFollows(e, s, rs, it);
    LaterFollow(e, s, rs, it);
    KeepsWhatStays(e, s, rs, items, i);
    StageNamesTheFirstRejection(e, f, items, i);
    NumberIsTold(e, s, rs, it);
  }

  lemma NumberIsTold(e: Engine, s: Source, rs: RuleSet, it: Item)
    requires |rs.origins| == |rs.rules|
    ensures var m, group := FirstMatch(e, Compiled(e, s, rs).rules, it), GroupOf(e.alphabet, it);
            && (forall k: nat :: Decides(e, rs.rules, it, group, k) ==> k < |rs.rules| && m == CountCompiling(e, rs.rules[..k]))
            && ((forall k: nat :: !Decides(e, rs.rules, it, group, k)) ==> m == -1)
  {
    hide RuleTouches, FirstMatch, GroupOf, CountCompiling, CompiledRules, Signature, CompiledTiers;
    var group := GroupOf(e.alphabet, it);
    var l := RulesDecide(e, rs.rules, rs.origins, it);
    forall k: nat | Decides(e, rs.rules, it, group, k)
      ensures FirstMatch(e, CompiledRules(e, rs.rules, rs.origins), it) == CountCompiling(e, rs.rules[..k])
    {
      NumberOfRule(e, rs.rules, rs.origins, it, k);
    }
  }

  /** Whose settings a pass runs by: those the cached filter was compiled from while
      its signature fits, the source's own otherwise. */
  ghost function SettingsUsed(calls: seq<Call>, s: Source, cfg: Option<Config>): (Source, RuleSet) {
    var h, rs := Holder(calls, s.url), ResolvedRules(s, cfg);
    if s.HasContentFilters() && Fits(h, s, rs) then h.value else (s, rs)
  }

  /** Whatever calls the cache has seen, a pass tells every stream what those
      settings say; where reusing the filter is harmless, they may be taken for the
      source's own. */
  lemma EveryPassFollowsTheSettings(e: Engine, calls: seq<Call>, s: Source, cfg: Option<Config>, items: seq<Item>, i: nat)
    requires e.Lawful() && i < |items|
    ensures var v, u := Verdicts(e, FilterUsed(e, CacheAfter(e, calls), s, cfg), items)[i], SettingsUsed(calls, s, cfg);
            && (PlainForced(u.0) ==> Told(e, u.0, u.1, items, i, v))
            && (|| !s.HasContentFilters()
                || (CacheLaws.SeparableWhenReused(calls, s, ResolvedRules(s, cfg))
                    && CacheLaws.ReuseHarmless(e, calls, s, ResolvedRules(s, cfg), items))
                ==> PlainForced(s) ==> Told(e, s, ResolvedRules(s, cfg), items, i, v))
  {
    hide Told, Compiled, Signature, Holder, VerdictOf, CacheLaws.SeparableWhenReused, CacheLaws.ReuseHarmless,
      Source.HasContentFilters, Serve, ResolvedRules, PlainForced, CacheAfter;
    var h, rs := Holder(calls, s.url), ResolvedRules(s, cfg);
    ServedFrom(e, calls, s, cfg);
    if PlainForced(s) {
      VerdictIsTold(e, s, rs, items, i);
    }
    var u := SettingsUsed(calls, s, cfg);
    if PlainForced(u.0) {
      VerdictIsTold(e, u.0, u.1, items, i);
    }
    if s.HasContentFilters() && CacheLaws.SeparableWhenReused(calls, s, rs) && CacheLaws.ReuseHarmless(e, calls, s, rs, items) {
      CacheLaws.PassIgnoresTheCache(e, calls, s, cfg, items);
    }
  }

  /** Which of the first n streams stay. */
  ghost function StayAt(e: Engine, s: Source, rs: RuleSet, items: seq<Item>, n: nat): set<int>
    requires e.Lawful() && n <= |items|
  {
    set i | 0 <= i < n && Stays(e, s, rs, items, i)
  }

  /** The type the settings give the stream. */
  ghost predicate OfType(e: Engine, s: Source, it: Item, t: string) {
    exists group :: InGroup(e.alphabet, it, group) && FilteredAs(e, s, it, group, t)
  }

  /** The kept streams, in the order of the catalog, and every stream stamped with
      the type it was filtered as. */
  ghost predicate KeptAndStamped(e: Engine, s: Source, rs: RuleSet, streams: seq<Stream>, items: seq<Item>, kept: seq<Stream>)
    requires e.Lawful() && |streams| == |items|
    reads streams
  {
    && |kept| == |StayAt(e, s, rs, items, |items|)|
    && (forall i :: 0 <= i < |items| && Stays(e, s, rs, items, i) ==>
          var k := |StayAt(e, s, rs, items, i)|;
          k < |kept| && kept[k] == streams[i])
    && (forall i :: 0 <= i < |items| ==> OfType(e, s, items[i], streams[i].contentType))
  }

  ghost function KeptAt(vs: seq<Reports.Verdict>): set<int> {
    set i | 0 <= i < |vs| && vs[i].kept
  }

  lemma {:induction false} SelectedCounts<T>(xs: seq<T>, vs: seq<Reports.Verdict>)
    requires |xs| == |vs|
    ensures |Selected(xs, vs)| == |KeptAt(vs)|
  {
    if xs != [] {
      var n := |xs| - 1;
      SelectedCounts(xs[..n], vs[..n]);
      if vs[n].kept {
        assert KeptAt(vs) == KeptAt(vs[..n]) + {n};
      } else {
        assert KeptAt(vs) == KeptAt(vs[..n]);
      }
    }
  }

  lemma {:induction false} SelectedAt<T>(xs: seq<T>, vs: seq<Reports.Verdict>, i: nat)
    requires |xs| == |vs| && i < |vs| && vs[i].kept
    ensures |KeptAt(vs[..i])| < |Selected(xs, vs)| && Selected(xs, vs)[|KeptAt(vs[..i])|] == xs[i]
  {
    var n := |xs| - 1;
    if i < n {
      SelectedAt(xs[..n], vs[..n], i);
      assert vs[..n][..i] == vs[..i];
    } else {
      SelectedCounts(xs[..n], vs[..n]);
    }
  }

  lemma KeptPositions(e: Engine, s: Source, rs: RuleSet, items: seq<Item>, n: nat)
    requires e.Lawful() && |rs.origins| == |rs.rules| && PlainForced(s) && n <= |items|
    ensures KeptAt(Verdicts(e, Compiled(e, s, rs), items)[..n]) == StayAt(e, s, rs, items, n)
  {
    hide Compiled, Stays, Keeps, TypeOf, GroupOf, EarlyStage, FirstMatch, Beaten;
    forall i | 0 <= i < n
      ensures Verdicts(e, Compiled(e, s, rs), items)[..n][i].kept <==> Stays(e, s, rs, items, i)
    {
      KeepsWhatStays(e, s, rs, items, i);
    }
  }

  lemma SelectedStay<T>(e: Engine, s: Source, rs: RuleSet, xs: seq<T>, items: seq<Item>)
    requires e.Lawful() && |rs.origins| == |rs.rules| && PlainForced(s) && |xs| == |items|
    ensures var kept := Selected(xs, Verdicts(e, Compiled(e, s, rs), items));
            && |kept| == |StayAt(e, s, rs, items, |items|)|
            && forall i :: 0 <= i < |items| && Stays(e, s, rs, items, i) ==>
                 var k := |StayAt(e, s, rs, items, i)|;
                 k < |kept| && kept[k] == xs[i]
  {
    hide Compiled, Stays, Selected, VerdictOf, PlainForced;
    var vs := Verdicts(e, Compiled(e, s, rs), items);
    hide Verdicts;
    SelectedCounts(xs, vs);
    KeptPositions(e, s, rs, items, |items|);
    assert vs[..|items|] == vs;
    forall i | 0 <= i < |items| && Stays(e, s, rs, items, i)
      ensures var k := |StayAt(e, s, rs, items, i)|;
              k < |Selected(xs, vs)| && Selected(xs, vs)[k] == xs[i]
    {
      KeptPositions(e, s, rs, items, i);
      KeptPositions(e, s, rs, items, i + 1);
      assert i in StayAt(e, s, rs, items, i + 1) && vs[..i + 1][i] == vs[i];
      SelectedAt(xs, vs, i);
    }
  }

  /** What a pass leaves of the catalog is what the settings say. */
  lemma PassKeepsWhatStays(e: Engine, s: Source, rs: RuleSet, streams: seq<Stream>, items: seq<Item>, kept: seq<Stream>)
    requires e.Lawful() && |rs.origins| == |rs.rules| && PlainForced(s)
    requires Passed(e, Compiled(e, s, rs), streams, items, kept)
    ensures KeptAndStamped(e, s, rs, streams, items, kept)
  {
    hide Compiled, Stays, TypeOf, GroupOf, InGroup, FilteredAs, Selected, Verdicts, PlainForced, Stamped;
    SelectedStay(e, s, rs, streams, items);
    forall i | 0 <= i < |items|
      ensures OfType(e, s, items[i], streams[i].contentType)
    {
      StampIsType(e, Compiled(e, s, rs), streams[i], items[i]);
      TypeFollows(e, s, rs, items[i], streams[i].contentType);
      LabelIsGroup(e.alphabet, items[i], GroupOf(e.alphabet, items[i]));
    }
  }

  lemma StampIsType(e: Engine, f: CompiledFilter, stream: Stream, it: Item)
    requires stream.View() == Stamped(e, f, it)
    ensures stream.contentType == TypeOf(e, f, it)
  {
    hide TypeOf;
  }
}
