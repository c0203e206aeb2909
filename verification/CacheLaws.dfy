/** What a cached filter changes: nothing, or exactly what is said here. */
module CacheLaws {
  import opened Text
  import Sorting
  import opened Config
  import opened Stages
  import opened Quality
  import opened Reports
  import opened Signatures
  import opened Manager
  import opened Pass
  import opened PassLaws

  // ---- two filters that share their signature ------------------------------------------------

  /** The two selections differ by the "(no group)" entry, and a stream without a
      group gets as far as the group stage. */
  ghost predicate SelectionMatters(e: Engine, s: Source, t: Source, f: CompiledFilter, items: seq<Item>) {
    && s.groupFilterList != t.groupFilterList && !BlankEntryHarmless(e, s)
    && exists i :: 0 <= i < |items| && GroupOf(e.alphabet, items[i]) == "" && RulesKeep(e, f, items[i])
  }

  /** The two type gates differ by a blank entry, and a stream of a type that is
      not blank gets as far as the gate. */
  ghost predicate GateMatters(e: Engine, s: Source, t: Source, f: CompiledFilter, items: seq<Item>) {
    && s.importTypes != t.importTypes
    && exists i :: 0 <= i < |items| && RulesKeep(e, f, items[i]) && PassesGroup(e, f, items[i]) && TypeOf(e, f, items[i]) != ""
  }

  ghost predicate SomeBeaten(e: Engine, f: CompiledFilter, items: seq<Item>)
    requires e.Lawful()
  {
    exists i :: 0 <= i < |items| && Beaten(ItemMarks(e, f, items), i)
  }

  /** The two tier lists differ by a blank entry, and the default tiers, which the
      empty one stands for, drop a stream. */
  ghost predicate TiersMatter(e: Engine, s: Source, t: Source, f: CompiledFilter, g: CompiledFilter, items: seq<Item>)
    requires e.Lawful()
  {
    s.qualityTiers != t.qualityTiers && s.qualityDedupe && SomeBeaten(e, if s.qualityTiers == [] then f else g, items)
  }

  ghost predicate NothingMatters(e: Engine, s: Source, t: Source, f: CompiledFilter, g: CompiledFilter, items: seq<Item>)
    requires e.Lawful()
  {
    !SelectionMatters(e, s, t, f, items) && !GateMatters(e, s, t, f, items) && !TiersMatter(e, s, t, f, g, items)
  }

  /** Everything but the three lists answers alike. */
  lemma OtherStagesAlike(e: Engine, f: CompiledFilter, g: CompiledFilter, it: Item)
    requires SameButLists(f, g)
    ensures FirstMatch(e, f.rules, it) == FirstMatch(e, g.rules, it)
    ensures RulesKeep(e, f, it) <==> RulesKeep(e, g, it)
    ensures TypeOf(e, f, it) == TypeOf(e, g, it)
    ensures PassesPatterns(e, f, it) <==> PassesPatterns(e, g, it)
  {
    hide FirstMatch, AnyProbe, GroupKeyOf, ContentTypeOfStream;
    SameRulesSameMatch(e, f.rules, g.rules, it);
    assert TypeOf(e, f, it) == TypeOf(e, g, it);
  }

  lemma GateAlike(e: Engine, s: Source, t: Source, f: CompiledFilter, g: CompiledFilter, it: Item)
    requires SameButLists(f, g) && SameLists(s, t)
    requires f.importTypes == TypeGateOf(s.importTypes) && g.importTypes == TypeGateOf(t.importTypes)
    ensures s.importTypes == t.importTypes || TypeOf(e, f, it) == "" ==> (PassesType(e, f, it) <==> PassesType(e, g, it))
    ensures s.importTypes != t.importTypes && TypeOf(e, f, it) != "" ==> (PassesType(e, f, it) <==> !PassesType(e, g, it))
  {
    OtherStagesAlike(e, f, g, it);
    hide TypeOf;
    assert [""][0] == "";
  }

  /** What two such filters say of one stream by itself. */
  ghost predicate SameEarly(e: Engine, f: CompiledFilter, g: CompiledFilter, it: Item) {
    && ItemEntrant(e, f, it) == ItemEntrant(e, g, it) && EarlyStage(e, f, it) == EarlyStage(e, g, it)
    && FirstMatch(e, f.rules, it) == FirstMatch(e, g.rules, it)
  }

  lemma SameEarlyWhen(e: Engine, f: CompiledFilter, g: CompiledFilter, it: Item)
    requires SameButLists(f, g)
    requires RulesKeep(e, f, it) ==> (PassesGroup(e, f, it) <==> PassesGroup(e, g, it))
    requires RulesKeep(e, f, it) && PassesGroup(e, f, it) ==> (PassesType(e, f, it) <==> PassesType(e, g, it))
    ensures SameEarly(e, f, g, it)
  {
    OtherStagesAlike(e, f, g, it);
    hide FirstMatch, TypeOf, RulesKeep, PassesGroup, PassesType, PassesPatterns;
  }

  lemma SameEarlyOnAll(e: Engine, s: Source, rs: RuleSet, t: Source, qs: RuleSet, items: seq<Item>)
    requires e.Lawful() && Separable(s, rs) && Separable(t, qs) && Signature(s, rs) == Signature(t, qs)
    requires !SelectionMatters(e, s, t, Compiled(e, s, rs), items) && !GateMatters(e, s, t, Compiled(e, s, rs), items)
    ensures forall i :: 0 <= i < |items| ==> SameEarly(e, Compiled(e, s, rs), Compiled(e, t, qs), items[i])
  {
    var f, g := Compiled(e, s, rs), Compiled(e, t, qs);
    CompiledLists(e, s, rs);
    CompiledLists(e, t, qs);
    SameSignatureCompiles(e, s, rs, t, qs);
    hide Compiled, Signature, Separable, BlankEntryHarmless, GroupSetOf, TypeGateOf, CompilePattern, SameButLists, SameList,
      RulesKeep, PassesGroup, PassesType, TypeOf, GroupOf, SameEarly, CompiledTiers;
    forall i | 0 <= i < |items|
      ensures SameEarly(e, f, g, items[i])
    {
      GroupStageAlike(e, s, t, f, g, items[i]);
      GateAlike(e, s, t, f, g, items[i]);
      SameEarlyWhen(e, f, g, items[i]);
    }
  }

  lemma CompiledLists(e: Engine, s: Source, rs: RuleSet)
    requires |rs.origins| == |rs.rules|
    ensures var f := Compiled(e, s, rs);
            && f.groupMode == s.groupFilterMode && f.groupRegex == CompilePattern(e, s.groupFilterRegex)
            && f.groupSet == GroupSetOf(e.alphabet, s.groupFilterList) && f.importTypes == TypeGateOf(s.importTypes)
            && f.qualityTiers == CompiledTiers(e, TiersOf(s))
  {
  }

  // ---- the quality stage under a blank tier ---------------------------------------------------------

  /** One tier beats nothing. */
  lemma OneTierBeatsNothing(e: Engine, f: CompiledFilter, items: seq<Item>, i: nat)
    requires e.Lawful() && |f.qualityTiers| <= 1 && i < |items|
    ensures !Beaten(ItemMarks(e, f, items), i)
  {
    hide ItemEntrant, Base;
    assert forall j :: 0 <= j < |items| ==> ItemMarks(e, f, items)[j].rank <= 0;
  }

  lemma BlankTierIsOne(e: Engine)
    ensures |CompiledTiers(e, [""])| <= 1
  {
    assert [""][..0] == [];
    assert CompiledTiers(e, [""][..0]) == [];
  }

  lemma SameEntrantsSameMarks(e: Engine, f: CompiledFilter, g: CompiledFilter, items: seq<Item>)
    requires e.Lawful() && f.qualityTiers == g.qualityTiers
    requires forall i :: 0 <= i < |items| ==> SameEarly(e, f, g, items[i])
    ensures ItemMarks(e, f, items) == ItemMarks(e, g, items)
  {
    hide ItemEntrant, EarlyStage, FirstMatch, MarkOf;
    assert forall i :: 0 <= i < |items| ==> SameEarly(e, f, g, items[i]) && ItemMarks(e, f, items)[i] == ItemMarks(e, g, items)[i];
  }

  /** The quality stage says the same of a stream, or only the default tiers drop it. */
  lemma QualityAlike(e: Engine, s: Source, rs: RuleSet, t: Source, qs: RuleSet, items: seq<Item>, i: nat)
    requires e.Lawful() && |rs.origins| == |rs.rules| && |qs.origins| == |qs.rules| && i < |items|
    requires SameLists(s, t)
    requires forall j :: 0 <= j < |items| ==> SameEarly(e, Compiled(e, s, rs), Compiled(e, t, qs), items[j])
    ensures var f, g := Compiled(e, s, rs), Compiled(e, t, qs);
            var byDefault := if s.qualityTiers == [] then f else g;
            && (s.qualityTiers == t.qualityTiers || !s.qualityDedupe ==>
                  (Beaten(ItemMarks(e, f, items), i) <==> Beaten(ItemMarks(e, g, items), i)))
            && (s.qualityTiers != t.qualityTiers && s.qualityDedupe ==>
                  ((Beaten(ItemMarks(e, f, items), i) <==> Beaten(ItemMarks(e, g, items), i))
                   <==> !Beaten(ItemMarks(e, byDefault, items), i)))
  {
    var f, g := Compiled(e, s, rs), Compiled(e, t, qs);
    CompiledLists(e, s, rs);
    CompiledLists(e, t, qs);
    BlankTierIsOne(e);
    hide Compiled, CompiledTiers, SameEarly, Beaten, ItemMarks;
    if s.qualityTiers == t.qualityTiers || !s.qualityDedupe {
      SameEntrantsSameMarks(e, f, g, items);
    } else {
      OneTierBeatsNothing(e, if s.qualityTiers == [] then g else f, items, i);
    }
  }

  // ---- the verdicts ------------------------------------------------------------------------------------

  lemma SameVerdictWhen(e: Engine, f: CompiledFilter, g: CompiledFilter, items: seq<Item>, i: nat)
    requires e.Lawful() && i < |items| && SameEarly(e, f, g, items[i])
    ensures VerdictOf(e, f, items, i) == VerdictOf(e, g, items, i)
            <==> (Beaten(ItemMarks(e, f, items), i) <==> Beaten(ItemMarks(e, g, items), i))
  {
    QualityStageIsBeaten(e, f, items, i);
    QualityStageIsBeaten(e, g, items, i);
    hide RulesKeep, PassesGroup, PassesType, PassesPatterns, EarlyStage, FirstMatch, TypeOf, GroupOf, Beaten;
  }

  /** A selection or a gate that matters shows in the stage of some verdict. */
  lemma MatteringShows(e: Engine, s: Source, rs: RuleSet, t: Source, qs: RuleSet, items: seq<Item>) returns (i: nat)
    requires e.Lawful() && Separable(s, rs) && Separable(t, qs) && Signature(s, rs) == Signature(t, qs)
    requires SelectionMatters(e, s, t, Compiled(e, s, rs), items) || GateMatters(e, s, t, Compiled(e, s, rs), items)
    ensures i < |items| && VerdictOf(e, Compiled(e, s, rs), items, i).stage != VerdictOf(e, Compiled(e, t, qs), items, i).stage
  {
    var f, g := Compiled(e, s, rs), Compiled(e, t, qs);
    CompiledLists(e, s, rs);
    CompiledLists(e, t, qs);
    SameSignatureCompiles(e, s, rs, t, qs);
    hide Compiled, Signature, Separable, BlankEntryHarmless, GroupSetOf, TypeGateOf, CompilePattern, SameButLists, SameList,
      RulesKeep, PassesGroup, PassesType, PassesPatterns, TypeOf, GroupOf, VerdictOf, FirstMatch, Admitted, CompiledTiers;
    if SelectionMatters(e, s, t, f, items) {
      i :| 0 <= i < |items| && GroupOf(e.alphabet, items[i]) == "" && RulesKeep(e, f, items[i]);
    } else {
      i :| 0 <= i < |items| && RulesKeep(e, f, items[i]) && PassesGroup(e, f, items[i]) && TypeOf(e, f, items[i]) != "";
    }
    GroupStageAlike(e, s, t, f, g, items[i]);
    GateAlike(e, s, t, f, g, items[i]);
    OtherStagesAlike(e, f, g, items[i]);
    StageNamesTheFirstRejection(e, f, items, i);
    StageNamesTheFirstRejection(e, g, items, i);
  }

  lemma TiersShow(e: Engine, s: Source, rs: RuleSet, t: Source, qs: RuleSet, items: seq<Item>)
    requires e.Lawful() && |rs.origins| == |rs.rules| && |qs.origins| == |qs.rules| && SameLists(s, t)
    requires forall j :: 0 <= j < |items| ==> SameEarly(e, Compiled(e, s, rs), Compiled(e, t, qs), items[j])
    ensures (forall i :: 0 <= i < |items| ==> VerdictOf(e, Compiled(e, s, rs), items, i) == VerdictOf(e, Compiled(e, t, qs), items, i))
            <==> !TiersMatter(e, s, t, Compiled(e, s, rs), Compiled(e, t, qs), items)
  {
    hide Compiled, SameEarly, VerdictOf, Beaten, SameLists, ItemMarks;
    var f, g := Compiled(e, s, rs), Compiled(e, t, qs);
    var byDefault := if s.qualityTiers == [] then f else g;
    forall i | 0 <= i < |items|
      ensures VerdictOf(e, f, items, i) == VerdictOf(e, g, items, i)
              <==> s.qualityTiers == t.qualityTiers || !s.qualityDedupe || !Beaten(ItemMarks(e, byDefault, items), i)
    {
      SameVerdictWhen(e, f, g, items, i);
      QualityAlike(e, s, rs, t, qs, items, i);
    }
    if TiersMatter(e, s, t, f, g, items) {
      var i :| 0 <= i < |items| && Beaten(ItemMarks(e, byDefault, items), i);
      assert VerdictOf(e, f, items, i) != VerdictOf(e, g, items, i);
    } else {
      forall i | 0 <= i < |items|
        ensures VerdictOf(e, f, items, i) == VerdictOf(e, g, items, i)
      {
        assert !SomeBeaten(e, byDefault, items) ==> !Beaten(ItemMarks(e, byDefault, items), i);
      }
    }
  }

  /** Two filters with equal signatures give a catalog the same verdicts exactly
      when no list that differs between them decides anything in it. */
  lemma SameSignatureSameVerdicts(e: Engine, s: Source, rs: RuleSet, t: Source, qs: RuleSet, items: seq<Item>)
    requires e.Lawful() && Separable(s, rs) && Separable(t, qs) && Signature(s, rs) == Signature(t, qs)
    ensures Verdicts(e, Compiled(e, s, rs), items) == Verdicts(e, Compiled(e, t, qs), items)
            <==> NothingMatters(e, s, t, Compiled(e, s, rs), Compiled(e, t, qs), items)
  {
    hide Compiled, Signature, Separable, VerdictOf, SelectionMatters, GateMatters, TiersMatter, SameEarly;
    SeparableIsPaired(s, rs);
    SeparableIsPaired(t, qs);
    var f, g := Compiled(e, s, rs), Compiled(e, t, qs);
    var vs, ws := Verdicts(e, f, items), Verdicts(e, g, items);
    if SelectionMatters(e, s, t, f, items) || GateMatters(e, s, t, f, items) {
      var i := MatteringShows(e, s, rs, t, qs, items);
      assert vs[i].stage != ws[i].stage;
    } else {
      SameSignatureCompiles(e, s, rs, t, qs);
      SameEarlyOnAll(e, s, rs, t, qs, items);
      TiersShow(e, s, rs, t, qs, items);
      assert vs == ws <==> forall i :: 0 <= i < |items| ==> vs[i] == ws[i];
    }
  }

  lemma SeparableIsPaired(s: Source, rs: RuleSet)
    requires Separable(s, rs)
    ensures |rs.origins| == |rs.rules|
  {
  }

  // ---- every run of the cache --------------------------------------------------------------------------

  /** When a filter is served again, its holder and the source asked for hold no
      separator inside a value; nothing is asked of any other call. */
  ghost predicate SeparableWhenReused(calls: seq<Call>, s: Source, rs: RuleSet)
    requires |rs.origins| == |rs.rules|
  {
    var h := Holder(calls, s.url);
    Fits(h, s, rs) ==> Separable(h.value.0, h.value.1) && Separable(s, rs)
  }

  /** A filter is compiled on the spot, or no list in which the holder of the
      reused one differs decides anything in this catalog. */
  ghost predicate ReuseHarmless(e: Engine, calls: seq<Call>, s: Source, rs: RuleSet, items: seq<Item>)
    requires e.Lawful() && |rs.origins| == |rs.rules|
  {
    var h := Holder(calls, s.url);
    Fits(h, s, rs) ==>
      NothingMatters(e, h.value.0, s, Compiled(e, h.value.0, h.value.1), Compiled(e, s, rs), items)
  }

  /** Whatever calls came before, with whatever sources and profiles, the filter
      served gives a catalog the verdicts of one compiled on the spot exactly when
      reusing it is harmless there. */
  lemma ServedIsFresh(e: Engine, calls: seq<Call>, s: Source, cfg: Option<Config>, items: seq<Item>)
    requires e.Lawful() && SeparableWhenReused(calls, s, ResolvedRules(s, cfg))
    ensures Verdicts(e, Serve(e, CacheAfter(e, calls), s, cfg).1, items)
            == Verdicts(e, Compiled(e, s, ResolvedRules(s, cfg)), items)
            <==> ReuseHarmless(e, calls, s, ResolvedRules(s, cfg), items)
  {
    hide Compiled, Signature, ResolvedRules, Separable, Holder, Verdicts, NothingMatters, Serve;
    var rs := ResolvedRules(s, cfg);
    var h := Holder(calls, s.url);
    ServedFrom(e, calls, s, cfg);
    if Fits(h, s, rs) {
      SameSignatureSameVerdicts(e, h.value.0, h.value.1, s, rs, items);
    }
  }

  /** And so does a pass; one over a source without filters uses no cache at all. */
  lemma PassIgnoresTheCache(e: Engine, calls: seq<Call>, s: Source, cfg: Option<Config>, items: seq<Item>)
    requires e.Lawful() && SeparableWhenReused(calls, s, ResolvedRules(s, cfg))
    ensures Verdicts(e, FilterUsed(e, CacheAfter(e, calls), s, cfg), items)
            == Verdicts(e, Compiled(e, s, ResolvedRules(s, cfg)), items)
            <==> !s.HasContentFilters() || ReuseHarmless(e, calls, s, ResolvedRules(s, cfg), items)
  {
    hide Verdicts, Compiled, SeparableWhenReused, ReuseHarmless, ResolvedRules, Serve;
    ServedIsFresh(e, calls, s, cfg, items);
  }

  // ---- the cases ---------------------------------------------------------------------------------------

  /** A source with these lists and nothing else that filters: a group list to
      drop, a type gate, and the tiers of the quality stage. */
  function Listed(groups: seq<string>, types: seq<string>, dedupe: bool, tiers: seq<string>): Source {
    Source("tv", "http://tv", "", [], "", MODE_EXCLUDE, groups, "", types, map[], dedupe, tiers, "", "", "", "", "", "", "", "", "")
  }

  /** Two such sources whose lists have one text: the second is served the filter
      compiled for the first. */
  lemma ServedTheOther(e: Engine, before: Source, after: Source)
    requires before == Listed(before.groupFilterList, before.importTypes, before.qualityDedupe, before.qualityTiers)
    requires after == Listed(after.groupFilterList, after.importTypes, before.qualityDedupe, after.qualityTiers)
    requires SameLists(before, after)
    ensures Serve(e, CacheAfter(e, [Get(before, None)]), after, None).1 == Compiled(e, before, ResolvedRules(before, None))
  {
    var rs := ResolvedRules(before, None);
    assert rs == ResolvedRules(after, None) == RuleSet([], [], DEFAULT_KEEP);
    SameInputsSameSignature(before, rs, after, rs);
    hide Compiled, Signature;
    ServedFrom(e, [Get(before, None)], after, None);
    assert [Get(before, None)][..0] == [];
    assert Holder([Get(before, None)], after.url) == Some((before, rs));
  }

  /** What a filter of such a source keeps of a catalog of one stream. */
  lemma ListedKeeps(e: Engine, s: Source, it: Item)
    requires e.Lawful() && s == Listed(s.groupFilterList, s.importTypes, false, s.qualityTiers)
    ensures var f := Compiled(e, s, ResolvedRules(s, None));
            && (Keeps(e, f, [it], 0) <==> GroupKeyOf(e.alphabet, it) !in f.groupSet && PassesType(e, f, it))
            && IsContentTypeName(TypeOf(e, f, it))
            && f.groupSet == GroupSetOf(e.alphabet, s.groupFilterList) && f.importTypes == TypeGateOf(s.importTypes)
  {
    var f := Compiled(e, s, ResolvedRules(s, None));
    OneTierBeatsNothing(e, f, [it], 0);
    hide GroupKeyOf, ContentTypeOfStream, GroupSetOf, TypeGateOf, Signature, Beaten, ItemMarks, GroupTypesIn;
    assert s.groupTypeOverrides.Keys == {};
    NoForcedTypes(e.alphabet, s.groupTypeOverrides);
  }

  lemma NoForcedTypes(a: Alphabet, m: map<string, string>)
    requires m == map[]
    ensures GroupTypesIn(a, Sorting.SortedSet(m.Keys), m) == map[]
  {
    assert m.Keys == {};
    assert Sorting.SortedSet(m.Keys) == [];
  }

  /** The operator adds the "(no group)" entry to an empty list: the old filter is
      served again and keeps a stream without a group that the new one drops. */
  lemma StaleSelection(e: Engine, it: Item)
    requires e.Lawful() && GroupOf(e.alphabet, it) == ""
    ensures var before, after := Listed([], [], false, []), Listed([""], [], false, []);
            && Keeps(e, Serve(e, CacheAfter(e, [Get(before, None)]), after, None).1, [it], 0)
            && !Keeps(e, Compiled(e, after, ResolvedRules(after, None)), [it], 0)
  {
    hide Compiled, GroupKeyOf, GroupOf, TypeOf, Serve, CacheAfter, GroupSetOf, Keeps, ResolvedRules;
    var before, after := Listed([], [], false, []), Listed([""], [], false, []);
    ServedTheOther(e, before, after);
    ListedKeeps(e, before, it);
    ListedKeeps(e, after, it);
    BlankSelection(e.alphabet);
    BlankKey(e.alphabet, it);
  }

  /** A type gate of one blank entry lets nothing through, the empty one all. */
  lemma StaleGate(e: Engine, it: Item)
    requires e.Lawful()
    ensures var before, after := Listed([], [], false, []), Listed([], [""], false, []);
            && Keeps(e, Serve(e, CacheAfter(e, [Get(before, None)]), after, None).1, [it], 0)
            && !Keeps(e, Compiled(e, after, ResolvedRules(after, None)), [it], 0)
  {
    hide Compiled, GroupKeyOf, TypeOf, Serve, CacheAfter, GroupSetOf, Keeps, ResolvedRules;
    var before, after := Listed([], [], false, []), Listed([], [""], false, []);
    ServedTheOther(e, before, after);
    ListedKeeps(e, before, it);
    ListedKeeps(e, after, it);
    BlankSelection(e.alphabet);
    assert [""][0] == "";
  }

  /** A blank tier ranks every name alike, the empty list stands for the default
      tiers: what these drop, the old filter keeps. */
  lemma StaleTiers(e: Engine, items: seq<Item>, i: nat)
    requires e.Lawful() && i < |items|
    requires var after := Listed([], [], true, []); Beaten(ItemMarks(e, Compiled(e, after, ResolvedRules(after, None)), items), i)
    ensures var before, after := Listed([], [], true, [""]), Listed([], [], true, []);
            && Keeps(e, Serve(e, CacheAfter(e, [Get(before, None)]), after, None).1, items, i)
            && !Keeps(e, Compiled(e, after, ResolvedRules(after, None)), items, i)
  {
    hide Compiled, Serve, CacheAfter, Admitted, Beaten, CompiledTiers, ItemMarks;
    var before, after := Listed([], [], true, [""]), Listed([], [], true, []);
    var rs := ResolvedRules(before, None);
    assert rs == ResolvedRules(after, None);
    var f, g := Compiled(e, before, rs), Compiled(e, after, rs);
    ServedTheOther(e, before, after);
    CompiledLists(e, before, rs);
    BlankTierIsOne(e);
    OneTierBeatsNothing(e, f, items, i);
    BeatenIsAdmitted(e, g, items, i);
    AdmittedAlike(e, before, after, rs, items[i]);
  }

  lemma AdmittedAlike(e: Engine, s: Source, t: Source, rs: RuleSet, it: Item)
    requires |rs.origins| == |rs.rules| && t == s.(qualityTiers := t.qualityTiers)
    ensures Admitted(e, Compiled(e, s, rs), it) <==> Admitted(e, Compiled(e, t, rs), it)
  {
    hide FirstMatch, AnyProbe, GroupKeyOf, ContentTypeOfStream, CompiledRules, GroupTypesIn, GroupSetOf, CompiledTiers, Signature;
    var f, g := Compiled(e, s, rs), Compiled(e, t, rs);
    assert TypeOf(e, f, it) == TypeOf(e, g, it);
  }
}
