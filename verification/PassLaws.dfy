/** What a pass guarantees about any catalog. */
module PassLaws {
  import opened Text
  import opened Sorting
  import opened Config
  import opened Stages
  import opened Quality
  import opened Reports
  import opened Signatures
  import opened Manager
  import opened Pass

  // ---- the selected elements ------------------------------------------------------------

  ghost function KeptBefore(vs: seq<Verdict>, i: nat): nat
    requires i <= |vs|
  {
    if i == 0 then 0 else KeptBefore(vs, i - 1) + if vs[i - 1].kept then 1 else 0
  }

  /** Exactly the kept elements are selected, each once, in their own order. */
  lemma {:induction false} SelectedInOrder<T>(xs: seq<T>, vs: seq<Verdict>, n: nat)
    requires |xs| == |vs| && n <= |xs|
    ensures |Selected(xs[..n], vs[..n])| == KeptBefore(vs, n)
    ensures forall i :: 0 <= i < n && vs[i].kept ==>
              KeptBefore(vs, i) < KeptBefore(vs, n) && Selected(xs[..n], vs[..n])[KeptBefore(vs, i)] == xs[i]
  {
    if n > 0 {
      SelectedInOrder(xs, vs, n - 1);
      SelectedNext(xs, vs, n - 1);
    }
  }

  /** Every selected element comes from a kept position. */
  lemma {:induction false} SelectedFrom<T>(xs: seq<T>, vs: seq<Verdict>, r: nat) returns (i: nat)
    requires |xs| == |vs| && r < |Selected(xs, vs)|
    ensures i < |xs| && vs[i].kept && Selected(xs, vs)[r] == xs[i]
  {
    var n := |xs| - 1;
    if r < |Selected(xs[..n], vs[..n])| {
      i := SelectedFrom(xs[..n], vs[..n], r);
    } else {
      i := n;
    }
  }

  lemma {:induction false} SelectedCount<T>(a: Alphabet, xs: seq<T>, vs: seq<Verdict>)
    requires |xs| == |vs|
    ensures |Selected(xs, vs)| == |KeptOf(Observations(a, vs))|
  {
    hide GroupKey;
    if xs != [] {
      var n := |xs| - 1;
      SelectedCount(a, xs[..n], vs[..n]);
      assert vs == vs[..n] + [vs[n]];
      ObservationsExtended(a, vs[..n], vs[n]);
      Extended(Observations(a, vs[..n]), ObservationOf(a, vs[n]));
    }
  }

  // ---- what is kept ------------------------------------------------------------------------

  /** No forced type holds the separator of the variant key; a normalized source
      forces only live, vod and series. */
  ghost predicate PlainTypes(f: CompiledFilter) {
    forall k :: k in f.groupTypes ==> Free(f.groupTypes[k], NUL)
  }

  lemma TypeIsPlain(e: Engine, f: CompiledFilter, it: Item)
    requires PlainTypes(f)
    ensures Free(TypeOf(e, f, it), NUL)
  {
    hide ContentTypeOfStream, AnyProbe, GroupKeyOf;
    assert IsContentTypeName(ContentTypeOfStream(e, it));
  }

  /** A stream is kept exactly when it passes the stages that look at it alone
      and no other such stream of its type and base name is in a better tier. */
  lemma KeptExactly(e: Engine, f: CompiledFilter, items: seq<Item>, i: nat)
    requires e.Lawful() && PlainTypes(f) && i < |items|
    ensures Keeps(e, f, items, i) <==>
            && Admitted(e, f, items[i])
            && forall j :: 0 <= j < |items| ==>
                 !Outranks(e, f.qualityTiers, ItemEntrant(e, f, items[j]), ItemEntrant(e, f, items[i]))
  {
    hide Admitted, TypeOf, Outranks, MarkOf, Beats;
    var marks := ItemMarks(e, f, items);
    forall j | 0 <= j < |items|
      ensures Beats(marks[j], marks[i]) <==> Outranks(e, f.qualityTiers, ItemEntrant(e, f, items[j]), ItemEntrant(e, f, items[i]))
    {
      TypeIsPlain(e, f, items[j]);
      TypeIsPlain(e, f, items[i]);
      BeatsMeansOutranks(e, f.qualityTiers, ItemEntrant(e, f, items[j]), ItemEntrant(e, f, items[i]));
    }
  }

  lemma BeatenIsAdmitted(e: Engine, f: CompiledFilter, items: seq<Item>, i: nat)
    requires e.Lawful() && i < |items| && Beaten(ItemMarks(e, f, items), i)
    ensures Admitted(e, f, items[i])
  {
    hide Admitted, TypeOf, Base;
  }

  /** The stage a verdict names: for a dropped stream the first that rejected it. */
  lemma StageNamesTheFirstRejection(e: Engine, f: CompiledFilter, items: seq<Item>, i: nat)
    requires e.Lawful() && i < |items|
    ensures var it, v := items[i], VerdictOf(e, f, items, i);
            && (v.stage == STAGE_GROUP <==> RulesKeep(e, f, it) && !PassesGroup(e, f, it))
            && (v.stage == STAGE_TYPE <==> RulesKeep(e, f, it) && PassesGroup(e, f, it) && !PassesType(e, f, it))
            && (v.stage == STAGE_PATTERN <==>
                  RulesKeep(e, f, it) && PassesGroup(e, f, it) && PassesType(e, f, it) && !PassesPatterns(e, f, it))
            && (v.stage == STAGE_QUALITY <==> Admitted(e, f, it) && !v.kept)
            && (!v.kept && v.stage == STAGE_RULE <==> FirstMatch(e, f.rules, it) >= 0 && !RulesKeep(e, f, it))
            && (!v.kept && v.stage == STAGE_DEFAULT <==> FirstMatch(e, f.rules, it) < 0 && !RulesKeep(e, f, it))
            && (v.kept ==> v.stage == if v.rule > 0 then STAGE_RULE else STAGE_DEFAULT)
  {
    hide TypeOf, GroupOf, FirstMatch, RulesKeep, PassesGroup, PassesType, PassesPatterns, Beaten;
    if Beaten(ItemMarks(e, f, items), i) {
      BeatenIsAdmitted(e, f, items, i);
    }
  }

  /** Some stream of the catalog is a kept variant of the same channel and type in
      a better tier. */
  ghost predicate OutrankedIn(e: Engine, f: CompiledFilter, items: seq<Item>, i: nat)
    requires e.Lawful() && i < |items|
  {
    exists j :: 0 <= j < |items|
                && Outranks(e, f.qualityTiers, ItemEntrant(e, f, items[j]), ItemEntrant(e, f, items[i]))
  }

  /** A verdict carries a rule number with another stage exactly when a rule lets
      the stream in and the group stage, the type gate, the patterns or a better
      variant then stop it. */
  lemma RuleNumberWithoutRuleStage(e: Engine, f: CompiledFilter, items: seq<Item>, i: nat)
    requires e.Lawful() && PlainTypes(f) && i < |items|
    ensures var it, v := items[i], VerdictOf(e, f, items, i);
            v.rule > 0 && v.stage != STAGE_RULE <==>
              && FirstMatch(e, f.rules, it) >= 0 && RulesKeep(e, f, it)
              && (|| !PassesGroup(e, f, it) || !PassesType(e, f, it) || !PassesPatterns(e, f, it)
                  || OutrankedIn(e, f, items, i))
  {
    hide TypeOf, GroupOf, FirstMatch, RulesKeep, PassesGroup, PassesType, PassesPatterns, Beaten, Outranks, ItemEntrant;
    StageNamesTheFirstRejection(e, f, items, i);
    KeptExactly(e, f, items, i);
  }

  /** A source that includes every name holding x and drops streams without a group. */
  function IncludesX(): Source {
    Source("tv", "http://tv", "", [INCLUDE_X], "", MODE_EXCLUDE, [""], "", [], map[], false, [], "", "", "", "", "", "", "", "", "")
  }

  const INCLUDE_X := FilterRule(FIELD_NAME, ACTION_INCLUDE, "x", "")

  /** Such a verdict: rule 1 lets the stream in, the group stage drops it. */
  lemma RuleNumberOnGroupDrop(e: Engine)
    requires e.Lawful() && e.compiles(RulePattern("x")) && e.matches(RulePattern("x"), "x")
    ensures var f := Compiled(e, IncludesX(), ResolvedRules(IncludesX(), None));
            var v := VerdictOf(e, f, [Item("x", "", map[], "")], 0);
            v.rule == 1 && v.stage == STAGE_GROUP
  {
    var it := Item("x", "", map[], "");
    var s := IncludesX();
    var rs := ResolvedRules(s, None);
    assert rs == RuleSet([INCLUDE_X], [ORIGIN_SOURCE], DEFAULT_KEEP);
    OneRule(e, INCLUDE_X, ORIGIN_SOURCE, it);
    BlankSelection(e.alphabet);
    BlankKey(e.alphabet, it);
    assert GroupOf(e.alphabet, it) == "";
    hide FirstMatch, RulePattern, TypeOf, GroupOf, Signature, GroupSetOf, CompiledRules, GroupTypesIn, Beaten, ItemMarks,
      PassesType, PassesPatterns;
    StageNamesTheFirstRejection(e, Compiled(e, s, rs), [it], 0);
  }

  // ---- the quality stage ---------------------------------------------------------------------

  /** What the stage drops has a better variant that the pass keeps. */
  lemma DroppedForABetterVariant(e: Engine, f: CompiledFilter, items: seq<Item>, i: nat) returns (j: nat)
    requires e.Lawful() && PlainTypes(f) && i < |items| && VerdictOf(e, f, items, i).stage == STAGE_QUALITY
    ensures j < |items| && Keeps(e, f, items, j)
    ensures Outranks(e, f.qualityTiers, ItemEntrant(e, f, items[j]), ItemEntrant(e, f, items[i]))
  {
    hide Admitted, TypeOf, Outranks, GroupOf, FirstMatch;
    j := BestSurvives(ItemMarks(e, f, items), i);
    TypeIsPlain(e, f, items[j]);
    TypeIsPlain(e, f, items[i]);
    BeatsMeansOutranks(e, f.qualityTiers, ItemEntrant(e, f, items[j]), ItemEntrant(e, f, items[i]));
  }

  /** Of two streams of one type that pass the earlier stages and whose names
      without their markers differ in case, spacing and separators at the ends
      only, the one in the worse tier goes. */
  lemma WorseVariantGoes(e: Engine, f: CompiledFilter, items: seq<Item>, i: nat, j: nat, core: string)
    requires e.Lawful() && PlainTypes(f) && i < |items| && j < |items|
    requires Admitted(e, f, items[i]) && Admitted(e, f, items[j]) && TypeOf(e, f, items[i]) == TypeOf(e, f, items[j])
    requires 0 <= TierOf(e, f.qualityTiers, items[j].name) < TierOf(e, f.qualityTiers, items[i].name)
    requires HasCore(Remainder(e, f.qualityTiers, items[i].name), core)
    requires HasCore(Remainder(e, f.qualityTiers, items[j].name), core)
    ensures !Keeps(e, f, items, i) && VerdictOf(e, f, items, i).stage == STAGE_QUALITY
  {
    hide Admitted, TypeOf, Remainder, Base, HasCore, TierOf, GroupOf, FirstMatch;
    BaseIsCore(e, f.qualityTiers, items[i].name, core);
    BaseIsCore(e, f.qualityTiers, items[j].name, core);
    KeptExactly(e, f, items, i);
    assert Outranks(e, f.qualityTiers, ItemEntrant(e, f, items[j]), ItemEntrant(e, f, items[i]));
    QualityStageIsBeaten(e, f, items, i);
  }

  ghost function CountStage(vs: seq<Verdict>, stage: string, n: nat): nat
    requires n <= |vs|
  {
    if n == 0 then 0 else CountStage(vs, stage, n - 1) + if vs[n - 1].stage == stage then 1 else 0
  }

  /** The quality counter counts the quality verdicts. */
  lemma {:induction false} QualityCounterCounts(e: Engine, f: CompiledFilter, items: seq<Item>, n: nat)
    requires e.Lawful() && n <= |items|
    ensures CountStage(Verdicts(e, f, items), STAGE_QUALITY, n) == CountBeaten(ItemMarks(e, f, items), n)
  {
    hide VerdictOf, Beaten;
    if n > 0 {
      QualityCounterCounts(e, f, items, n - 1);
      QualityStageIsBeaten(e, f, items, n - 1);
    }
  }

  lemma QualityStageIsBeaten(e: Engine, f: CompiledFilter, items: seq<Item>, i: nat)
    requires e.Lawful() && i < |items|
    ensures VerdictOf(e, f, items, i).stage == STAGE_QUALITY <==> Beaten(ItemMarks(e, f, items), i)
  {
    hide TypeOf, GroupOf, FirstMatch, Beaten, RulesKeep, PassesGroup, PassesType, PassesPatterns;
  }

  // ---- the report adds up -----------------------------------------------------------------------------------

  ghost function SumDecided(rules: seq<RuleStat>): int {
    if rules == [] then 0 else rules[0].decided + SumDecided(rules[1..])
  }

  lemma {:induction false} SumDecidedFrom(e: Engine, rules: seq<CompiledRule>, items: seq<Item>, stats: seq<RuleStat>, k: nat)
    requires |stats| == |rules| && k <= |rules|
    requires forall j :: 0 <= j < |rules| ==> stats[j].decided == CountDecided(e, rules, items, j)
    ensures SumDecided(stats[k..]) == if k < |rules| then DecidedFrom(e, rules, items, k) else 0
    decreases |rules| - k
  {
    hide CountDecided;
    if k < |rules| {
      SumDecidedFrom(e, rules, items, stats, k + 1);
      assert stats[k..][0] == stats[k] && stats[k..][1..] == stats[k + 1..];
    }
  }

  /** A finished report adds up: its totals are the lengths of catalog and result,
      and sums over the groups and over the types; with rules, what they and the
      default decided is every stream, and no rule decided more than it matched;
      the quality counter is the number of quality verdicts. */
  lemma ReportAddsUp(e: Engine, f: CompiledFilter, items: seq<Item>, opts: Options, r: Report, types: seq<string>)
    requires e.Lawful() && Reported(e, f, items, opts, r)
    requires NoDuplicates(types) && forall t :: t in types <==> t in r.byType
    ensures r.total == |items| && r.kept == |Selected(items, Verdicts(e, f, items))|
    ensures r.SumGroupTotals(0) == r.SumTypeTotals(types) == r.total
    ensures r.SumGroupKept(0) == r.SumTypeKept(types) == r.kept
    ensures f.rules != [] ==> SumDecided(r.rules) + r.defaultDecided == r.total
    ensures forall k :: 0 <= k < |r.rules| ==> r.rules[k].decided <= r.rules[k].matched
    ensures r.qualityDropped == CountStage(Verdicts(e, f, items), STAGE_QUALITY, |items|)
  {
    hide *;
    ReportedParts(e, f, items, opts, r);
    r.GroupsConserve();
    r.TypesConserve(types);
    ObservationsCount(e, f, items);
    SelectedCount(e.alphabet, items, Verdicts(e, f, items));
    QualityCounterCounts(e, f, items, |items|);
    RulesAddUp(e, f, items, opts.ruleStats, r);
  }

  lemma ObservationsCount(e: Engine, f: CompiledFilter, items: seq<Item>)
    requires e.Lawful()
    ensures |Observations(e.alphabet, Verdicts(e, f, items))| == |items| == |Verdicts(e, f, items)|
  {
    hide Observations, Verdicts;
  }

  lemma RulesAddUp(e: Engine, f: CompiledFilter, items: seq<Item>, withStats: bool, r: Report)
    requires r.RulesFinished(e, f, items, withStats)
    ensures f.rules != [] ==> SumDecided(r.rules) + r.defaultDecided == |items|
    ensures forall k :: 0 <= k < |r.rules| ==> r.rules[k].decided <= r.rules[k].matched
  {
    hide CountDecided, CountMatched, SumDecided;
    forall k | 0 <= k < |r.rules|
      ensures r.rules[k].decided <= r.rules[k].matched
    {
      DecidedIsMatched(e, f.rules, items, k);
    }
    if f.rules != [] {
      SumDecidedFrom(e, f.rules, items, r.rules, 0);
      assert r.rules[0..] == r.rules;
      EveryStreamIsDecidedOnce(e, f.rules, items);
    }
  }

  // ---- filtering twice --------------------------------------------------------------------------

  ghost function StampedItems(e: Engine, f: CompiledFilter, items: seq<Item>): (r: seq<Item>)
    ensures |r| == |items| && forall i :: 0 <= i < |r| ==> r[i] == Stamped(e, f, items[i])
  {
    seq(|items|, i requires 0 <= i < |items| => Stamped(e, f, items[i]))
  }

  /** The catalog a pass leaves: its kept streams as it stamped them. */
  ghost function KeptItems(e: Engine, f: CompiledFilter, items: seq<Item>): seq<Item>
    requires e.Lawful()
  {
    Selected(StampedItems(e, f, items), Verdicts(e, f, items))
  }

  lemma StampedEntrant(e: Engine, f: CompiledFilter, it: Item)
    ensures ItemEntrant(e, f, Stamped(e, f, it)) == ItemEntrant(e, f, it)
    ensures Admitted(e, f, Stamped(e, f, it)) == Admitted(e, f, it)
  {
    hide TypeOf, RulesKeep, PassesGroup, PassesType, PassesPatterns;
    StampedType(e, f, it);
    StampedStages(e, f, it);
  }

  lemma KeptAgain(e: Engine, f: CompiledFilter, items: seq<Item>, r: nat)
    requires e.Lawful() && r < |KeptItems(e, f, items)|
    ensures var again := KeptItems(e, f, items);
            Keeps(e, f, again, r) && TypeOf(e, f, again[r]) == again[r].stamp
  {
    hide Admitted, TypeOf, GroupOf, EarlyStage, FirstMatch, Selected, MarkOf;
    var again := KeptItems(e, f, items);
    var i := SelectedFrom(StampedItems(e, f, items), Verdicts(e, f, items), r);
    StampedType(e, f, items[i]);
    StampedEntrant(e, f, items[i]);
    var marks, marks' := ItemMarks(e, f, items), ItemMarks(e, f, again);
    assert marks'[r] == marks[i];
    forall q | 0 <= q < |marks'|
      ensures !Beats(marks'[q], marks'[r])
    {
      var j := SelectedFrom(StampedItems(e, f, items), Verdicts(e, f, items), q);
      StampedEntrant(e, f, items[j]);
      assert marks'[q] == marks[j];
    }
  }

  lemma {:induction false} NoneBeatenNoneCounted(marks: seq<Mark>, n: nat)
    requires n <= |marks| && forall i :: 0 <= i < n ==> !Beaten(marks, i)
    ensures CountBeaten(marks, n) == 0
  {
    if n > 0 { NoneBeatenNoneCounted(marks, n - 1); }
  }

  /** Filtering its own result keeps all of it under the same types, and the
      quality stage finds nothing to drop. */
  lemma FilteringTwice(e: Engine, f: CompiledFilter, items: seq<Item>)
    requires e.Lawful()
    ensures var again := KeptItems(e, f, items);
            KeptItems(e, f, again) == again && CountBeaten(ItemMarks(e, f, again), |again|) == 0
  {
    hide Admitted, TypeOf, GroupOf, EarlyStage, FirstMatch, MarkOf, Selected, Beaten;
    var again := KeptItems(e, f, items);
    var vs := Verdicts(e, f, again);
    forall r | 0 <= r < |again|
      ensures vs[r].kept && Stamped(e, f, again[r]) == again[r] && !Beaten(ItemMarks(e, f, again), r)
    {
      KeptAgain(e, f, items, r);
    }
    assert StampedItems(e, f, again) == again;
    AllKeptSelected(again, vs);
    NoneBeatenNoneCounted(ItemMarks(e, f, again), |again|);
  }

  /** What is selected depends on the verdicts alone. */
  lemma {:induction false} SelectedTogether<T, U>(xs: seq<T>, ys: seq<U>, vs: seq<Verdict>)
    requires |xs| == |ys| == |vs|
    ensures |Selected(xs, vs)| == |Selected(ys, vs)|
    ensures forall r :: 0 <= r < |Selected(xs, vs)| ==>
              exists i :: 0 <= i < |xs| && Selected(xs, vs)[r] == xs[i] && Selected(ys, vs)[r] == ys[i]
  {
    if xs != [] {
      var n := |xs| - 1;
      SelectedTogether(xs[..n], ys[..n], vs[..n]);
      forall r | 0 <= r < |Selected(xs, vs)|
        ensures exists i :: 0 <= i < |xs| && Selected(xs, vs)[r] == xs[i] && Selected(ys, vs)[r] == ys[i]
      {
        if r < |Selected(xs[..n], vs[..n])| {
          var i :| 0 <= i < n && Selected(xs[..n], vs[..n])[r] == xs[..n][i] && Selected(ys[..n], vs[..n])[r] == ys[..n][i];
          assert xs[i] == xs[..n][i] && ys[i] == ys[..n][i];
        } else {
          assert Selected(xs, vs)[r] == xs[n] && Selected(ys, vs)[r] == ys[n];
        }
      }
    }
  }

  /** A pass over a kept catalog keeps every stream and leaves every stamp. */
  lemma PassOverKept(e: Engine, f: CompiledFilter, items: seq<Item>, kept: seq<Stream>, again: seq<Stream>)
    requires e.Lawful() && Passed(e, f, kept, KeptItems(e, f, items), again)
    ensures again == kept && Items(kept) == KeptItems(e, f, items)
  {
    var first := KeptItems(e, f, items);
    assert |first| == |kept|;
    forall r | 0 <= r < |first|
      ensures Verdicts(e, f, first)[r].kept && Stamped(e, f, first[r]) == first[r]
    {
      KeptAgain(e, f, items, r);
    }
    hide Verdicts, Stamped, Selected, KeptItems;
    AllKeptSelected(kept, Verdicts(e, f, first));
  }

  /** A second pass over the streams a pass kept returns the same list with the
      same stamps and drops nothing for quality. */
  twostate lemma SecondPass(e: Engine, f: CompiledFilter, streams: seq<Stream>, items: seq<Item>, kept: seq<Stream>,
                            again: seq<Stream>)
    requires e.Lawful() && old(Passed(e, f, streams, items, kept))
    requires Passed(e, f, kept, old(Items(kept)), again)
    ensures again == kept && Items(kept) == old(Items(kept))
    ensures CountBeaten(ItemMarks(e, f, old(Items(kept))), |kept|) == 0
  {
    hide Verdicts, Stamped, Selected;
    var vs, stamped := Verdicts(e, f, items), StampedItems(e, f, items);
    SelectedTogether(streams, stamped, vs);
    forall r | 0 <= r < |kept|
      ensures old(kept[r].View()) == KeptItems(e, f, items)[r]
    {
      var i :| 0 <= i < |streams| && Selected(streams, vs)[r] == streams[i] && Selected(stamped, vs)[r] == stamped[i];
    }
    assert old(Items(kept)) == KeptItems(e, f, items);
    FilteringTwice(e, f, items);
    PassOverKept(e, f, items, kept, again);
  }

  /** A second pass over the same source runs with the same filter. */
  lemma SameFilterAgain(e: Engine, cache: Cache, s: Source, cfg: Option<Config>)
    ensures FilterUsed(e, CacheLeft(e, cache, s, cfg), s, cfg) == FilterUsed(e, cache, s, cfg)
  {
    hide Compiled, ResolvedRules, Signature, Source.HasContentFilters;
    CompiledSignature(e, s, ResolvedRules(s, cfg));
  }

  // ---- dead rules -----------------------------------------------------------------------------------

  ghost function Without(f: CompiledFilter, k: nat): CompiledFilter
    requires k < |f.rules|
  {
    f.(rules := f.rules[..k] + f.rules[k + 1..])
  }

  lemma FirstMatchWithout(e: Engine, rules: seq<CompiledRule>, k: nat, it: Item)
    requires k < |rules| && FirstMatch(e, rules, it) != k
    ensures var m := FirstMatch(e, rules, it);
            FirstMatch(e, rules[..k] + rules[k + 1..], it) == if m > k then m - 1 else m
  {
    hide RuleMatches;
    var fewer := rules[..k] + rules[k + 1..];
    assert forall i :: 0 <= i < k ==> fewer[i] == rules[i];
    assert forall i :: k <= i < |fewer| ==> fewer[i] == rules[i + 1];
    assert forall i :: k < i < |rules| ==> rules[i] == fewer[i - 1];
  }

  lemma StagesWithout(e: Engine, f: CompiledFilter, k: nat, it: Item)
    requires k < |f.rules| && FirstMatch(e, f.rules, it) != k
    ensures ItemEntrant(e, Without(f, k), it) == ItemEntrant(e, f, it)
    ensures Admitted(e, Without(f, k), it) == Admitted(e, f, it)
    ensures EarlyStage(e, Without(f, k), it) == EarlyStage(e, f, it)
    ensures TypeOf(e, Without(f, k), it) == TypeOf(e, f, it)
  {
    hide FirstMatch, AnyProbe, GroupKeyOf, GroupOf, ContentTypeOfStream;
    var g := Without(f, k);
    FirstMatchWithout(e, f.rules, k, it);
    assert RulesKeep(e, g, it) == RulesKeep(e, f, it);
    assert TypeOf(e, g, it) == TypeOf(e, f, it);
    assert PassesGroup(e, g, it) == PassesGroup(e, f, it);
  }

  lemma {:induction false} NeverDecides(e: Engine, rules: seq<CompiledRule>, items: seq<Item>, k: int)
    requires CountDecided(e, rules, items, k) == 0
    ensures forall i :: 0 <= i < |items| ==> FirstMatch(e, rules, items[i]) != k
  {
    if items != [] {
      var n := |items| - 1;
      NeverDecides(e, rules, items[..n], k);
      assert forall i :: 0 <= i < n ==> items[..n][i] == items[i];
    }
  }

  /** Deleting a rule that decided nothing changes no verdict of the catalog but
      the numbers of the rules after it. */
  lemma DeadRuleRemoval(e: Engine, f: CompiledFilter, items: seq<Item>, k: nat, i: nat)
    requires e.Lawful() && k < |f.rules| && i < |items|
    requires CountDecided(e, f.rules, items, k) == 0
    ensures var v := VerdictOf(e, f, items, i);
            VerdictOf(e, Without(f, k), items, i) == v.(rule := if v.rule > k + 1 then v.rule - 1 else v.rule)
  {
    hide Admitted, TypeOf, GroupOf, EarlyStage, FirstMatch, MarkOf, CountDecided, Beaten;
    NeverDecides(e, f.rules, items, k);
    forall j | 0 <= j < |items|
      ensures ItemMarks(e, Without(f, k), items)[j] == ItemMarks(e, f, items)[j]
    {
      StagesWithout(e, f, k, items[j]);
    }
    assert ItemMarks(e, Without(f, k), items) == ItemMarks(e, f, items);
    StagesWithout(e, f, k, items[i]);
    FirstMatchWithout(e, f.rules, k, items[i]);
  }

  // ---- the cache does not show -------------------------------------------------------------------------

  lemma AlikeOnStream(e: Engine, f: CompiledFilter, g: CompiledFilter, it: Item)
    requires Alike(e, f, g)
    ensures ItemEntrant(e, f, it) == ItemEntrant(e, g, it)
    ensures EarlyStage(e, f, it) == EarlyStage(e, g, it)
    ensures FirstMatch(e, f.rules, it) == FirstMatch(e, g.rules, it)
  {
    hide FirstMatch, RulesKeep, PassesGroup, PassesType, PassesPatterns, TypeOf;
    assert SameStages(e, f, g, it);
  }

  /** Filters that answer alike on single streams give the same verdicts on
      every catalog. */
  lemma AlikeSamePass(e: Engine, f: CompiledFilter, g: CompiledFilter, items: seq<Item>)
    requires e.Lawful() && Alike(e, f, g)
    ensures Verdicts(e, f, items) == Verdicts(e, g, items)
  {
    hide Admitted, GroupOf, EarlyStage, FirstMatch, MarkOf, Beaten, Alike, TypeOf;
    assert f.qualityTiers == g.qualityTiers by { SameTiers(e, f, g); }
    forall i | 0 <= i < |items|
      ensures ItemMarks(e, f, items)[i] == ItemMarks(e, g, items)[i]
      ensures ItemEntrant(e, f, items[i]) == ItemEntrant(e, g, items[i])
    {
      AlikeOnStream(e, f, g, items[i]);
    }
    assert ItemMarks(e, f, items) == ItemMarks(e, g, items);
    forall i | 0 <= i < |items|
      ensures VerdictOf(e, f, items, i) == VerdictOf(e, g, items, i)
    {
      AlikeOnStream(e, f, g, items[i]);
    }
  }

  lemma SameTiers(e: Engine, f: CompiledFilter, g: CompiledFilter)
    requires Alike(e, f, g)
    ensures f.qualityTiers == g.qualityTiers
  {
  }

  // ---- preview and import ----------------------------------------------------------------------------------

  /** Two reports of one pass, under any two options: everything but the match
      counts and the listed verdicts is the same. */
  lemma PreviewAgreesWithImport(e: Engine, f: CompiledFilter, items: seq<Item>, p: Options, r: Report, q: Options, t: Report)
    requires e.Lawful() && Reported(e, f, items, p, r) && Reported(e, f, items, q, t)
    ensures r.total == t.total && r.kept == t.kept && r.keptSamples == t.keptSamples && r.byType == t.byType
    ensures r.defaultDecided == t.defaultDecided && r.qualityDropped == t.qualityDropped
    ensures |r.rules| == |t.rules|
    ensures forall k :: 0 <= k < |r.rules| ==> r.rules[k].(matched := 0) == t.rules[k].(matched := 0)
    ensures |r.groups| == |t.groups| && forall i :: 0 <= i < |r.groups| ==> SameGroup(r.groups[i], t.groups[i])
  {
    hide *;
    ReportedParts(e, f, items, p, r);
    ReportedParts(e, f, items, q, t);
    SameTotals(r, t);
    SameRuleCounts(e, f, items, p.ruleStats, r, q.ruleStats, t);
    SameGroups(e.alphabet, r, t, Verdicts(e, f, items));
  }

  lemma ReportedParts(e: Engine, f: CompiledFilter, items: seq<Item>, p: Options, r: Report)
    requires e.Lawful() && Reported(e, f, items, p, r)
    ensures r.Valid() && r.Settled() && r.Ordered() && r.RulesFinished(e, f, items, p.ruleStats)
    ensures r.seen == Observations(e.alphabet, Verdicts(e, f, items))
    ensures r.qualityDropped == CountBeaten(ItemMarks(e, f, items), |items|)
  {
  }

  lemma SameRuleCounts(e: Engine, f: CompiledFilter, items: seq<Item>, p: bool, r: Report, q: bool, t: Report)
    requires r.RulesFinished(e, f, items, p) && t.RulesFinished(e, f, items, q)
    ensures r.defaultDecided == t.defaultDecided && |r.rules| == |t.rules|
    ensures forall k :: 0 <= k < |r.rules| ==> r.rules[k].(matched := 0) == t.rules[k].(matched := 0)
  {
    hide CountDecided, CountMatched;
  }

  ghost predicate SameGroup(g: GroupStat, h: GroupStat)
    reads g, h
  {
    && g.name == h.name && g.contentType == h.contentType && g.total == h.total && g.kept == h.kept
    && g.samples == h.samples && forall t :: g.TypeCount(t) == h.TypeCount(t)
  }

  lemma SameTotals(r: Report, t: Report)
    requires r.Valid() && t.Valid() && r.seen == t.seen
    ensures r.total == t.total && r.kept == t.kept && r.keptSamples == t.keptSamples && r.byType == t.byType
  {
    hide Part, StatOf;
  }

  lemma SameGroupIn(r: Report, t: Report, g: GroupStat) returns (h: GroupStat)
    requires r.Valid() && t.Valid() && r.seen == t.seen && r.Settled() && t.Settled() && g in r.groups
    ensures h in t.groups && SameGroup(g, h)
  {
    hide Part, KeptOf, Names, First, Report.TotalsOf;
    var i :| 0 <= i < |r.groups| && r.groups[i] == g;
    var key := r.keys[i];
    PartNonEmpty(r.seen, ByGroup, key);
    var o :| 0 <= o < |r.seen| && r.seen[o].key == key;
    assert t.seen[o].key in t.groupIndex;
    var j :| 0 <= j < |t.keys| && t.keys[j] == key;
    h := t.groups[j];
  }

  // ---- the order of the groups is determined ------------------------------------------------------------

  ghost function Ranks(groups: seq<GroupStat>): (r: seq<Rank>)
    reads groups
    ensures |r| == |groups| && forall i :: 0 <= i < |r| ==> r[i] == RankOf(groups[i])
  {
    seq(|groups|, i requires 0 <= i < |groups| reads groups => RankOf(groups[i]))
  }

  lemma {:induction false} PartElements(seen: seq<Observation>, axis: Axis, name: string)
    ensures forall o :: o in Part(seen, axis, name) ==> o in seen && LabelOf(axis, o) == name
  {
    if seen != [] {
      PartElements(seen[..|seen| - 1], axis, name);
      assert forall o :: o in seen[..|seen| - 1] ==> o in seen;
      assert seen[|seen| - 1] in seen;
    }
  }

  /** A group's name has the group's key, so no two groups share a name. */
  lemma NameHasKey(a: Alphabet, r: Report, vs: seq<Verdict>, i: nat)
    requires r.Valid() && r.seen == Observations(a, vs) && i < |r.groups|
    ensures |r.keys| == |r.groups| && GroupKey(a, r.groups[i].name) == r.keys[i]
  {
    hide Part, GroupKey, GroupStat.Counts, Report.TotalsOf;
    PartElements(r.seen, ByGroup, r.keys[i]);
    var o := InGroup(r.seen, r.keys[i])[0];
    assert o in Part(r.seen, ByGroup, r.keys[i]);
    var j :| 0 <= j < |r.seen| && r.seen[j] == o;
    assert r.seen[j] == ObservationOf(a, vs[j]);
  }

  lemma RanksDistinct(a: Alphabet, r: Report, vs: seq<Verdict>)
    requires r.Valid() && r.seen == Observations(a, vs) && r.Ordered()
    ensures NoDuplicates(Ranks(r.groups)) && Sorted(Ranks(r.groups), RankLeq)
  {
    hide GroupKey, Report.TotalsOf, Observations, GroupStat.Describes;
    forall i, j | 0 <= i < j < |r.groups|
      ensures Ranks(r.groups)[i] != Ranks(r.groups)[j]
      ensures RankLeq(Ranks(r.groups)[i], Ranks(r.groups)[j])
    {
      NameHasKey(a, r, vs, i);
      NameHasKey(a, r, vs, j);
    }
  }

  lemma RanksWithin(r: Report, t: Report)
    requires r.Valid() && t.Valid() && r.seen == t.seen && r.Settled() && t.Settled()
    ensures forall x :: x in Ranks(r.groups) ==> x in Ranks(t.groups)
  {
    hide Report.Valid, Report.Settled;
    forall x | x in Ranks(r.groups)
      ensures x in Ranks(t.groups)
    {
      var i :| 0 <= i < |r.groups| && Ranks(r.groups)[i] == x;
      var h := SameGroupIn(r, t, r.groups[i]);
      var j :| 0 <= j < |t.groups| && t.groups[j] == h;
      assert Ranks(t.groups)[j] == x;
    }
  }

  /** Two finished reports of the same verdicts list the same groups in the same
      order. */
  lemma SameGroups(a: Alphabet, r: Report, t: Report, vs: seq<Verdict>)
    requires r.Valid() && r.Settled() && r.Ordered() && r.seen == Observations(a, vs)
    requires t.Valid() && t.Settled() && t.Ordered() && t.seen == Observations(a, vs)
    ensures |r.groups| == |t.groups| && forall i :: 0 <= i < |r.groups| ==> SameGroup(r.groups[i], t.groups[i])
  {
    hide Report.Valid, Report.Settled, Report.Ordered, Observations, SameGroup;
    RanksDistinct(a, r, vs);
    RanksDistinct(a, t, vs);
    RanksWithin(r, t);
    RanksWithin(t, r);
    SameRanks(Ranks(r.groups), Ranks(t.groups));
    forall i | 0 <= i < |r.groups|
      ensures SameGroup(r.groups[i], t.groups[i])
    {
      var h := SameGroupIn(r, t, r.groups[i]);
      var j :| 0 <= j < |t.groups| && t.groups[j] == h;
      SameGroupRank(r.groups[i], h);
      assert Ranks(t.groups)[j] == Ranks(t.groups)[i];
    }
  }

  lemma SameGroupRank(g: GroupStat, h: GroupStat)
    requires SameGroup(g, h)
    ensures RankOf(g) == RankOf(h)
  {
  }

  lemma SameRanks(xs: seq<Rank>, ys: seq<Rank>)
    requires NoDuplicates(xs) && NoDuplicates(ys) && Sorted(xs, RankLeq) && Sorted(ys, RankLeq)
    requires forall x :: x in xs <==> x in ys
    ensures xs == ys
  {
    RankOrder();
    DistinctMultiset(xs);
    DistinctMultiset(ys);
    forall x ensures multiset(xs)[x] == multiset(ys)[x] {
      assert x in xs <==> x in multiset(xs);
      assert x in ys <==> x in multiset(ys);
    }
    assert multiset(xs) == multiset(ys);
    SortedIsUnique(xs, ys, RankLeq);
  }
}
