/** One pass of a source's filters over its catalog. */
module Pass {
  import opened Text
  import opened Config
  import opened Stages
  import opened Quality
  import opened Reports
  import opened Manager

  /** ruleStats makes the rule walk go on past the decision; verdicts records
      every stream's outcome. The import turns both off. */
  datatype Options = Options(ruleStats: bool, verdicts: bool)

  // ---- what a pass means -----------------------------------------------------------------

  /** The stream passes every stage that looks at it alone. */
  ghost predicate Admitted(e: Engine, f: CompiledFilter, it: Item) {
    RulesKeep(e, f, it) && PassesGroup(e, f, it) && PassesType(e, f, it) && PassesPatterns(e, f, it)
  }

  ghost function EarlyStage(e: Engine, f: CompiledFilter, it: Item): string {
    if RulesKeep(e, f, it) && !PassesGroup(e, f, it) then STAGE_GROUP
    else if RulesKeep(e, f, it) && !PassesType(e, f, it) then STAGE_TYPE
    else if RulesKeep(e, f, it) && !PassesPatterns(e, f, it) then STAGE_PATTERN
    else if FirstMatch(e, f.rules, it) >= 0 then STAGE_RULE
    else STAGE_DEFAULT
  }

  ghost function ItemEntrant(e: Engine, f: CompiledFilter, it: Item): Entrant {
    Entrant(Admitted(e, f, it), TypeOf(e, f, it), it.name)
  }

  ghost function ItemMarks(e: Engine, f: CompiledFilter, items: seq<Item>): (r: seq<Mark>)
    requires e.Lawful()
    ensures |r| == |items|
    ensures forall i :: 0 <= i < |r| ==> r[i] == MarkOf(e, f.qualityTiers, ItemEntrant(e, f, items[i]))
  {
    seq(|items|, i requires 0 <= i < |items| => MarkOf(e, f.qualityTiers, ItemEntrant(e, f, items[i])))
  }

  ghost predicate Keeps(e: Engine, f: CompiledFilter, items: seq<Item>, i: nat)
    requires e.Lawful() && i < |items|
  {
    Admitted(e, f, items[i]) && !Beaten(ItemMarks(e, f, items), i)
  }

  ghost function VerdictOf(e: Engine, f: CompiledFilter, items: seq<Item>, i: nat): Verdict
    requires e.Lawful() && i < |items|
  {
    Verdict(items[i].name, GroupOf(e.alphabet, items[i]), TypeOf(e, f, items[i]), Keeps(e, f, items, i),
            if Beaten(ItemMarks(e, f, items), i) then STAGE_QUALITY else EarlyStage(e, f, items[i]),
            FirstMatch(e, f.rules, items[i]) + 1)
  }

  /** The verdict of every stream of the catalog, in order. */
  ghost function Verdicts(e: Engine, f: CompiledFilter, items: seq<Item>): (r: seq<Verdict>)
    requires e.Lawful()
    ensures |r| == |items| && forall i :: 0 <= i < |r| ==> r[i] == VerdictOf(e, f, items, i)
  {
    seq(|items|, i requires 0 <= i < |items| => VerdictOf(e, f, items, i))
  }

  /** The elements whose verdict keeps them, in order. */
  ghost function Selected<T>(xs: seq<T>, vs: seq<Verdict>): seq<T>
    requires |xs| == |vs|
  {
    if xs == [] then []
    else
      var n := |xs| - 1;
      Selected(xs[..n], vs[..n]) + (if vs[n].kept then [xs[n]] else [])
  }

  ghost function ObservationOf(a: Alphabet, v: Verdict): Observation {
    Observation(v.group, GroupKey(a, v.group), v.contentType, v.name, v.kept)
  }

  ghost function Observations(a: Alphabet, vs: seq<Verdict>): (r: seq<Observation>)
    ensures |r| == |vs| && forall i :: 0 <= i < |r| ==> r[i] == ObservationOf(a, vs[i])
  {
    seq(|vs|, i requires 0 <= i < |vs| => ObservationOf(a, vs[i]))
  }

  ghost function Items(streams: seq<Stream>): (r: seq<Item>)
    reads streams
    ensures |r| == |streams| && forall i :: 0 <= i < |r| ==> r[i] == streams[i].View()
  {
    seq(|streams|, i requires 0 <= i < |streams| reads streams => streams[i].View())
  }

  /** The filter a pass runs with: the one the manager serves, or none of any
      kind for a source without filters. */
  ghost function FilterUsed(e: Engine, cache: Cache, s: Source, cfg: Option<Config>): CompiledFilter {
    if s.HasContentFilters() then Serve(e, cache, s, cfg).1 else Compiled(e, s, ResolvedRules(s, cfg))
  }

  ghost function CacheLeft(e: Engine, cache: Cache, s: Source, cfg: Option<Config>): Cache {
    if s.HasContentFilters() then Serve(e, cache, s, cfg).0 else cache
  }

  // ---- stamping a stream leaves its verdict alone ------------------------------------------

  ghost function Stamped(e: Engine, f: CompiledFilter, it: Item): Item {
    it.(stamp := TypeOf(e, f, it))
  }

  /** An explicit type is returned verbatim, so a stamped stream is classified
      as it was. */
  lemma StampedType(e: Engine, f: CompiledFilter, it: Item)
    ensures TypeOf(e, f, Stamped(e, f, it)) == TypeOf(e, f, it)
  {
    hide Probe;
    var s := Stamped(e, f, it);
    assert GroupKeyOf(e.alphabet, s) == GroupKeyOf(e.alphabet, it);
    assert forall p :: AnyProbe(e, p, s) == AnyProbe(e, p, it);
  }

  lemma StampedStages(e: Engine, f: CompiledFilter, it: Item)
    ensures var s := Stamped(e, f, it);
            && FirstMatch(e, f.rules, s) == FirstMatch(e, f.rules, it)
            && GroupOf(e.alphabet, s) == GroupOf(e.alphabet, it)
            && RulesKeep(e, f, s) == RulesKeep(e, f, it) && PassesGroup(e, f, s) == PassesGroup(e, f, it)
            && PassesType(e, f, s) == PassesType(e, f, it) && PassesPatterns(e, f, s) == PassesPatterns(e, f, it)
  {
    hide Probe, TypeOf;
    var s := Stamped(e, f, it);
    StampedType(e, f, it);
    assert GroupOf(e.alphabet, s) == GroupOf(e.alphabet, it);
    assert forall k :: 0 <= k < |f.rules| ==> RuleMatches(e, f.rules[k], s) == RuleMatches(e, f.rules[k], it);
    assert forall p :: AnyProbe(e, p, s) == AnyProbe(e, p, it);
  }

  // ---- the pass, as the engine runs it ---------------------------------------------------------

  ghost function EarlyOutcome(e: Engine, f: CompiledFilter, stream: Stream, it: Item): Outcome {
    Outcome(stream, GroupOf(e.alphabet, it), GroupKeyOf(e.alphabet, it), TypeOf(e, f, it), Admitted(e, f, it),
            EarlyStage(e, f, it), FirstMatch(e, f.rules, it) + 1)
  }

  /** Classifies and stamps one stream, lets the rules decide it, and lets the
      later stages remove what the rules let through. */
  method JudgeStream(e: Engine, f: CompiledFilter, stream: Stream, report: Report, withStats: bool, ghost it: Item)
    returns (o: Outcome)
    requires report.RulesOf(e, f, withStats)
    requires stream.View() == it || stream.View() == Stamped(e, f, it)
    modifies stream`contentType, report`rules, report`defaultDecided, report`judged, report.matched
    ensures stream.View() == Stamped(e, f, it)
    ensures o == EarlyOutcome(e, f, stream, it)
    ensures report.RulesOf(e, f, withStats) && report.judged == old(report.judged) + [Stamped(e, f, it)]
  {
    hide TypeOf, FirstMatch, GroupOf, GroupKey, Subjects, PassesGroup, PassesPatterns, CountDecided, CountMatched;
    StampedType(e, f, it);
    StampedStages(e, f, it);
    var was := stream.View();
    var group := GroupOf(e.alphabet, was);
    var groupKey := GroupKey(e.alphabet, group);
    var subjects := MatchSubjects(e.alphabet, was);
    var contentType := ResolveContentType(e, was, f, subjects, groupKey);
    stream.contentType := contentType;
    var keep, decidedBy := report.ObserveRules(e, f, stream.View(), group, withStats);
    var stage := STAGE_DEFAULT;
    if decidedBy >= 0 {
      stage := STAGE_RULE;
    }
    if keep {
      keep, stage := LaterStages(e, f, was, group, groupKey, contentType, subjects, stage);
    }
    o := Outcome(stream, group, groupKey, contentType, keep, stage, decidedBy + 1);
  }

  method LaterStages(e: Engine, f: CompiledFilter, it: Item, group: string, groupKey: string, contentType: string,
                     subjects: seq<string>, early: string)
    returns (keep: bool, stage: string)
    requires group == GroupOf(e.alphabet, it) && groupKey == GroupKeyOf(e.alphabet, it)
    requires contentType == TypeOf(e, f, it) && subjects == Subjects(e.alphabet, it)
    ensures keep == (PassesGroup(e, f, it) && PassesType(e, f, it) && PassesPatterns(e, f, it))
    ensures stage == if !PassesGroup(e, f, it) then STAGE_GROUP
                     else if !PassesType(e, f, it) then STAGE_TYPE
                     else if !PassesPatterns(e, f, it) then STAGE_PATTERN
                     else early
  {
    hide TypeOf, GroupOf, GroupKey, Subjects, PassesGroup, PassesPatterns;
    var group := PassesGroupFilter(e, f, group, groupKey, it);
    if !group {
      return false, STAGE_GROUP;
    }
    var imported := ImportsType(f, contentType);
    if !imported {
      return false, STAGE_TYPE;
    }
    var included := ShouldIncludeStream(e, f, contentType, subjects, it);
    if !included {
      return false, STAGE_PATTERN;
    }
    return true, early;
  }

  /** One stream may occur twice; its item is then the same. */
  ghost predicate ItemsOf(streams: seq<Stream>, items: seq<Item>) {
    && |streams| == |items|
    && forall j, k :: 0 <= j < |streams| && 0 <= k < |streams| && streams[j] == streams[k] ==> items[j] == items[k]
  }

  lemma SameLength(streams: seq<Stream>, items: seq<Item>)
    requires ItemsOf(streams, items)
    ensures |streams| == |items|
  {
  }

  /** At the start nothing is stamped by this pass. */
  lemma AtStart(e: Engine, f: CompiledFilter, streams: seq<Stream>, items: seq<Item>)
    requires items == Items(streams)
    ensures ItemsOf(streams, items) && StampedSoFar(e, f, streams, items, 0)
    ensures |items| == |streams| && forall i :: 0 <= i < |items| ==> streams[i].name == items[i].name
  {
    hide Stamped;
  }

  ghost predicate StampedOrNot(e: Engine, f: CompiledFilter, stream: Stream, it: Item)
    reads stream
  {
    stream.View() == it || stream.View() == Stamped(e, f, it)
  }

  /** Streams before position i carry their type; the others may, if they occur
      before it too. */
  ghost predicate StampedSoFar(e: Engine, f: CompiledFilter, streams: seq<Stream>, items: seq<Item>, i: nat)
    requires |streams| == |items|
    reads streams
  {
    && (forall j :: 0 <= j < |streams| ==> StampedOrNot(e, f, streams[j], items[j]))
    && (forall j :: 0 <= j < |streams| && j < i ==> streams[j].View() == Stamped(e, f, items[j]))
  }

  method JudgeNext(e: Engine, f: CompiledFilter, streams: seq<Stream>, i: nat, report: Report, withStats: bool,
                   ghost items: seq<Item>)
    returns (o: Outcome)
    requires ItemsOf(streams, items) && i < |streams| && StampedSoFar(e, f, streams, items, i)
    requires report.RulesOf(e, f, withStats)
    modifies streams`contentType, report`rules, report`defaultDecided, report`judged, report.matched
    ensures StampedSoFar(e, f, streams, items, i + 1)
    ensures o == EarlyOutcome(e, f, streams[i], items[i])
    ensures report.RulesOf(e, f, withStats) && report.judged == old(report.judged) + [Stamped(e, f, items[i])]
  {
    hide EarlyOutcome, Stamped, Report.RulesOf;
    assert StampedOrNot(e, f, streams[i], items[i]);
    o := JudgeStream(e, f, streams[i], report, withStats, items[i]);
    forall j | 0 <= j < |streams|
      ensures StampedOrNot(e, f, streams[j], items[j])
      ensures j <= i ==> streams[j].View() == Stamped(e, f, items[j])
    {
      if streams[j] == streams[i] {
        assert items[j] == items[i];
      } else {
        assert old(StampedOrNot(e, f, streams[j], items[j]));
      }
    }
  }

  /** The first loop: every stream judged on its own. */
  method JudgeAll(e: Engine, f: CompiledFilter, streams: seq<Stream>, report: Report, withStats: bool,
                  ghost items: seq<Item>)
    returns (outcomes: seq<Outcome>)
    requires ItemsOf(streams, items) && StampedSoFar(e, f, streams, items, 0)
    requires report.RulesOf(e, f, withStats) && report.judged == []
    modifies streams`contentType, report`rules, report`defaultDecided, report`judged, report.matched
    ensures |outcomes| == |streams|
    ensures forall j :: 0 <= j < |streams| ==> outcomes[j] == EarlyOutcome(e, f, streams[j], items[j])
    ensures StampedSoFar(e, f, streams, items, |streams|)
    ensures report.RulesOf(e, f, withStats) && |report.judged| == |items|
    ensures forall j :: 0 <= j < |items| ==> report.judged[j] == Stamped(e, f, items[j])
  {
    hide *;
    SameLength(streams, items);
    outcomes := [];
    for i := 0 to |streams|
      invariant |outcomes| == i
      invariant forall j :: 0 <= j < i ==> outcomes[j] == EarlyOutcome(e, f, streams[j], items[j])
      invariant StampedSoFar(e, f, streams, items, i)
      invariant report.RulesOf(e, f, withStats) && |report.judged| == i
      invariant forall j :: 0 <= j < i ==> report.judged[j] == Stamped(e, f, items[j])
    {
      var o := JudgeNext(e, f, streams, i, report, withStats, items);
      outcomes := outcomes + [o];
    }
  }

  /** What became of the streams: the selected ones are kept and every one
      carries the type it was filtered as. */
  ghost predicate Passed(e: Engine, f: CompiledFilter, streams: seq<Stream>, items: seq<Item>, kept: seq<Stream>)
    requires e.Lawful()
    reads streams
  {
    && |streams| == |items|
    && kept == Selected(streams, Verdicts(e, f, items))
    && forall i :: 0 <= i < |streams| ==> streams[i].View() == Stamped(e, f, items[i])
  }

  ghost function OutcomeVerdict(o: Outcome): Verdict {
    Verdict(o.stream.name, o.group, o.contentType, o.keep, o.stage, o.rule)
  }

  /** The outcomes say what the verdicts say, stream by stream. */
  ghost predicate Says(a: Alphabet, outcomes: seq<Outcome>, streams: seq<Stream>, vs: seq<Verdict>) {
    && |outcomes| == |streams| == |vs|
    && forall i :: 0 <= i < |outcomes| ==>
         && outcomes[i].stream == streams[i]
         && outcomes[i].groupKey == GroupKey(a, outcomes[i].group)
         && OutcomeVerdict(outcomes[i]) == vs[i]
  }

  lemma SameMarks(e: Engine, f: CompiledFilter, outcomes: seq<Outcome>, streams: seq<Stream>, items: seq<Item>)
    requires e.Lawful() && |outcomes| == |streams| == |items|
    requires forall i :: 0 <= i < |items| ==> streams[i].name == items[i].name
    requires forall i :: 0 <= i < |items| ==> outcomes[i] == EarlyOutcome(e, f, streams[i], items[i])
    ensures MarksOf(e, f.qualityTiers, Entrants(outcomes)) == ItemMarks(e, f, items)
  {
    hide Admitted, TypeOf, EarlyStage, FirstMatch, GroupOf, GroupKeyOf, MarkOf;
    assert forall i :: 0 <= i < |items| ==> EntrantOf(outcomes[i]) == ItemEntrant(e, f, items[i]);
  }

  /** The quality stage has every verdict in hand. */
  method DecideQuality(e: Engine, f: CompiledFilter, outcomes: seq<Outcome>, ghost streams: seq<Stream>, ghost items: seq<Item>)
    returns (final: seq<Outcome>, dropped: nat)
    requires e.Lawful() && |outcomes| == |streams| == |items|
    requires forall i :: 0 <= i < |items| ==> streams[i].name == items[i].name
    requires forall i :: 0 <= i < |items| ==> outcomes[i] == EarlyOutcome(e, f, streams[i], items[i])
    ensures Says(e.alphabet, final, streams, Verdicts(e, f, items))
    ensures dropped == CountBeaten(ItemMarks(e, f, items), |items|)
  {
    hide TypeOf, EarlyStage, FirstMatch, GroupOf, GroupKey, MarkOf, Beaten, Admitted, CountBeaten, Entrants, MarksOf;
    var slots := new Outcome[|outcomes|](i requires 0 <= i < |outcomes| => outcomes[i]);
    assert slots[..] == outcomes;
    SameMarks(e, f, outcomes, streams, items);
    dropped := ApplyQualityDedupe(e, f, slots);
    final := slots[..];
    forall i | 0 <= i < |final|
      ensures final[i].stream == streams[i]
      ensures final[i].groupKey == GroupKey(e.alphabet, final[i].group)
      ensures OutcomeVerdict(final[i]) == VerdictOf(e, f, items, i)
    {
      assert outcomes[i] == EarlyOutcome(e, f, streams[i], items[i]);
    }
  }

  lemma SelectedNext<T>(xs: seq<T>, vs: seq<Verdict>, i: nat)
    requires |xs| == |vs| && i < |xs|
    ensures Selected(xs[..i + 1], vs[..i + 1])
            == if vs[i].kept then Selected(xs[..i], vs[..i]) + [xs[i]] else Selected(xs[..i], vs[..i])
  {
    assert xs[..i + 1][..i] == xs[..i] && vs[..i + 1][..i] == vs[..i];
  }

  lemma SelectedNothing<T>(xs: seq<T>, vs: seq<Verdict>)
    ensures Selected(xs[..0], vs[..0]) == []
  {
  }

  /** The report has been told these verdicts, in this order. */
  ghost predicate Recorded(a: Alphabet, report: Report, withVerdicts: bool, vs: seq<Verdict>)
    reads report`total, report`kept, report`byType, report`keptSamples, report`groups, report`groupIndex, report`keys,
      report`seen, report`verdicts, report.groups
  {
    && report.Valid() && report.seen == Observations(a, vs)
    && report.verdicts == (if withVerdicts then vs else [])
  }

  lemma ObservationsExtended(a: Alphabet, vs: seq<Verdict>, v: Verdict)
    ensures Observations(a, vs + [v])
            == Observations(a, vs) + [Observation(v.group, GroupKey(a, v.group), v.contentType, v.name, v.kept)]
  {
    hide GroupKey;
  }

  method Record(a: Alphabet, report: Report, v: Verdict, groupKey: string, withVerdicts: bool, ghost vs: seq<Verdict>)
    requires groupKey == GroupKey(a, v.group) && Recorded(a, report, withVerdicts, vs)
    modifies report`total, report`kept, report`byType, report`keptSamples, report`groups, report`groupIndex, report`keys,
      report`seen, report`verdicts, report.groups
    ensures Recorded(a, report, withVerdicts, vs + [v])
    ensures old(report.groups) <= report.groups
    ensures forall j :: |old(report.groups)| <= j < |report.groups| ==> fresh(report.groups[j])
  {
    hide Report.Valid, GroupKey, Observations;
    ObservationsExtended(a, vs, v);
    report.Observe(v.group, groupKey, v.contentType, v.name, v.kept);
    if withVerdicts {
      report.verdicts := report.verdicts + [v];
    }
  }

  lemma PrefixExtended(vs: seq<Verdict>, i: nat)
    requires i < |vs|
    ensures vs[..i + 1] == vs[..i] + [vs[i]]
  {
  }

  /** The second loop: every verdict into the report. */
  method Tally(a: Alphabet, outcomes: seq<Outcome>, report: Report, withVerdicts: bool,
               ghost streams: seq<Stream>, ghost vs: seq<Verdict>)
    returns (kept: seq<Stream>)
    requires Says(a, outcomes, streams, vs)
    requires Recorded(a, report, withVerdicts, []) && report.groups == []
    modifies report`total, report`kept, report`byType, report`keptSamples, report`groups, report`groupIndex, report`keys,
      report`seen, report`verdicts
    ensures Recorded(a, report, withVerdicts, vs)
    ensures kept == Selected(streams, vs)
    ensures forall j :: 0 <= j < |report.groups| ==> fresh(report.groups[j])
  {
    hide Recorded, Selected, GroupKey;
    assert vs[..0] == [] && vs[..|vs|] == vs && streams[..|vs|] == streams;
    SelectedNothing(streams, vs);
    kept := [];
    for i := 0 to |outcomes|
      invariant Recorded(a, report, withVerdicts, vs[..i])
      invariant kept == Selected(streams[..i], vs[..i])
      invariant forall j :: 0 <= j < |report.groups| ==> fresh(report.groups[j])
    {
      var o := outcomes[i];
      SelectedNext(streams, vs, i);
      PrefixExtended(vs, i);
      assert OutcomeVerdict(o) == vs[i];
      Record(a, report, Verdict(o.stream.name, o.group, o.contentType, o.keep, o.stage, o.rule), o.groupKey, withVerdicts, vs[..i]);
      if o.keep {
        kept := kept + [o.stream];
      }
    }
  }

  lemma {:induction false} StampedCounts(e: Engine, f: CompiledFilter, items: seq<Item>, judged: seq<Item>)
    requires |judged| == |items| && forall j :: 0 <= j < |items| ==> judged[j] == Stamped(e, f, items[j])
    ensures forall k :: CountDecided(e, f.rules, judged, k) == CountDecided(e, f.rules, items, k)
    ensures forall k :: 0 <= k < |f.rules| ==> CountMatched(e, f.rules, judged, k) == CountMatched(e, f.rules, items, k)
  {
    hide FirstMatch, GroupOf;
    if items != [] {
      var n := |items| - 1;
      StampedCounts(e, f, items[..n], judged[..n]);
      StampedStages(e, f, items[n]);
      assert GroupOf(e.alphabet, judged[n]) == GroupOf(e.alphabet, items[n]);
    }
  }

  // ---- a source without filters ------------------------------------------------------------------

  /** The filter of such a source stops nothing and reclassifies nothing. */
  ghost predicate Idle(f: CompiledFilter) {
    && f.rules == [] && f.ruleDefault != DEFAULT_DROP
    && f.groupMode == MODE_OFF && f.importTypes == None && f.groupTypes == map[]
    && f.liveCategory == None && f.vodCategory == None && f.seriesCategory == None
    && f.liveInclude == None && f.liveExclude == None
    && f.seriesInclude == None && f.seriesExclude == None
    && f.vodInclude == None && f.vodExclude == None
    && f.qualityTiers == []
  }

  lemma NoFiltersCompileIdle(e: Engine, s: Source, cfg: Option<Config>)
    requires !s.HasContentFilters()
    ensures Idle(Compiled(e, s, ResolvedRules(s, cfg)))
  {
    hide Signatures.Signature;
    assert s.groupTypeOverrides.Keys == {};
  }

  lemma IdleOnStream(e: Engine, f: CompiledFilter, it: Item)
    requires Idle(f)
    ensures Admitted(e, f, it) && EarlyStage(e, f, it) == STAGE_DEFAULT
    ensures FirstMatch(e, f.rules, it) == -1 && TypeOf(e, f, it) == ContentTypeOfStream(e, it)
  {
    hide GroupKeyOf, ContentTypeOfStream;
  }

  /** Running every stage of an idle filter is the same as keeping each stream
      under the importer's type. */
  lemma IdleKeepsAll(e: Engine, f: CompiledFilter, items: seq<Item>)
    requires e.Lawful() && Idle(f)
    ensures forall i :: 0 <= i < |items| ==>
              Verdicts(e, f, items)[i]
              == Verdict(items[i].name, GroupOf(e.alphabet, items[i]), ContentTypeOfStream(e, items[i]), true, STAGE_DEFAULT, 0)
    ensures CountBeaten(ItemMarks(e, f, items), |items|) == 0
    ensures f.rules == []
  {
    hide GroupOf, ContentTypeOfStream, TypeOf, Admitted, EarlyStage, FirstMatch;
    NoContenderNoneBeaten(ItemMarks(e, f, items), |items|);
    forall i | 0 <= i < |items|
      ensures VerdictOf(e, f, items, i)
              == Verdict(items[i].name, GroupOf(e.alphabet, items[i]), ContentTypeOfStream(e, items[i]), true, STAGE_DEFAULT, 0)
    {
      IdleOnStream(e, f, items[i]);
    }
  }

  lemma {:induction false} AllKeptSelected<T>(xs: seq<T>, vs: seq<Verdict>)
    requires |xs| == |vs| && forall i :: 0 <= i < |vs| ==> vs[i].kept
    ensures Selected(xs, vs) == xs
  {
    if xs != [] {
      var n := |xs| - 1;
      AllKeptSelected(xs[..n], vs[..n]);
      assert xs == xs[..n] + [xs[n]];
    }
  }

  /** The early return: every stream kept, stamped and observed. */
  method KeepAll(e: Engine, ghost f: CompiledFilter, streams: seq<Stream>, report: Report, withVerdicts: bool,
                 ghost items: seq<Item>, ghost vs: seq<Verdict>)
    requires Idle(f) && |vs| == |items| && ItemsOf(streams, items) && StampedSoFar(e, f, streams, items, 0)
    requires forall i :: 0 <= i < |vs| ==>
               vs[i] == Verdict(items[i].name, GroupOf(e.alphabet, items[i]), ContentTypeOfStream(e, items[i]), true, STAGE_DEFAULT, 0)
    requires Recorded(e.alphabet, report, withVerdicts, []) && report.groups == []
    modifies streams`contentType, report`total, report`kept, report`byType, report`keptSamples, report`groups,
      report`groupIndex, report`keys, report`seen, report`verdicts
    ensures StampedSoFar(e, f, streams, items, |streams|)
    ensures Recorded(e.alphabet, report, withVerdicts, vs)
    ensures forall j :: 0 <= j < |report.groups| ==> fresh(report.groups[j])
  {
    hide *;
    assert vs[..0] == [] && vs[..|vs|] == vs;
    assert |streams| == |vs| by { SameLength(streams, items); }
    for i := 0 to |streams|
      invariant StampedSoFar(e, f, streams, items, i)
      invariant Recorded(e.alphabet, report, withVerdicts, vs[..i])
      invariant forall j :: 0 <= j < |report.groups| ==> fresh(report.groups[j])
    {
      var group, contentType := StampImported(e, f, streams, i, items);
      PrefixExtended(vs, i);
      Record(e.alphabet, report, Verdict(streams[i].name, group, contentType, true, STAGE_DEFAULT, 0),
             GroupKey(e.alphabet, group), withVerdicts, vs[..i]);
    }
  }

  method StampImported(e: Engine, ghost f: CompiledFilter, streams: seq<Stream>, i: nat, ghost items: seq<Item>)
    returns (group: string, contentType: string)
    requires Idle(f) && ItemsOf(streams, items) && i < |streams| && StampedSoFar(e, f, streams, items, i)
    modifies streams`contentType
    ensures StampedSoFar(e, f, streams, items, i + 1)
    ensures streams[i].name == items[i].name
    ensures group == GroupOf(e.alphabet, items[i]) && contentType == ContentTypeOfStream(e, items[i])
  {
    hide GroupOf, ContentTypeOfStream, TypeOf, FirstMatch;
    var stream := streams[i];
    assert StampedOrNot(e, f, stream, items[i]);
    IdleOnStream(e, f, items[i]);
    IdleOnStream(e, f, Stamped(e, f, items[i]));
    StampedType(e, f, items[i]);
    StampedStages(e, f, items[i]);
    group := GroupOf(e.alphabet, stream.View());
    contentType := ContentTypeOfStream(e, stream.View());
    stream.contentType := contentType;
    forall j | 0 <= j < |streams|
      ensures StampedOrNot(e, f, streams[j], items[j])
      ensures j <= i ==> streams[j].View() == Stamped(e, f, items[j])
    {
      if streams[j] == streams[i] {
        assert items[j] == items[i];
      } else {
        assert old(StampedOrNot(e, f, streams[j], items[j]));
      }
    }
  }

  // ---- the whole pass ----------------------------------------------------------------------------

  /** What a finished report says of these streams under this filter. */
  ghost predicate Reported(e: Engine, f: CompiledFilter, items: seq<Item>, opts: Options, report: Report)
    requires e.Lawful()
    reads report, report.groups
  {
    && Recorded(e.alphabet, report, opts.verdicts, Verdicts(e, f, items))
    && report.qualityDropped == CountBeaten(ItemMarks(e, f, items), |items|)
    && report.Ordered() && report.Settled()
    && report.RulesFinished(e, f, items, opts.ruleStats)
  }

  /** A report nothing has been told yet. */
  ghost predicate Blank(a: Alphabet, report: Report)
    reads report, report.groups
  {
    && Recorded(a, report, true, []) && report.groups == []
    && report.rules == [] && report.matched == null && report.judged == []
    && report.defaultDecided == 0 && report.qualityDropped == 0
  }

  /** Runs a source's filters over its catalog: the streams that survive, in
      order, every stream stamped with the type it was filtered as, and the
      report. The result is the same whether the early return or every stage
      produced it. */
  method Apply(e: Engine, streams: seq<Stream>, source: Source, cfg: Option<Config>, manager: FilterManager, opts: Options)
    returns (kept: seq<Stream>, report: Report)
    requires e.Lawful()
    modifies manager, streams`contentType
    ensures manager.filters == CacheLeft(e, old(manager.filters), source, cfg)
    ensures fresh(report)
    ensures var f := FilterUsed(e, old(manager.filters), source, cfg);
            && Passed(e, f, streams, old(Items(streams)), kept)
            && Reported(e, f, old(Items(streams)), opts, report)
            && report.defaultAction == if source.HasContentFilters() then f.ruleDefault else ""
  {
    hide *;
    ghost var items := Items(streams);
    ghost var cache := manager.filters;
    ghost var f := FilterUsed(e, cache, source, cfg);
    UsedIs(e, cache, source, cfg);
    report := NewReport(e.alphabet);
    if !source.HasContentFilters() {
      KeepUnfiltered(e, f, streams, report, opts, items);
      kept := streams;
    } else {
      var filter := manager.GetOrCreateFilter(e, source, cfg);
      kept := FilterAll(e, filter, streams, report, opts, items);
    }
  }

  lemma UsedIs(e: Engine, cache: Cache, s: Source, cfg: Option<Config>)
    ensures !s.HasContentFilters() ==> Idle(FilterUsed(e, cache, s, cfg)) && CacheLeft(e, cache, s, cfg) == cache
    ensures s.HasContentFilters() ==> (CacheLeft(e, cache, s, cfg), FilterUsed(e, cache, s, cfg)) == Serve(e, cache, s, cfg)
  {
    hide Serve, Compiled, Idle, Source.HasContentFilters;
    if !s.HasContentFilters() {
      NoFiltersCompileIdle(e, s, cfg);
    }
  }

  method NewReport(ghost a: Alphabet) returns (report: Report)
    ensures fresh(report) && Blank(a, report) && report.defaultAction == ""
  {
    report := new Report();
  }

  /** Ends a pass whose verdicts have all been recorded. */
  method FinishPass(ghost e: Engine, ghost f: CompiledFilter, report: Report, ghost items: seq<Item>, ghost opts: Options)
    requires e.Lawful() && report.RulesOf(e, f, opts.ruleStats)
    requires Recorded(e.alphabet, report, opts.verdicts, Verdicts(e, f, items))
    requires report.qualityDropped == CountBeaten(ItemMarks(e, f, items), |items|)
    requires f.rules != [] ==> |report.judged| == |items|
    requires f.rules != [] ==> forall j :: 0 <= j < |items| ==> report.judged[j] == Stamped(e, f, items[j])
    modifies report`rules, report`groups, report`keys, report.groups`contentType
    ensures Reported(e, f, items, opts, report)
  {
    hide Report.Valid, Report.Ordered, Report.Settled, Report.RulesOf, Report.RulesFinished, Observations, CountBeaten, ItemMarks,
      Verdicts, Stamped;
    report.Finish(e, f, opts.ruleStats);
    RulesOfItems(e, f, items, report, opts.ruleStats);
  }

  /** The rule counters read the same over the stamped streams. */
  lemma RulesOfItems(e: Engine, f: CompiledFilter, items: seq<Item>, report: Report, withStats: bool)
    requires report.RulesFinished(e, f, report.judged, withStats)
    requires f.rules != [] ==> |report.judged| == |items|
    requires f.rules != [] ==> forall j :: 0 <= j < |items| ==> report.judged[j] == Stamped(e, f, items[j])
    ensures report.RulesFinished(e, f, items, withStats)
  {
    hide CountDecided, CountMatched;
    if f.rules != [] {
      StampedCounts(e, f, items, report.judged);
    }
  }

  method KeepUnfiltered(e: Engine, ghost f: CompiledFilter, streams: seq<Stream>, report: Report, opts: Options,
                        ghost items: seq<Item>)
    requires e.Lawful() && Idle(f) && items == Items(streams) && Blank(e.alphabet, report)
    modifies streams`contentType, report
    ensures Passed(e, f, streams, items, streams) && Reported(e, f, items, opts, report)
    ensures report.defaultAction == old(report.defaultAction)
  {
    hide *;
    ghost var vs := Verdicts(e, f, items);
    AtStart(e, f, streams, items);
    IdleKeepsAll(e, f, items);
    AllKeptSelected(streams, vs);
    BlankIs(e, f, report, opts);
    KeepAll(e, f, streams, report, opts.verdicts, items, vs);
    PassedIs(e, f, streams, items, streams);
    NoRules(e, f, report, opts.ruleStats);
    FinishPass(e, f, report, items, opts);
  }

  lemma BlankIs(e: Engine, f: CompiledFilter, report: Report, opts: Options)
    requires Blank(e.alphabet, report)
    ensures Recorded(e.alphabet, report, opts.verdicts, []) && report.groups == []
    ensures report.rules == [] && report.matched == null && report.judged == []
    ensures report.defaultDecided == 0 && report.qualityDropped == 0
  {
    hide Report.Valid;
  }

  lemma NoRules(e: Engine, f: CompiledFilter, report: Report, withStats: bool)
    requires f.rules == [] && report.rules == [] && report.matched == null && report.defaultDecided == 0
    ensures report.RulesOf(e, f, withStats)
  {
  }

  lemma PassedIs(e: Engine, f: CompiledFilter, streams: seq<Stream>, items: seq<Item>, kept: seq<Stream>)
    requires e.Lawful() && |streams| == |items| && StampedSoFar(e, f, streams, items, |streams|)
    requires kept == Selected(streams, Verdicts(e, f, items))
    ensures Passed(e, f, streams, items, kept)
  {
    hide Verdicts, Selected, Stamped, StampedOrNot;
  }

  method FilterAll(e: Engine, f: CompiledFilter, streams: seq<Stream>, report: Report, opts: Options, ghost items: seq<Item>)
    returns (kept: seq<Stream>)
    requires e.Lawful() && items == Items(streams) && Blank(e.alphabet, report)
    modifies streams`contentType, report
    ensures Passed(e, f, streams, items, kept) && Reported(e, f, items, opts, report)
    ensures report.defaultAction == f.ruleDefault
  {
    hide *;
    AtStart(e, f, streams, items);
    BlankIs(e, f, report, opts);
    report.StartRules(e, f, opts.ruleStats);
    var outcomes := JudgeAll(e, f, streams, report, opts.ruleStats, items);
    kept := DecideAll(e, f, outcomes, streams, report, opts, items);
    PassedIs(e, f, streams, items, kept);
    FinishPass(e, f, report, items, opts);
  }

  method DecideAll(e: Engine, f: CompiledFilter, outcomes: seq<Outcome>, ghost streams: seq<Stream>, report: Report, opts: Options,
                   ghost items: seq<Item>)
    returns (kept: seq<Stream>)
    requires e.Lawful() && |outcomes| == |streams| == |items|
    requires forall i :: 0 <= i < |items| ==> streams[i].name == items[i].name
    requires forall i :: 0 <= i < |items| ==> outcomes[i] == EarlyOutcome(e, f, streams[i], items[i])
    requires Recorded(e.alphabet, report, opts.verdicts, []) && report.groups == []
    modifies report`total, report`kept, report`byType, report`keptSamples, report`groups, report`groupIndex, report`keys,
      report`seen, report`verdicts, report`qualityDropped
    ensures Recorded(e.alphabet, report, opts.verdicts, Verdicts(e, f, items))
    ensures report.qualityDropped == CountBeaten(ItemMarks(e, f, items), |items|)
    ensures kept == Selected(streams, Verdicts(e, f, items))
    ensures forall j :: 0 <= j < |report.groups| ==> fresh(report.groups[j])
  {
    hide *;
    var final, dropped := DecideQuality(e, f, outcomes, streams, items);
    report.qualityDropped := dropped;
    kept := Tally(e.alphabet, final, report, opts.verdicts, streams, Verdicts(e, f, items));
  }
}
