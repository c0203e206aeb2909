/** The stages one stream goes through on its own: the ordered rules, the
    group stage, classification, the type gate and the per-type patterns. Each
    stage is stated as a predicate on the stream and then computed by the
    engine's own loop. */
module Stages {
  import opened Text
  import opened Config

  /** A stream as the stages read it: stamp is the content type it carries. */
  datatype Item = Item(name: string, url: string, attributes: map<string, string>, stamp: string)

  class Stream {
    const name: string
    const url: string
    const attributes: map<string, string>
    var contentType: string

    constructor (name: string, url: string, attributes: map<string, string>, contentType: string)
      ensures View() == Item(name, url, attributes, contentType)
    {
      this.name, this.url, this.attributes, this.contentType := name, url, attributes, contentType;
    }

    function View(): Item
      reads this
    {
      Item(name, url, attributes, contentType)
    }
  }

  datatype CompiledRule = CompiledRule(field: string, includes: bool, pattern: string, origin: string, rule: FilterRule)

  /** A source's filters ready to run. A pattern is its text, None when there is
      no filter of that kind; importTypes None imports every type. */
  datatype CompiledFilter = CompiledFilter(
    rules: seq<CompiledRule>,
    ruleDefault: string,
    groupMode: string,
    groupSet: set<string>,
    groupRegex: Option<string>,
    importTypes: Option<set<string>>,
    groupTypes: map<string, string>,
    liveCategory: Option<string>,
    vodCategory: Option<string>,
    seriesCategory: Option<string>,
    liveInclude: Option<string>,
    liveExclude: Option<string>,
    seriesInclude: Option<string>,
    seriesExclude: Option<string>,
    vodInclude: Option<string>,
    vodExclude: Option<string>,
    qualityTiers: seq<string>,
    signature: string)

  // ---- what a stream shows --------------------------------------------------------

  const GROUP_TITLE := "group-title"
  const TVG_GROUP := "tvg-group"

  function Attribute(attributes: map<string, string>, key: string): string {
    if key in attributes then attributes[key] else ""
  }

  /** The group label, group-title before tvg-group, "" for none. */
  function GroupOf(a: Alphabet, it: Item): string {
    var title := a.Trim(Attribute(it.attributes, GROUP_TITLE));
    if title != "" then title else a.Trim(Attribute(it.attributes, TVG_GROUP))
  }

  function GroupKeyOf(a: Alphabet, it: Item): string {
    GroupKey(a, GroupOf(a, it))
  }

  const VOD_URL_PATTERN := "(?i)\\/vods\\/|\\/vod\\/|\\/movies\\/|\\/movie\\/"

  function TypeOfGroupLabel(a: Alphabet, value: string): Option<string> {
    var group := a.Lower(value);
    if Contains(group, "series") then Some(SERIES)
    else if Contains(group, "vod") || Contains(group, "movie") then Some(VOD)
    else if Contains(group, "live") || Contains(group, "tv") then Some(LIVE)
    else None
  }

  /** The importer's classification: an explicit type verbatim, else heuristics. */
  function ContentTypeOfStream(e: Engine, it: Item): (t: string)
    ensures IsContentTypeName(t)
    ensures IsContentTypeName(it.stamp) ==> t == it.stamp
  {
    if IsContentTypeName(it.stamp) then it.stamp
    else if e.matches(VOD_URL_PATTERN, it.name) || e.matches(VOD_URL_PATTERN, it.url) then VOD
    else
      match TypeOfGroupLabel(e.alphabet, Attribute(it.attributes, GROUP_TITLE))
      case Some(t) => t
      case None =>
        match TypeOfGroupLabel(e.alphabet, Attribute(it.attributes, TVG_GROUP))
        case Some(t) => t
        case None => LIVE
  }

  // ---- the stages, as predicates ----------------------------------------------------

  predicate RuleHit(e: Engine, r: CompiledRule, subject: string) {
    subject != "" && e.matches(r.pattern, subject)
  }

  /** A rule matches on the value its field names; an unknown field means any.
      An empty value is never tested. */
  predicate RuleMatches(e: Engine, r: CompiledRule, it: Item) {
    || (r.field !in {FIELD_NAME, FIELD_URL} && RuleHit(e, r, GroupOf(e.alphabet, it)))
    || (r.field !in {FIELD_GROUP, FIELD_URL} && RuleHit(e, r, it.name))
    || (r.field !in {FIELD_GROUP, FIELD_NAME} && RuleHit(e, r, it.url))
  }

  /** The index of the first rule that matches, -1 when none does. */
  ghost function FirstMatch(e: Engine, rules: seq<CompiledRule>, it: Item): (k: int)
    ensures -1 <= k < |rules|
    ensures k == -1 ==> forall j :: 0 <= j < |rules| ==> !RuleMatches(e, rules[j], it)
    ensures k >= 0 ==> RuleMatches(e, rules[k], it) && forall j :: 0 <= j < k ==> !RuleMatches(e, rules[j], it)
  {
    if exists j :: 0 <= j < |rules| && RuleMatches(e, rules[j], it) then
      var k := LeastMatch(e, rules, it, 0);
      k
    else -1
  }

  ghost function LeastMatch(e: Engine, rules: seq<CompiledRule>, it: Item, i: nat): (k: nat)
    requires exists j :: i <= j < |rules| && RuleMatches(e, rules[j], it)
    ensures i <= k < |rules| && RuleMatches(e, rules[k], it)
    ensures forall j :: i <= j < k ==> !RuleMatches(e, rules[j], it)
    decreases |rules| - i
  {
    if RuleMatches(e, rules[i], it) then i else LeastMatch(e, rules, it, i + 1)
  }

  ghost predicate RulesKeep(e: Engine, f: CompiledFilter, it: Item) {
    var k := FirstMatch(e, f.rules, it);
    if k >= 0 then f.rules[k].includes else f.ruleDefault != DEFAULT_DROP
  }

  ghost predicate GroupMatched(e: Engine, f: CompiledFilter, it: Item) {
    || GroupKeyOf(e.alphabet, it) in f.groupSet
    || (f.groupRegex.Some? && e.matches(f.groupRegex.value, GroupSubject(e.alphabet, GroupOf(e.alphabet, it))))
  }

  ghost predicate PassesGroup(e: Engine, f: CompiledFilter, it: Item) {
    || f.groupMode == MODE_OFF
    || (GroupMatched(e, f, it) <==> f.groupMode != MODE_EXCLUDE)
  }

  function GroupSubject(a: Alphabet, group: string): string {
    a.Trim(a.Lower(group))
  }

  /** A pattern is tried on one value of the stream, lower-cased and trimmed. */
  ghost predicate Probe(e: Engine, pattern: string, value: string) {
    var s := e.alphabet.Trim(e.alphabet.Lower(value));
    s != "" && e.matches(pattern, s)
  }

  /** The pattern hits the name, a group attribute or the address. */
  ghost predicate AnyProbe(e: Engine, pattern: string, it: Item) {
    || Probe(e, pattern, it.name)
    || Probe(e, pattern, Attribute(it.attributes, GROUP_TITLE))
    || Probe(e, pattern, Attribute(it.attributes, TVG_GROUP))
    || Probe(e, pattern, it.url)
  }

  ghost predicate Hits(e: Engine, pattern: Option<string>, it: Item) {
    pattern.Some? && AnyProbe(e, pattern.value, it)
  }

  /** The type a stream is filtered as: the operator's word for its group, then
      the category patterns, series before vod before live, then the importer. */
  ghost function TypeOf(e: Engine, f: CompiledFilter, it: Item): string {
    var key := GroupKeyOf(e.alphabet, it);
    if key in f.groupTypes then f.groupTypes[key]
    else if Hits(e, f.seriesCategory, it) then SERIES
    else if Hits(e, f.vodCategory, it) then VOD
    else if Hits(e, f.liveCategory, it) then LIVE
    else ContentTypeOfStream(e, it)
  }

  ghost predicate PassesType(e: Engine, f: CompiledFilter, it: Item) {
    f.importTypes.Some? ==> TypeOf(e, f, it) in f.importTypes.value
  }

  ghost function IncludeFor(f: CompiledFilter, t: string): Option<string> {
    if t == LIVE then f.liveInclude else if t == SERIES then f.seriesInclude
    else if t == VOD then f.vodInclude else None
  }

  ghost function ExcludeFor(f: CompiledFilter, t: string): Option<string> {
    if t == LIVE then f.liveExclude else if t == SERIES then f.seriesExclude
    else if t == VOD then f.vodExclude else None
  }

  ghost predicate PassesPatterns(e: Engine, f: CompiledFilter, it: Item) {
    var t := TypeOf(e, f, it);
    && (IncludeFor(f, t).Some? ==> Hits(e, IncludeFor(f, t), it))
    && !Hits(e, ExcludeFor(f, t), it)
  }

  // ---- the stages, as the engine computes them -----------------------------------------

  function RuleSubjects(it: Item, group: string, field: string): seq<string> {
    if field == FIELD_GROUP then [group]
    else if field == FIELD_NAME then [it.name]
    else if field == FIELD_URL then [it.url]
    else [group, it.name, it.url]
  }

  method MatchesRule(e: Engine, rule: CompiledRule, it: Item, group: string) returns (r: bool)
    requires group == GroupOf(e.alphabet, it)
    ensures r == RuleMatches(e, rule, it)
  {
    var subjects := RuleSubjects(it, group, rule.field);
    for i := 0 to |subjects|
      invariant forall j :: 0 <= j < i ==> !RuleHit(e, rule, subjects[j])
    {
      if subjects[i] != "" && e.matches(rule.pattern, subjects[i]) {
        return true;
      }
    }
    assert subjects[0] == (if rule.field == FIELD_NAME then it.name else if rule.field == FIELD_URL then it.url else group);
    assert rule.field !in {FIELD_GROUP, FIELD_NAME, FIELD_URL} ==> subjects[1] == it.name && subjects[2] == it.url;
    return false;
  }

  /** What one walk adds to the match counter of rule i: every match when the
      walk goes on past the decision, only the deciding match otherwise. */
  ghost function MatchIncrement(e: Engine, rules: seq<CompiledRule>, it: Item, collectAll: bool, i: nat): nat
    requires i < |rules|
  {
    if RuleMatches(e, rules[i], it) && (collectAll || i == FirstMatch(e, rules, it)) then 1 else 0
  }

  /** Walks the rules in order; the first match decides. With collectAll the walk
      continues so that matched counts what later rules would have matched. */
  method RuleVerdict(e: Engine, rules: seq<CompiledRule>, it: Item, group: string, collectAll: bool, matched: array?<int>)
    returns (keep: bool, decidedBy: int, decided: bool)
    requires group == GroupOf(e.alphabet, it)
    requires matched != null ==> matched.Length == |rules|
    modifies matched
    ensures decidedBy == FirstMatch(e, rules, it)
    ensures decided <==> decidedBy >= 0
    ensures decided ==> keep == rules[decidedBy].includes
    ensures matched != null ==> forall i :: 0 <= i < |rules| ==>
              matched[i] == old(matched[i]) + MatchIncrement(e, rules, it, collectAll, i)
  {
    keep, decidedBy, decided := false, -1, false;
    for i := 0 to |rules|
      invariant -1 <= decidedBy < i
      invariant decided <==> decidedBy >= 0
      invariant decided ==> collectAll && keep == rules[decidedBy].includes && decidedBy == FirstMatch(e, rules, it)
      invariant !decided ==> forall j :: 0 <= j < i ==> !RuleMatches(e, rules[j], it)
      invariant matched != null ==> forall j :: 0 <= j < i ==>
                  matched[j] == old(matched[j]) + MatchIncrement(e, rules, it, collectAll, j)
      invariant matched != null ==> forall j :: i <= j < |rules| ==> matched[j] == old(matched[j])
    {
      var hit := MatchesRule(e, rules[i], it, group);
      if hit {
        if matched != null {
          matched[i] := matched[i] + 1;
        }
        if !decided {
          keep, decidedBy, decided := rules[i].includes, i, true;
          if !collectAll {
            return;
          }
        }
      }
    }
  }

  function SubjectValues(it: Item): seq<string> {
    [it.name, Attribute(it.attributes, GROUP_TITLE), Attribute(it.attributes, TVG_GROUP), it.url]
  }

  function Prepared(a: Alphabet, values: seq<string>): (r: seq<string>)
    ensures |r| == |values| && forall i :: 0 <= i < |r| ==> r[i] == a.Trim(a.Lower(values[i]))
  {
    seq(|values|, i requires 0 <= i < |values| => a.Trim(a.Lower(values[i])))
  }

  /** The strings a source pattern is tried on, blank ones left out. */
  function Subjects(a: Alphabet, it: Item): seq<string> {
    NonBlank(Prepared(a, SubjectValues(it)))
  }

  ghost predicate AnyMatch(e: Engine, pattern: string, subjects: seq<string>) {
    exists s :: s in subjects && e.matches(pattern, s)
  }

  lemma {:induction false} NonBlankElements(ws: seq<string>)
    ensures forall s :: s in NonBlank(ws) <==> s in ws && s != ""
  {
    if ws != [] {
      NonBlankElements(ws[1..]);
      assert forall s :: s in ws <==> s == ws[0] || s in ws[1..];
    }
  }

  lemma SubjectsAreTheProbes(e: Engine, pattern: string, it: Item)
    ensures AnyMatch(e, pattern, Subjects(e.alphabet, it)) <==> AnyProbe(e, pattern, it)
  {
    var values := SubjectValues(it);
    var prepared := Prepared(e.alphabet, values);
    NonBlankElements(prepared);
    assert forall i :: 0 <= i < 4 ==> prepared[i] in prepared;
    assert AnyProbe(e, pattern, it) <==> exists i :: 0 <= i < 4 && prepared[i] != "" && e.matches(pattern, prepared[i]) by {
      assert prepared[0] == e.alphabet.Trim(e.alphabet.Lower(it.name));
      assert prepared[1] == e.alphabet.Trim(e.alphabet.Lower(values[1]));
      assert prepared[2] == e.alphabet.Trim(e.alphabet.Lower(values[2]));
      assert prepared[3] == e.alphabet.Trim(e.alphabet.Lower(it.url));
    }
  }

  method MatchSubjects(a: Alphabet, it: Item) returns (subjects: seq<string>)
    ensures subjects == Subjects(a, it)
  {
    subjects := AddNonBlank(a, SubjectValues(it));
  }

  lemma NonBlankStep(before: seq<string>, ws: seq<string>, k: nat)
    requires k < |ws|
    ensures before + NonBlank(ws[k..]) == (if ws[k] == "" then before else before + [ws[k]]) + NonBlank(ws[k + 1..])
  {
    assert ws[k..][0] == ws[k] && ws[k..][1..] == ws[k + 1..];
  }

  method AddNonBlank(a: Alphabet, values: seq<string>) returns (subjects: seq<string>)
    ensures subjects == NonBlank(Prepared(a, values))
  {
    ghost var all := Prepared(a, values);
    assert all[0..] == all && NonBlank(all[|all|..]) == [];
    hide NonBlank, Prepared, Alphabet.Trim, Alphabet.Lower;
    subjects := [];
    for k := 0 to |values|
      invariant NonBlank(all) == subjects + NonBlank(all[k..])
    {
      NonBlankStep(subjects, all, k);
      var s := a.Trim(a.Lower(values[k]));
      if s != "" {
        subjects := subjects + [s];
      }
    }
  }

  method MatchesAny(e: Engine, pattern: string, subjects: seq<string>) returns (r: bool)
    ensures r == AnyMatch(e, pattern, subjects)
  {
    for i := 0 to |subjects|
      invariant forall j :: 0 <= j < i ==> !e.matches(pattern, subjects[j])
    {
      if e.matches(pattern, subjects[i]) {
        return true;
      }
    }
    return false;
  }

  /** A source pattern on the subjects of one stream. */
  method HitsAny(e: Engine, pattern: Option<string>, subjects: seq<string>, ghost it: Item) returns (r: bool)
    requires subjects == Subjects(e.alphabet, it)
    ensures r == Hits(e, pattern, it)
  {
    if pattern.None? {
      return false;
    }
    SubjectsAreTheProbes(e, pattern.value, it);
    r := MatchesAny(e, pattern.value, subjects);
  }

  method ResolveContentType(e: Engine, it: Item, f: CompiledFilter, subjects: seq<string>, groupKey: string) returns (t: string)
    requires groupKey == GroupKeyOf(e.alphabet, it)
    requires subjects == Subjects(e.alphabet, it)
    ensures t == TypeOf(e, f, it)
  {
    if groupKey in f.groupTypes {
      return f.groupTypes[groupKey];
    }
    var series := HitsAny(e, f.seriesCategory, subjects, it);
    if series {
      return SERIES;
    }
    var vod := HitsAny(e, f.vodCategory, subjects, it);
    if vod {
      return VOD;
    }
    var live := HitsAny(e, f.liveCategory, subjects, it);
    if live {
      return LIVE;
    }
    return ContentTypeOfStream(e, it);
  }

  method PassesGroupFilter(e: Engine, f: CompiledFilter, group: string, groupKey: string, ghost it: Item) returns (r: bool)
    requires group == GroupOf(e.alphabet, it) && groupKey == GroupKeyOf(e.alphabet, it)
    ensures r == PassesGroup(e, f, it)
  {
    if f.groupMode == MODE_OFF {
      return true;
    }
    var matched := groupKey in f.groupSet;
    if !matched && f.groupRegex.Some? {
      matched := e.matches(f.groupRegex.value, GroupSubject(e.alphabet, group));
    }
    if f.groupMode == MODE_EXCLUDE {
      return !matched;
    }
    return matched;
  }

  method ImportsType(f: CompiledFilter, contentType: string) returns (r: bool)
    ensures r <==> (f.importTypes.Some? ==> contentType in f.importTypes.value)
  {
    if f.importTypes.None? {
      return true;
    }
    return contentType in f.importTypes.value;
  }

  method ShouldIncludeStream(e: Engine, f: CompiledFilter, contentType: string, subjects: seq<string>, ghost it: Item)
    returns (r: bool)
    requires contentType == TypeOf(e, f, it)
    requires subjects == Subjects(e.alphabet, it)
    ensures r == PassesPatterns(e, f, it)
  {
    var wanted: Option<string> := None;
    var unwanted: Option<string> := None;
    if contentType == LIVE {
      wanted, unwanted := f.liveInclude, f.liveExclude;
    } else if contentType == SERIES {
      wanted, unwanted := f.seriesInclude, f.seriesExclude;
    } else if contentType == VOD {
      wanted, unwanted := f.vodInclude, f.vodExclude;
    }
    if wanted.Some? {
      var matchesInclude := HitsAny(e, wanted, subjects, it);
      if !matchesInclude {
        return false;
      }
    }
    var matchesExclude := HitsAny(e, unwanted, subjects, it);
    return !matchesExclude;
  }
}
