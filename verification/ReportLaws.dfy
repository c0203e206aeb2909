/** What a finished report says, counted on the verdicts themselves. */
module ReportLaws {
  import opened Text
  import opened Sorting
  import opened Config
  import opened Stages
  import opened Quality
  import opened Reports
  import Signatures
  import opened Manager
  import opened Pass
  import opened PassLaws
  import Policy = ImportPolicy

  // ---- choosing verdicts ---------------------------------------------------------------------------

  /** The verdicts that satisfy p, in order. */
  ghost function Chosen(vs: seq<Verdict>, p: Verdict -> bool): seq<Verdict> {
    if vs == [] then []
    else
      var n := |vs| - 1;
      Chosen(vs[..n], p) + (if p(vs[n]) then [vs[n]] else [])
  }

  ghost function Where(vs: seq<Verdict>, p: Verdict -> bool): set<int> {
    set i | 0 <= i < |vs| && p(vs[i])
  }

  lemma {:induction false} ChosenCount(vs: seq<Verdict>, p: Verdict -> bool)
    ensures |Chosen(vs, p)| == |Where(vs, p)|
  {
    if vs != [] {
      var n := |vs| - 1;
      ChosenCount(vs[..n], p);
      assert Where(vs, p) == Where(vs[..n], p) + (if p(vs[n]) then {n} else {});
    }
  }

  /** A chosen verdict stands where the number of chosen ones before it says. */
  lemma {:induction false} ChosenAt(vs: seq<Verdict>, p: Verdict -> bool, i: nat)
    requires i < |vs| && p(vs[i])
    ensures |Where(vs[..i], p)| < |Chosen(vs, p)| && Chosen(vs, p)[|Where(vs[..i], p)|] == vs[i]
  {
    var n := |vs| - 1;
    if i < n {
      ChosenAt(vs[..n], p, i);
      assert vs[..n][..i] == vs[..i];
    } else {
      ChosenCount(vs[..n], p);
    }
  }

  lemma {:induction false} ChosenTwice(vs: seq<Verdict>, p: Verdict -> bool, q: Verdict -> bool)
    ensures Chosen(Chosen(vs, p), q) == Chosen(vs, Both(p, q))
  {
    if vs != [] {
      var n := |vs| - 1;
      ChosenTwice(vs[..n], p, q);
      var before := Chosen(vs[..n], p);
      if p(vs[n]) {
        assert (before + [vs[n]])[..|before|] == before;
      } else {
        assert Chosen(vs, p) == before;
      }
    }
  }

  ghost function OfKey(a: Alphabet, key: string): Verdict -> bool {
    (v: Verdict) => GroupKey(a, v.group) == key
  }

  ghost function OfType(t: string): Verdict -> bool {
    (v: Verdict) => v.contentType == t
  }

  function Both(p: Verdict -> bool, q: Verdict -> bool): Verdict -> bool {
    (v: Verdict) => p(v) && q(v)
  }

  const IsKept: Verdict -> bool := (v: Verdict) => v.kept

  lemma ChosenObserved(a: Alphabet, vs: seq<Verdict>, p: Verdict -> bool)
    requires vs != []
    ensures var n := |vs| - 1;
            Observations(a, Chosen(vs, p))
            == Observations(a, Chosen(vs[..n], p)) + if p(vs[n]) then [ObservationOf(a, vs[n])] else []
  {
    hide GroupKey;
  }

  lemma PartsExtended(a: Alphabet, vs: seq<Verdict>, key: string, t: string)
    requires vs != []
    ensures var n := |vs| - 1;
            var v, before := vs[n], Observations(a, vs[..n]);
            var o := ObservationOf(a, v);
            && InGroup(Observations(a, vs), key) == InGroup(before, key) + (if GroupKey(a, v.group) == key then [o] else [])
            && InType(Observations(a, vs), t) == InType(before, t) + (if v.contentType == t then [o] else [])
            && KeptOf(Observations(a, vs)) == KeptOf(before) + (if v.kept then [o] else [])
  {
    hide GroupKey, Part, KeptOf;
    var n := |vs| - 1;
    Extended(Observations(a, vs[..n]), ObservationOf(a, vs[n]));
    assert Observations(a, vs) == Observations(a, vs[..n]) + [ObservationOf(a, vs[n])];
  }

  lemma {:induction false} PartsAreChosen(a: Alphabet, vs: seq<Verdict>, key: string, t: string)
    ensures InGroup(Observations(a, vs), key) == Observations(a, Chosen(vs, OfKey(a, key)))
    ensures InType(Observations(a, vs), t) == Observations(a, Chosen(vs, OfType(t)))
    ensures KeptOf(Observations(a, vs)) == Observations(a, Chosen(vs, IsKept))
  {
    if vs != [] {
      hide GroupKey, Part, KeptOf, Chosen, Observations, ObservationOf;
      PartsAreChosen(a, vs[..|vs| - 1], key, t);
      PartsExtended(a, vs, key, t);
      ChosenObserved(a, vs, OfKey(a, key));
      ChosenObserved(a, vs, OfType(t));
      ChosenObserved(a, vs, IsKept);
    }
  }

  /** How many verdicts are of a type, how many of those are kept, and the same of
      one group. */
  lemma CountsAreCounts(a: Alphabet, vs: seq<Verdict>, key: string, t: string)
    ensures var obs := Observations(a, vs);
            && |KeptOf(obs)| == |Where(vs, IsKept)|
            && |InType(obs, t)| == |Where(vs, OfType(t))|
            && |KeptOf(InType(obs, t))| == |Where(vs, Both(OfType(t), IsKept))|
            && |InGroup(obs, key)| == |Where(vs, OfKey(a, key))|
            && |KeptOf(InGroup(obs, key))| == |Where(vs, Both(OfKey(a, key), IsKept))|
            && |InType(InGroup(obs, key), t)| == |Where(vs, Both(OfKey(a, key), OfType(t)))|
  {
    hide GroupKey, Chosen, Observations, KeptOf, Part, OfKey, OfType, Both, Where, IsKept;
    var mine, typed := Chosen(vs, OfKey(a, key)), Chosen(vs, OfType(t));
    PartsAreChosen(a, vs, key, t);
    PartsAreChosen(a, mine, key, t);
    PartsAreChosen(a, typed, key, t);
    ChosenTwice(vs, OfKey(a, key), IsKept);
    ChosenTwice(vs, OfType(t), IsKept);
    ChosenTwice(vs, OfKey(a, key), OfType(t));
    ChosenCount(vs, IsKept);
    ChosenCount(vs, OfType(t));
    ChosenCount(vs, OfKey(a, key));
    ChosenCount(vs, Both(OfKey(a, key), IsKept));
    ChosenCount(vs, Both(OfType(t), IsKept));
    ChosenCount(vs, Both(OfKey(a, key), OfType(t)));
  }

  // ---- the totals -----------------------------------------------------------------------------------

  /** Every stream and every kept one is counted, in all and by type, live, vod and
      series always and another type when a stream has it; the names of the first
      forty kept streams are there. */
  ghost predicate TotalsTold(vs: seq<Verdict>, r: Report)
    reads r
  {
    var keeps := Where(vs, IsKept);
    && r.total == |vs| && r.kept == |keeps|
    && (forall t :: t in r.byType <==> t in {"live", "vod", "series"} || exists i :: 0 <= i < |vs| && vs[i].contentType == t)
    && (forall t :: t in r.byType ==>
          && r.byType[t].total == |Where(vs, OfType(t))|
          && r.byType[t].kept == |Where(vs, Both(OfType(t), IsKept))|)
    && |r.keptSamples| == (if |keeps| < 40 then |keeps| else 40)
    && (forall i :: i in keeps ==>
          var k := |Where(vs[..i], IsKept)|;
          k < |r.keptSamples| ==> r.keptSamples[k] == vs[i].name)
  }

  lemma SampleAt(a: Alphabet, vs: seq<Verdict>, p: Verdict -> bool, n: nat, i: nat)
    requires i < |vs| && p(vs[i])
    ensures var samples, k := First(n, Names(Observations(a, Chosen(vs, p)))), |Where(vs[..i], p)|;
            && |samples| == (if |Where(vs, p)| < n then |Where(vs, p)| else n)
            && (k < |samples| ==> samples[k] == vs[i].name)
  {
    hide GroupKey, Chosen;
    ChosenAt(vs, p, i);
    ChosenCount(vs, p);
  }

  lemma SamplesMany(a: Alphabet, vs: seq<Verdict>, p: Verdict -> bool, n: nat)
    ensures |First(n, Names(Observations(a, Chosen(vs, p))))| == (if |Where(vs, p)| < n then |Where(vs, p)| else n)
  {
    hide GroupKey, Chosen;
    ChosenCount(vs, p);
  }

  lemma TypesAreTold(a: Alphabet, vs: seq<Verdict>, byType: map<string, TypeStat>)
    requires TypesOf(byType, Observations(a, vs))
    ensures forall t :: t in byType <==> t in {"live", "vod", "series"} || exists i :: 0 <= i < |vs| && vs[i].contentType == t
    ensures forall t :: t in byType ==>
              && byType[t].total == |Where(vs, OfType(t))|
              && byType[t].kept == |Where(vs, Both(OfType(t), IsKept))|
  {
    hide GroupKey, Part, KeptOf, Observations;
    forall t
      ensures t in byType <==> t in {"live", "vod", "series"} || exists i :: 0 <= i < |vs| && vs[i].contentType == t
      ensures t in byType ==>
                && byType[t].total == |Where(vs, OfType(t))|
                && byType[t].kept == |Where(vs, Both(OfType(t), IsKept))|
    {
      CountsAreCounts(a, vs, "", t);
      PartNonEmpty(Observations(a, vs), ByType, t);
      TypedObservations(a, vs, t);
      NoneKeptOfNone(InType(Observations(a, vs), t));
    }
  }

  lemma NoneKeptOfNone(obs: seq<Observation>)
    ensures obs == [] ==> KeptOf(obs) == []
  {
  }

  lemma TypedObservations(a: Alphabet, vs: seq<Verdict>, t: string)
    ensures (exists i :: 0 <= i < |Observations(a, vs)| && LabelOf(ByType, Observations(a, vs)[i]) == t)
            <==> exists i :: 0 <= i < |vs| && vs[i].contentType == t
  {
    hide GroupKey;
    var obs := Observations(a, vs);
    assert forall i :: 0 <= i < |vs| ==> (LabelOf(ByType, obs[i]) == t <==> vs[i].contentType == t);
  }

  lemma TotalsAreTold(a: Alphabet, vs: seq<Verdict>, r: Report)
    requires r.Valid() && r.seen == Observations(a, vs)
    ensures TotalsTold(vs, r)
  {
    hide GroupKey, Part, KeptOf, First, Chosen, TypesOf, Observations, Report.GroupsOf;
    var obs := Observations(a, vs);
    TypesAreTold(a, vs, r.byType);
    CountsAreCounts(a, vs, "", "");
    PartsAreChosen(a, vs, "", "");
    SamplesMany(a, vs, IsKept, 40);
    var keeps := Where(vs, IsKept);
    forall i | i in keeps
      ensures var k := |Where(vs[..i], IsKept)|;
              k < |r.keptSamples| ==> r.keptSamples[k] == vs[i].name
    {
      SampleAt(a, vs, IsKept, 40, i);
    }
  }

  // ---- the groups -----------------------------------------------------------------------------------------

  /** One group: the label of its first stream, how many streams it has and keeps,
      the names of its first three, and the type most of them have, live before vod
      before series where numbers are equal. */
  ghost predicate GroupTold(a: Alphabet, vs: seq<Verdict>, g: GroupStat)
    reads g
  {
    GroupSays(a, vs, g.name, g.contentType, g.total, g.kept, g.samples)
  }

  ghost predicate GroupSays(a: Alphabet, vs: seq<Verdict>, name: string, contentType: string, total: nat, kept: nat,
                            samples: seq<string>)
  {
    var key := GroupKey(a, name);
    var mine := Where(vs, OfKey(a, key));
    var live, vod := |Where(vs, Both(OfKey(a, key), OfType("live")))|, |Where(vs, Both(OfKey(a, key), OfType("vod")))|;
    var series := |Where(vs, Both(OfKey(a, key), OfType("series")))|;
    && (exists i :: i in mine && name == vs[i].group && forall j :: j in mine ==> i <= j)
    && total == |mine| && kept == |Where(vs, Both(OfKey(a, key), IsKept))|
    && SamplesAre(a, vs, key, samples)
    && contentType == (if live >= vod && live >= series then "live" else if vod >= series then "vod" else "series")
  }

  /** The names of the first three streams of the group. */
  ghost predicate SamplesAre(a: Alphabet, vs: seq<Verdict>, key: string, samples: seq<string>) {
    var mine := Where(vs, OfKey(a, key));
    && |samples| == (if |mine| < 3 then |mine| else 3)
    && (forall i :: i in mine ==>
          var k := |Where(vs[..i], OfKey(a, key))|;
          k < |samples| ==> samples[k] == vs[i].name)
  }

  lemma FirstOfGroup(a: Alphabet, vs: seq<Verdict>, key: string) returns (i: nat)
    requires InGroup(Observations(a, vs), key) != []
    ensures i < |vs| && GroupKey(a, vs[i].group) == key && InGroup(Observations(a, vs), key)[0].group == vs[i].group
    ensures forall j :: 0 <= j < |vs| && GroupKey(a, vs[j].group) == key ==> i <= j
  {
    hide GroupKey, Part, Chosen;
    PartsAreChosen(a, vs, key, "");
    i := FirstChosen(vs, OfKey(a, key));
  }

  lemma {:induction false} FirstChosen(vs: seq<Verdict>, p: Verdict -> bool) returns (i: nat)
    requires Chosen(vs, p) != []
    ensures i < |vs| && p(vs[i]) && Chosen(vs, p)[0] == vs[i] && forall j :: 0 <= j < i ==> !p(vs[j])
  {
    var n := |vs| - 1;
    if Chosen(vs[..n], p) != [] {
      i := FirstChosen(vs[..n], p);
      assert forall j :: 0 <= j < n ==> vs[..n][j] == vs[j];
    } else {
      i := n;
      ChosenCount(vs[..n], p);
      assert Where(vs[..n], p) == {};
      assert forall j :: 0 <= j < n && p(vs[..n][j]) ==> j in Where(vs[..n], p);
      assert forall j :: 0 <= j < n ==> vs[..n][j] == vs[j];
    }
  }

  lemma GroupSamples(a: Alphabet, vs: seq<Verdict>, key: string, samples: seq<string>)
    requires samples == First(3, Names(InGroup(Observations(a, vs), key)))
    ensures SamplesAre(a, vs, key, samples)
  {
    hide GroupKey, Part, First, Chosen, Observations;
    PartsAreChosen(a, vs, key, "");
    SamplesMany(a, vs, OfKey(a, key), 3);
    forall i | i in Where(vs, OfKey(a, key))
      ensures var k := |Where(vs[..i], OfKey(a, key))|;
              k < |samples| ==> samples[k] == vs[i].name
    {
      SampleAt(a, vs, OfKey(a, key), 3, i);
    }
  }

  /** What the counters of a group hold. */
  ghost predicate GroupHolds(obs: seq<Observation>, name: string, contentType: string, total: nat, kept: nat, samples: seq<string>) {
    && obs != [] && name == obs[0].group && total == |obs| && kept == |KeptOf(obs)| && samples == First(3, Names(obs))
    && IsDominant(contentType, |InType(obs, LIVE)|, |InType(obs, VOD)|, |InType(obs, SERIES)|)
  }

  lemma GroupHasThem(r: Report, m: nat)
    requires r.Valid() && r.Settled() && m < |r.groups|
    ensures var g := r.groups[m];
            && |r.keys| == |r.groups|
            && GroupHolds(InGroup(r.seen, r.keys[m]), g.name, g.contentType, g.total, g.kept, g.samples)
  {
    hide GroupKey, Part, KeptOf, First, Report.TotalsOf;
  }

  lemma GroupSaid(a: Alphabet, vs: seq<Verdict>, name: string, contentType: string, total: nat, kept: nat, samples: seq<string>)
    requires GroupHolds(InGroup(Observations(a, vs), GroupKey(a, name)), name, contentType, total, kept, samples)
    ensures GroupSays(a, vs, name, contentType, total, kept, samples)
  {
    hide GroupKey, Part, KeptOf, First, Observations, SamplesAre, Both, OfType, IsKept;
    var key := GroupKey(a, name);
    var first := FirstOfGroup(a, vs, key);
    CountsAreCounts(a, vs, key, "live");
    CountsAreCounts(a, vs, key, "vod");
    CountsAreCounts(a, vs, key, "series");
    GroupSamples(a, vs, key, samples);
    assert first in Where(vs, OfKey(a, key));
  }

  lemma GroupIsTold(a: Alphabet, vs: seq<Verdict>, r: Report, m: nat)
    requires r.Valid() && r.Settled() && r.seen == Observations(a, vs) && m < |r.groups|
    ensures GroupTold(a, vs, r.groups[m])
  {
    hide GroupHolds, GroupSays, GroupKey, Part, Observations, Report.Valid, Report.Settled;
    GroupHasThem(r, m);
    NameHasKey(a, r, vs, m);
    var g := r.groups[m];
    GroupSaid(a, vs, g.name, g.contentType, g.total, g.kept, g.samples);
  }

  /** Every stream's group is listed, once, and the larger come first, those of one
      size by name. */
  ghost predicate GroupsListed(a: Alphabet, vs: seq<Verdict>, r: Report)
    reads r, r.groups
  {
    && (forall i :: 0 <= i < |vs| ==>
          exists m :: 0 <= m < |r.groups| && GroupKey(a, r.groups[m].name) == GroupKey(a, vs[i].group))
    && (forall m, n :: 0 <= m < n < |r.groups| ==>
          && GroupKey(a, r.groups[m].name) != GroupKey(a, r.groups[n].name)
          && r.groups[m].total >= r.groups[n].total
          && (r.groups[m].total == r.groups[n].total ==> StringLeq(r.groups[m].name, r.groups[n].name)))
  }

  lemma GroupsAreListed(a: Alphabet, vs: seq<Verdict>, r: Report)
    requires r.Valid() && r.Ordered() && r.seen == Observations(a, vs)
    ensures GroupsListed(a, vs, r)
  {
    hide GroupKey, Part, GroupStat.Describes, Report.TotalsOf, StringLeq;
    forall i | 0 <= i < |vs|
      ensures exists m :: 0 <= m < |r.groups| && GroupKey(a, r.groups[m].name) == GroupKey(a, vs[i].group)
    {
      var key := GroupKey(a, vs[i].group);
      assert r.seen[i].key == key;
      var m :| 0 <= m < |r.keys| && r.keys[m] == key;
      NameHasKey(a, r, vs, m);
    }
    forall m, n | 0 <= m < n < |r.groups|
      ensures GroupKey(a, r.groups[m].name) != GroupKey(a, r.groups[n].name)
    {
      NameHasKey(a, r, vs, m);
      NameHasKey(a, r, vs, n);
    }
    assert forall m, n :: 0 <= m < n < |r.groups| ==> RankLeq(RankOf(r.groups[m]), RankOf(r.groups[n]));
  }

  // ---- the rules -----------------------------------------------------------------------------------------

  /** Every rule that compiles is listed with its own words, where it is from, how
      many streams it decided and, with rule statistics, how many it matches. */
  ghost predicate RulesTold(e: Engine, rs: RuleSet, items: seq<Item>, ruleStats: bool, stats: seq<RuleStat>)
    requires |rs.origins| == |rs.rules|
  {
    && |stats| == Policy.CountCompiling(e, rs.rules)
    && forall k :: 0 <= k < |rs.rules| && Policy.Works(e, rs.rules[k]) ==> RuleTold(e, rs, items, ruleStats, stats, k)
  }

  ghost predicate RuleTold(e: Engine, rs: RuleSet, items: seq<Item>, ruleStats: bool, stats: seq<RuleStat>, k: nat)
    requires |rs.origins| == |rs.rules| && k < |rs.rules|
  {
    var m, rule := Policy.CountCompiling(e, rs.rules[..k]), rs.rules[k];
    var decided := |set i | 0 <= i < |items| && Policy.Decides(e, rs.rules, items[i], GroupOf(e.alphabet, items[i]), k)|;
    var matched := |set i | 0 <= i < |items| && Policy.RuleTouches(e, rule, items[i], GroupOf(e.alphabet, items[i]))|;
    && m < |stats|
    && stats[m] == RuleStat(m + 1, rs.origins[k], rule.field, rule.action, rule.pattern, rule.note,
                            if ruleStats then matched else decided, decided)
  }

  ghost predicate DecidedBy(e: Engine, rules: seq<CompiledRule>, it: Item, k: int) {
    FirstMatch(e, rules, it) == k
  }

  ghost function DecidedAt(e: Engine, rules: seq<CompiledRule>, items: seq<Item>, k: int): set<int> {
    set i | 0 <= i < |items| && DecidedBy(e, rules, items[i], k)
  }

  lemma CountDecidedStep(e: Engine, rules: seq<CompiledRule>, items: seq<Item>, k: int)
    requires items != []
    ensures var n := |items| - 1;
            CountDecided(e, rules, items, k)
            == CountDecided(e, rules, items[..n], k) + if DecidedBy(e, rules, items[n], k) then 1 else 0
  {
  }

  lemma DecidedOneMore(e: Engine, rules: seq<CompiledRule>, items: seq<Item>, k: int)
    requires items != []
    ensures var n := |items| - 1;
            |DecidedAt(e, rules, items, k)|
            == |DecidedAt(e, rules, items[..n], k)| + if DecidedBy(e, rules, items[n], k) then 1 else 0
  {
    hide DecidedBy;
    var n := |items| - 1;
    var now, before := DecidedAt(e, rules, items, k), DecidedAt(e, rules, items[..n], k);
    if DecidedBy(e, rules, items[n], k) {
      assert now == before + {n};
    } else {
      assert now == before;
    }
  }

  lemma {:induction false} CountDecidedIs(e: Engine, rules: seq<CompiledRule>, items: seq<Item>, k: int)
    ensures CountDecided(e, rules, items, k) == |DecidedAt(e, rules, items, k)|
  {
    if items != [] {
      hide DecidedBy, DecidedAt, CountDecided;
      CountDecidedIs(e, rules, items[..|items| - 1], k);
      CountDecidedStep(e, rules, items, k);
      DecidedOneMore(e, rules, items, k);
    }
  }

  ghost function MatchedAt(e: Engine, rule: CompiledRule, items: seq<Item>): set<int> {
    set i | 0 <= i < |items| && RuleMatches(e, rule, items[i])
  }

  lemma {:induction false} CountMatchedIs(e: Engine, rules: seq<CompiledRule>, items: seq<Item>, k: nat)
    requires k < |rules|
    ensures CountMatched(e, rules, items, k) == |MatchedAt(e, rules[k], items)|
  {
    hide RuleMatches;
    if items != [] {
      var n := |items| - 1;
      CountMatchedIs(e, rules, items[..n], k);
      var now, before := MatchedAt(e, rules[k], items), MatchedAt(e, rules[k], items[..n]);
      if RuleMatches(e, rules[k], items[n]) {
        assert now == before + {n};
      } else {
        assert now == before;
      }
    }
  }

  lemma DecidesIsFirst(e: Engine, rs: RuleSet, it: Item, k: nat)
    requires |rs.origins| == |rs.rules| && k < |rs.rules| && Policy.Works(e, rs.rules[k])
    ensures FirstMatch(e, CompiledRules(e, rs.rules, rs.origins), it) == Policy.CountCompiling(e, rs.rules[..k])
            <==> Policy.Decides(e, rs.rules, it, GroupOf(e.alphabet, it), k)
  {
    hide FirstMatch, CompiledRules, Policy.CountCompiling, GroupOf, CompiledOf, Policy.RuleTouches;
    var group := GroupOf(e.alphabet, it);
    var l := Policy.RulesDecide(e, rs.rules, rs.origins, it);
    if Policy.Decides(e, rs.rules, it, group, k) {
      Policy.NumberOfRule(e, rs.rules, rs.origins, it, k);
    } else if FirstMatch(e, CompiledRules(e, rs.rules, rs.origins), it) >= 0 {
      Policy.NumberOfRule(e, rs.rules, rs.origins, it, l);
      TouchingWorks(e, rs.rules[l], it, group);
      if k < l {
        Policy.RulePlacesGrow(e, rs.rules, k, l);
      } else {
        Policy.RulePlacesGrow(e, rs.rules, l, k);
      }
    }
  }

  lemma TouchingWorks(e: Engine, rule: FilterRule, it: Item, group: string)
    ensures Policy.RuleTouches(e, rule, it, group) ==> Policy.Works(e, rule)
  {
  }

  lemma RulesAreTold(e: Engine, f: CompiledFilter, rs: RuleSet, items: seq<Item>, ruleStats: bool, r: Report)
    requires |rs.origins| == |rs.rules| && f.rules == CompiledRules(e, rs.rules, rs.origins)
    requires r.RulesFinished(e, f, items, ruleStats)
    ensures RulesTold(e, rs, items, ruleStats, r.rules)
    ensures r.defaultDecided
            == if Policy.CountCompiling(e, rs.rules) == 0 then 0
               else (|set i | 0 <= i < |items| && UntouchedBy(e, rs.rules, items[i])|)
  {
    hide CompiledRules, FirstMatch, CountDecided, CountMatched, RuleMatches, GroupOf, Policy.CountCompiling, Policy.Works,
      Policy.Decides, Policy.RuleTouches, RulePattern, RuleTold;
    Policy.CompiledLength(e, rs.rules, rs.origins);
    forall k | 0 <= k < |rs.rules| && Policy.Works(e, rs.rules[k])
      ensures RuleTold(e, rs, items, ruleStats, r.rules, k)
    {
      Policy.RulePlace(e, rs.rules, rs.origins, k);
      OneRuleTold(e, rs, items, ruleStats, r.rules, k);
    }
    CountDecidedIs(e, f.rules, items, -1);
    UndecidedIs(e, rs, items);
  }

  ghost predicate UntouchedBy(e: Engine, rules: seq<FilterRule>, it: Item) {
    forall k :: 0 <= k < |rules| ==> !Policy.RuleTouches(e, rules[k], it, GroupOf(e.alphabet, it))
  }

  lemma UndecidedIs(e: Engine, rs: RuleSet, items: seq<Item>)
    requires |rs.origins| == |rs.rules|
    ensures DecidedAt(e, CompiledRules(e, rs.rules, rs.origins), items, -1)
            == set i | 0 <= i < |items| && UntouchedBy(e, rs.rules, items[i])
  {
    hide CompiledRules, FirstMatch, GroupOf, Policy.RuleTouches, CompiledOf;
    forall i | 0 <= i < |items|
      ensures FirstMatch(e, CompiledRules(e, rs.rules, rs.origins), items[i]) == -1
              <==> UntouchedBy(e, rs.rules, items[i])
    {
      var k := Policy.RulesDecide(e, rs.rules, rs.origins, items[i]);
    }
  }

  lemma OneRuleTold(e: Engine, rs: RuleSet, items: seq<Item>, ruleStats: bool, stats: seq<RuleStat>, k: nat)
    requires |rs.origins| == |rs.rules| && k < |rs.rules| && Policy.Works(e, rs.rules[k])
    requires var rules, m := CompiledRules(e, rs.rules, rs.origins), Policy.CountCompiling(e, rs.rules[..k]);
             && m < |rules| == |stats| && rules[m] == CompiledOf(rs.rules[k], rs.origins[k])
             && var decided := CountDecided(e, rules, items, m);
                stats[m] == RuleStatOf(rules[m], m, if ruleStats then CountMatched(e, rules, items, m) else decided, decided)
    ensures RuleTold(e, rs, items, ruleStats, stats, k)
  {
    hide CompiledRules, FirstMatch, CountDecided, CountMatched, RuleMatches, GroupOf, Policy.CountCompiling,
      Policy.Decides, Policy.RuleTouches, RulePattern;
    var rules, m := CompiledRules(e, rs.rules, rs.origins), Policy.CountCompiling(e, rs.rules[..k]);
    CountDecidedIs(e, rules, items, m);
    CountMatchedIs(e, rules, items, m);
    Policy.PatternWorks(e, rs.rules[k]);
    forall i | 0 <= i < |items|
      ensures FirstMatch(e, rules, items[i]) == m <==> Policy.Decides(e, rs.rules, items[i], GroupOf(e.alphabet, items[i]), k)
      ensures RuleMatches(e, rules[m], items[i]) <==> Policy.RuleTouches(e, rs.rules[k], items[i], GroupOf(e.alphabet, items[i]))
    {
      DecidesIsFirst(e, rs, items[i], k);
      Policy.RuleTouchesIsMatch(e, rs.rules[k], rs.origins[k], items[i]);
    }
    assert DecidedAt(e, rules, items, m)
        == set i | 0 <= i < |items| && Policy.Decides(e, rs.rules, items[i], GroupOf(e.alphabet, items[i]), k);
    assert MatchedAt(e, rules[m], items)
        == set i | 0 <= i < |items| && Policy.RuleTouches(e, rs.rules[k], items[i], GroupOf(e.alphabet, items[i]));
  }

  // ---- the report of a pass ----------------------------------------------------------------------------------

  lemma {:induction false} QualityCount(vs: seq<Verdict>, n: nat)
    requires n <= |vs|
    ensures CountStage(vs, STAGE_QUALITY, n) == (|set i | 0 <= i < n && vs[i].stage == "quality"|)
  {
    if n > 0 {
      QualityCount(vs, n - 1);
      var now, before := set i | 0 <= i < n && vs[i].stage == "quality", set i | 0 <= i < n - 1 && vs[i].stage == "quality";
      if vs[n - 1].stage == "quality" {
        assert now == before + {n - 1};
      } else {
        assert now == before;
      }
    }
  }

  /** The report of a pass, counted on its verdicts: the totals, every group in its
      place, every rule, what the default decided, and what went for a better
      variant; with the verdicts themselves when they were asked for. */
  lemma FinishedReportTells(e: Engine, s: Source, rs: RuleSet, items: seq<Item>, opts: Options, r: Report)
    requires e.Lawful() && |rs.origins| == |rs.rules| && Reported(e, Compiled(e, s, rs), items, opts, r)
    ensures var vs := Verdicts(e, Compiled(e, s, rs), items);
            && TotalsTold(vs, r) && GroupsListed(e.alphabet, vs, r)
            && (forall m :: 0 <= m < |r.groups| ==> GroupTold(e.alphabet, vs, r.groups[m]))
            && RulesTold(e, rs, items, opts.ruleStats, r.rules)
            && r.qualityDropped == (|set i | 0 <= i < |vs| && vs[i].stage == "quality"|)
            && r.defaultDecided == (if Policy.CountCompiling(e, rs.rules) == 0 then 0
                                    else |set i | 0 <= i < |items| && UntouchedBy(e, rs.rules, items[i])|)
            && r.verdicts == (if opts.verdicts then vs else [])
  {
    hide *;
    var f := Compiled(e, s, rs);
    var vs := Verdicts(e, f, items);
    ReportedHas(e, f, items, opts, r);
    RulesOfCompiled(e, s, rs);
    TotalsAreTold(e.alphabet, vs, r);
    GroupsAreListed(e.alphabet, vs, r);
    forall m | 0 <= m < |r.groups|
      ensures GroupTold(e.alphabet, vs, r.groups[m])
    {
      GroupIsTold(e.alphabet, vs, r, m);
    }
    RulesAreTold(e, f, rs, items, opts.ruleStats, r);
    QualityCounterCounts(e, f, items, |items|);
    QualityCount(vs, |vs|);
  }

  lemma RulesOfCompiled(e: Engine, s: Source, rs: RuleSet)
    requires |rs.origins| == |rs.rules|
    ensures Compiled(e, s, rs).rules == CompiledRules(e, rs.rules, rs.origins)
  {
    hide CompiledRules, Signatures.Signature, CompiledTiers;
  }

  lemma ReportedHas(e: Engine, f: CompiledFilter, items: seq<Item>, opts: Options, r: Report)
    requires e.Lawful() && Reported(e, f, items, opts, r)
    ensures r.Valid() && r.Ordered() && r.Settled() && r.RulesFinished(e, f, items, opts.ruleStats)
    ensures var vs := Verdicts(e, f, items);
            && r.seen == Observations(e.alphabet, vs) && r.verdicts == (if opts.verdicts then vs else []) && |vs| == |items|
    ensures r.qualityDropped == CountBeaten(ItemMarks(e, f, items), |items|)
  {
    hide Verdicts, Report.Valid, Report.Ordered, Report.Settled, Report.RulesFinished;
  }
}
