/** The report of one pass: every counter is tied to the streams observed. */
module Reports {
  import opened Sorting
  import opened Config
  import opened Stages

  const MAX_GROUP_SAMPLES := 3
  const MAX_KEPT_SAMPLES := 40

  /** One stream as the report is told of it. */
  datatype Observation = Observation(group: string, key: string, contentType: string, name: string, kept: bool)

  datatype TypeStat = TypeStat(total: nat, kept: nat)

  datatype RuleStat = RuleStat(index: int, origin: string, field: string, action: string,
                               pattern: string, note: string, matched: int, decided: int)

  /** One stream's outcome in a pass. */
  datatype Verdict = Verdict(name: string, group: string, contentType: string, kept: bool, stage: string, rule: nat)

  // ---- the observations behind a counter ---------------------------------------------

  /** What a report divides the streams by. */
  datatype Axis = ByGroup | ByType

  function LabelOf(axis: Axis, o: Observation): string {
    match axis
    case ByGroup => o.key
    case ByType => o.contentType
  }

  /** The observations that carry the given label on an axis, in order. */
  function Part(seen: seq<Observation>, axis: Axis, name: string): seq<Observation> {
    if seen == [] then []
    else
      var last := seen[|seen| - 1];
      Part(seen[..|seen| - 1], axis, name) + (if LabelOf(axis, last) == name then [last] else [])
  }

  function InGroup(seen: seq<Observation>, key: string): seq<Observation> {
    Part(seen, ByGroup, key)
  }

  function InType(seen: seq<Observation>, t: string): seq<Observation> {
    Part(seen, ByType, t)
  }

  function KeptOf(seen: seq<Observation>): seq<Observation> {
    if seen == [] then []
    else
      var last := seen[|seen| - 1];
      KeptOf(seen[..|seen| - 1]) + (if last.kept then [last] else [])
  }

  function Names(seen: seq<Observation>): (r: seq<string>)
    ensures |r| == |seen|
  {
    seq(|seen|, i requires 0 <= i < |seen| => seen[i].name)
  }

  function First<T>(n: nat, xs: seq<T>): seq<T> {
    if |xs| <= n then xs else xs[..n]
  }

  lemma PartExtended(seen: seq<Observation>, axis: Axis, o: Observation)
    ensures forall k :: Part(seen + [o], axis, k) == if LabelOf(axis, o) == k then Part(seen, axis, k) + [o] else Part(seen, axis, k)
  {
    var all := seen + [o];
    assert all[..|all| - 1] == seen;
    assert forall xs: seq<Observation> :: xs + [] == xs;
  }

  lemma Extended(seen: seq<Observation>, o: Observation)
    ensures forall k :: InGroup(seen + [o], k) == if o.key == k then InGroup(seen, k) + [o] else InGroup(seen, k)
    ensures forall t :: InType(seen + [o], t) == if o.contentType == t then InType(seen, t) + [o] else InType(seen, t)
    ensures KeptOf(seen + [o]) == if o.kept then KeptOf(seen) + [o] else KeptOf(seen)
    ensures Names(seen + [o]) == Names(seen) + [o.name]
  {
    PartExtended(seen, ByGroup, o);
    PartExtended(seen, ByType, o);
    var all := seen + [o];
    assert all[..|all| - 1] == seen;
    assert forall xs: seq<Observation> :: xs + [] == xs;
  }

  lemma {:induction false} PartNonEmpty(seen: seq<Observation>, axis: Axis, name: string)
    ensures Part(seen, axis, name) != [] <==> exists i :: 0 <= i < |seen| && LabelOf(axis, seen[i]) == name
  {
    if seen != [] {
      var n := |seen| - 1;
      PartNonEmpty(seen[..n], axis, name);
      if exists i :: 0 <= i < |seen| && LabelOf(axis, seen[i]) == name {
        var i :| 0 <= i < |seen| && LabelOf(axis, seen[i]) == name;
        if i < n { assert seen[..n][i] == seen[i]; }
      }
    }
  }

  lemma FirstExtended<T>(n: nat, xs: seq<T>, x: T)
    ensures First(n, xs + [x]) == if |First(n, xs)| < n then First(n, xs) + [x] else First(n, xs)
  {
  }

  lemma GroupsExtended(seen: seq<Observation>, o: Observation)
    ensures forall k {:trigger InGroup(seen + [o], k)} ::
              InGroup(seen + [o], k) == if o.key == k then InGroup(seen, k) + [o] else InGroup(seen, k)
  {
    PartExtended(seen, ByGroup, o);
  }

  lemma KeptExtended(obs: seq<Observation>, o: Observation)
    ensures |KeptOf(obs + [o])| == |KeptOf(obs)| + if o.kept then 1 else 0
    ensures First(MAX_KEPT_SAMPLES, Names(KeptOf(obs + [o])))
            == if o.kept && |First(MAX_KEPT_SAMPLES, Names(KeptOf(obs)))| < MAX_KEPT_SAMPLES
               then First(MAX_KEPT_SAMPLES, Names(KeptOf(obs))) + [o.name]
               else First(MAX_KEPT_SAMPLES, Names(KeptOf(obs)))
  {
    Extended(obs, o);
    Extended(KeptOf(obs), o);
    FirstExtended(MAX_KEPT_SAMPLES, Names(KeptOf(obs)), o.name);
  }

  /** What the counters of a type must say. */
  ghost function StatOf(obs: seq<Observation>, t: string): TypeStat {
    TypeStat(|InType(obs, t)|, |KeptOf(InType(obs, t))|)
  }

  lemma StatExtended(obs: seq<Observation>, o: Observation)
    ensures forall t :: StatOf(obs + [o], t) ==
              if o.contentType == t then TypeStat(StatOf(obs, t).total + 1, StatOf(obs, t).kept + if o.kept then 1 else 0)
              else StatOf(obs, t)
  {
    Extended(obs, o);
    Extended(InType(obs, o.contentType), o);
  }

  ghost predicate TypesOf(byType: map<string, TypeStat>, obs: seq<Observation>) {
    && (forall t :: t in byType ==> byType[t] == StatOf(obs, t))
    && (forall t :: t in byType <==> IsContentTypeName(t) || StatOf(obs, t) != TypeStat(0, 0))
  }

  method CountType(byType: map<string, TypeStat>, o: Observation, ghost obs: seq<Observation>)
    returns (r: map<string, TypeStat>)
    requires TypesOf(byType, obs)
    ensures TypesOf(r, obs + [o])
    ensures r.Keys == byType.Keys + {o.contentType}
  {
    hide StatOf;
    StatExtended(obs, o);
    var stat := if o.contentType in byType then byType[o.contentType] else TypeStat(0, 0);
    stat := stat.(total := stat.total + 1);
    if o.kept {
      stat := stat.(kept := stat.kept + 1);
    }
    r := byType[o.contentType := stat];
  }

  ghost predicate Totals(total: nat, kept: nat, byType: map<string, TypeStat>, samples: seq<string>, obs: seq<Observation>) {
    && total == |obs| && kept == |KeptOf(obs)|
    && samples == First(MAX_KEPT_SAMPLES, Names(KeptOf(obs)))
    && LIVE in byType && VOD in byType && SERIES in byType
    && TypesOf(byType, obs)
  }

  lemma TotalsExtended(total: nat, kept: nat, byType: map<string, TypeStat>, samples: seq<string>,
                       byType': map<string, TypeStat>, obs: seq<Observation>, o: Observation)
    requires Totals(total, kept, byType, samples, obs)
    requires TypesOf(byType', obs + [o]) && byType.Keys <= byType'.Keys
    ensures !o.kept ==> Totals(total + 1, kept, byType', samples, obs + [o])
    ensures o.kept && |samples| < MAX_KEPT_SAMPLES ==> Totals(total + 1, kept + 1, byType', samples + [o.name], obs + [o])
    ensures o.kept && |samples| >= MAX_KEPT_SAMPLES ==> Totals(total + 1, kept + 1, byType', samples, obs + [o])
  {
    KeptExtended(obs, o);
  }

  // ---- conservation ---------------------------------------------------------------------

  ghost function SumParts(seen: seq<Observation>, axis: Axis, labels: seq<string>): nat {
    if labels == [] then 0 else |Part(seen, axis, labels[0])| + SumParts(seen, axis, labels[1..])
  }

  lemma {:induction false} SumPartsExtended(seen: seq<Observation>, axis: Axis, labels: seq<string>, o: Observation)
    requires NoDuplicates(labels)
    ensures SumParts(seen + [o], axis, labels) == SumParts(seen, axis, labels) + if LabelOf(axis, o) in labels then 1 else 0
  {
    if labels != [] {
      PartExtended(seen, axis, o);
      SumPartsExtended(seen, axis, labels[1..], o);
      assert labels == [labels[0]] + labels[1..];
      assert labels[0] !in labels[1..];
    }
  }

  lemma {:induction false} SumOfNothing(axis: Axis, labels: seq<string>)
    ensures SumParts([], axis, labels) == 0
  {
    if labels != [] { SumOfNothing(axis, labels[1..]); }
  }

  /** Labels that cover the observations divide them without loss or overlap. */
  lemma {:induction false} PartsAddUp(seen: seq<Observation>, axis: Axis, labels: seq<string>)
    requires NoDuplicates(labels)
    requires forall i :: 0 <= i < |seen| ==> LabelOf(axis, seen[i]) in labels
    ensures SumParts(seen, axis, labels) == |seen|
  {
    if seen == [] {
      SumOfNothing(axis, labels);
    } else {
      var n := |seen| - 1;
      assert forall i :: 0 <= i < n ==> seen[..n][i] == seen[i];
      PartsAddUp(seen[..n], axis, labels);
      SumPartsExtended(seen[..n], axis, labels, seen[n]);
      assert seen == seen[..n] + [seen[n]];
    }
  }

  /** Keeping and dividing commute. */
  lemma {:induction false} KeptOfPart(seen: seq<Observation>, axis: Axis, name: string)
    ensures KeptOf(Part(seen, axis, name)) == Part(KeptOf(seen), axis, name)
  {
    if seen != [] {
      var n := |seen| - 1;
      var o := seen[n];
      KeptOfPart(seen[..n], axis, name);
      assert seen == seen[..n] + [o];
      PartExtended(seen[..n], axis, o);
      Extended(seen[..n], o);
      Extended(Part(seen[..n], axis, name), o);
      PartExtended(KeptOf(seen[..n]), axis, o);
    }
  }

  lemma {:induction false} KeptAreSeen(seen: seq<Observation>)
    ensures forall o :: o in KeptOf(seen) <==> o in seen && o.kept
  {
    if seen != [] {
      KeptAreSeen(seen[..|seen| - 1]);
      assert forall o :: o in seen <==> o in seen[..|seen| - 1] || o == seen[|seen| - 1];
    }
  }

  // ---- one group ------------------------------------------------------------------------

  /** Live wins a tie, then vod. */
  ghost predicate IsDominant(t: string, live: nat, vod: nat, series: nat) {
    || (t == LIVE && live >= vod && live >= series)
    || (t == VOD && vod > live && vod >= series)
    || (t == SERIES && series > live && series > vod)
  }

  class GroupStat {
    const name: string
    var contentType: string
    var total: nat
    var kept: nat
    var samples: seq<string>
    var typeCounts: map<string, nat>

    constructor (name: string)
      ensures this.name == name
      ensures Counts([])
    {
      this.name := name;
      contentType, total, kept, samples, typeCounts := "", 0, 0, [], map[];
    }

    function TypeCount(t: string): nat
      reads this`typeCounts
    {
      if t in typeCounts then typeCounts[t] else 0
    }

    /** The counters say exactly what was observed of the group. */
    ghost predicate Counts(obs: seq<Observation>)
      reads this`total, this`kept, this`samples, this`typeCounts
    {
      && total == |obs|
      && kept == |KeptOf(obs)|
      && samples == First(MAX_GROUP_SAMPLES, Names(obs))
      && (forall t :: TypeCount(t) == |InType(obs, t)|)
    }

    /** The label is the first one seen of the group. */
    ghost predicate Describes(obs: seq<Observation>)
      reads this`total, this`kept, this`samples, this`typeCounts
    {
      obs != [] && name == obs[0].group && Counts(obs)
    }

    method Note(o: Observation, ghost obs: seq<Observation>)
      requires Counts(obs)
      modifies this
      ensures Counts(obs + [o])
      ensures contentType == old(contentType)
    {
      Extended(obs, o);
      total := total + 1;
      typeCounts := typeCounts[o.contentType := TypeCount(o.contentType) + 1];
      if |samples| < MAX_GROUP_SAMPLES {
        samples := samples + [o.name];
      }
      if o.kept {
        kept := kept + 1;
      }
    }

    method Settle()
      modifies this`contentType
      ensures IsDominant(contentType, TypeCount(LIVE), TypeCount(VOD), TypeCount(SERIES))
    {
      var best: string, bestCount: int := LIVE, -1;
      var candidates := [LIVE, VOD, SERIES];
      for i := 0 to |candidates|
        invariant i == 0 ==> bestCount == -1
        invariant i > 0 ==> bestCount == TypeCount(best)
        invariant forall j :: 0 <= j < i ==> TypeCount(candidates[j]) <= bestCount
        invariant i > 0 ==> (exists j :: 0 <= j < i && best == candidates[j]
                              && forall k :: 0 <= k < j ==> TypeCount(candidates[k]) < bestCount)
      {
        if TypeCount(candidates[i]) > bestCount {
          best, bestCount := candidates[i], TypeCount(candidates[i]);
          assert best == candidates[i];
        }
      }
      assert TypeCount(candidates[0]) <= bestCount && TypeCount(candidates[1]) <= bestCount && TypeCount(candidates[2]) <= bestCount;
      contentType := best;
    }
  }

  function RuleStatOf(rule: CompiledRule, k: nat, matched: int, decided: int): RuleStat {
    RuleStat(k + 1, rule.origin, rule.field, rule.rule.action, rule.rule.pattern, rule.rule.note, matched, decided)
  }

  // ---- the rules of a pass ------------------------------------------------------------

  /** How many of the streams rule k decided; k is -1 for the default. */
  ghost function CountDecided(e: Engine, rules: seq<CompiledRule>, items: seq<Item>, k: int): nat {
    if items == [] then 0
    else
      var n := |items| - 1;
      CountDecided(e, rules, items[..n], k) + if FirstMatch(e, rules, items[n]) == k then 1 else 0
  }

  /** How many of the streams rule k matches, whichever rule decides them. */
  ghost function CountMatched(e: Engine, rules: seq<CompiledRule>, items: seq<Item>, k: nat): nat
    requires k < |rules|
  {
    if items == [] then 0
    else
      var n := |items| - 1;
      CountMatched(e, rules, items[..n], k) + if RuleMatches(e, rules[k], items[n]) then 1 else 0
  }

  lemma JudgedExtended(e: Engine, rules: seq<CompiledRule>, items: seq<Item>, it: Item)
    ensures forall k :: CountDecided(e, rules, items + [it], k)
              == CountDecided(e, rules, items, k) + if FirstMatch(e, rules, it) == k then 1 else 0
    ensures forall k :: 0 <= k < |rules| ==>
              CountMatched(e, rules, items + [it], k)
              == CountMatched(e, rules, items, k) + if RuleMatches(e, rules[k], it) then 1 else 0
  {
    var all := items + [it];
    assert all[..|all| - 1] == items;
  }

  ghost function DecidedFrom(e: Engine, rules: seq<CompiledRule>, items: seq<Item>, k: int): nat
    requires -1 <= k <= |rules|
    decreases |rules| - k
  {
    if k == |rules| then 0 else CountDecided(e, rules, items, k) + DecidedFrom(e, rules, items, k + 1)
  }

  lemma {:induction false} DecidedFromExtended(e: Engine, rules: seq<CompiledRule>, items: seq<Item>, it: Item, k: int)
    requires -1 <= k <= |rules|
    ensures DecidedFrom(e, rules, items + [it], k)
            == DecidedFrom(e, rules, items, k) + if FirstMatch(e, rules, it) >= k then 1 else 0
    decreases |rules| - k
  {
    hide CountDecided, FirstMatch, CountMatched;
    if k < |rules| {
      JudgedExtended(e, rules, items, it);
      DecidedFromExtended(e, rules, items, it, k + 1);
    }
  }

  /** Every stream is decided exactly once, by a rule or by the default. */
  lemma {:induction false} EveryStreamIsDecidedOnce(e: Engine, rules: seq<CompiledRule>, items: seq<Item>)
    ensures DecidedFrom(e, rules, items, -1) == |items|
  {
    if items == [] {
      NothingDecided(e, rules, -1);
    } else {
      var n := |items| - 1;
      EveryStreamIsDecidedOnce(e, rules, items[..n]);
      DecidedFromExtended(e, rules, items[..n], items[n], -1);
      assert items == items[..n] + [items[n]];
    }
  }

  lemma {:induction false} NothingDecided(e: Engine, rules: seq<CompiledRule>, k: int)
    requires -1 <= k <= |rules|
    ensures DecidedFrom(e, rules, [], k) == 0
    decreases |rules| - k
  {
    if k < |rules| { NothingDecided(e, rules, k + 1); }
  }

  lemma {:induction false} DecidedIsMatched(e: Engine, rules: seq<CompiledRule>, items: seq<Item>, k: nat)
    requires k < |rules|
    ensures CountDecided(e, rules, items, k) <= CountMatched(e, rules, items, k)
  {
    if items != [] { DecidedIsMatched(e, rules, items[..|items| - 1], k); }
  }

  /** A rule decides nothing exactly when an earlier rule matches every stream
      it matches. */
  lemma {:induction false} DeadIffShadowed(e: Engine, rules: seq<CompiledRule>, items: seq<Item>, k: nat)
    requires k < |rules|
    ensures CountDecided(e, rules, items, k) == 0 <==>
            forall i :: 0 <= i < |items| && RuleMatches(e, rules[k], items[i]) ==>
              exists j :: 0 <= j < k && RuleMatches(e, rules[j], items[i])
  {
    if items != [] {
      var n := |items| - 1;
      DeadIffShadowed(e, rules, items[..n], k);
      assert FirstMatch(e, rules, items[n]) == k <==>
        RuleMatches(e, rules[k], items[n]) && !exists j :: 0 <= j < k && RuleMatches(e, rules[j], items[n]);
      assert forall i :: 0 <= i < n ==> items[..n][i] == items[i];
    }
  }

  // ---- sorting the groups ------------------------------------------------------------------

  /** What the order looks at: larger groups first, then by name. */
  datatype Rank = Rank(total: nat, name: string)

  predicate RankLeq(x: Rank, y: Rank) {
    x.total > y.total || (x.total == y.total && StringLeq(x.name, y.name))
  }

  lemma RankOrder()
    ensures TotalPreorder(RankLeq) && Antisymmetric(RankLeq)
  {
    StringOrder();
  }

  function RankOf(g: GroupStat): Rank
    reads g
  {
    Rank(g.total, g.name)
  }

  /** A rank and the position it came from. */
  datatype Row = Row(rank: Rank, at: nat)

  ghost predicate Occurs(rows: seq<Row>, at: nat) {
    exists i :: 0 <= i < |rows| && rows[i].at == at
  }

  predicate RowLeq(x: Row, y: Row) {
    RankLeq(x.rank, y.rank)
  }

  lemma RowOrder()
    ensures TotalPreorder(RowLeq)
  {
    RankOrder();
  }

  /** The rows stand for each position below n once. */
  ghost predicate Places(rows: seq<Row>, n: nat) {
    && |rows| == n
    && (forall i :: 0 <= i < n ==> rows[i].at < n)
    && (forall i, j :: 0 <= i < j < n ==> rows[i].at != rows[j].at)
    && (forall g :: 0 <= g < n ==> Occurs(rows, g))
  }

  lemma PlacesInRange(rows: seq<Row>, n: nat)
    requires Places(rows, n)
    ensures |rows| == n && forall i :: 0 <= i < |rows| ==> rows[i].at < n
  {
  }

  /** A sort rearranges the positions. */
  lemma SortedPlaces(rows: seq<Row>, sorted: seq<Row>)
    requires forall i :: 0 <= i < |rows| ==> rows[i].at == i
    requires multiset(sorted) == multiset(rows)
    ensures Places(sorted, |rows|)
    ensures forall i :: 0 <= i < |sorted| ==> sorted[i] == rows[sorted[i].at]
  {
    assert |multiset(sorted)| == |multiset(rows)|;
    DistinctMultiset(rows);
    DistinctMultiset(sorted);
    forall i | 0 <= i < |sorted|
      ensures sorted[i].at < |rows| && sorted[i] == rows[sorted[i].at]
    {
      assert sorted[i] in multiset(sorted);
      assert sorted[i] in rows;
    }
    forall g | 0 <= g < |rows|
      ensures Occurs(sorted, g)
    {
      assert rows[g] in multiset(rows);
      assert rows[g] in multiset(sorted);
    }
  }

  /** The elements of xs in the order of the rows. */
  function Placed<T>(xs: seq<T>, rows: seq<Row>): (r: seq<T>)
    requires forall i :: 0 <= i < |rows| ==> rows[i].at < |xs|
    ensures |r| == |rows| && forall i :: 0 <= i < |r| ==> r[i] == xs[rows[i].at]
  {
    seq(|rows|, i requires 0 <= i < |rows| => xs[rows[i].at])
  }

  lemma PlacedSame<T>(xs: seq<T>, rows: seq<Row>)
    requires Places(rows, |xs|)
    ensures forall x :: x in Placed(xs, rows) <==> x in xs
    ensures NoDuplicates(xs) ==> NoDuplicates(Placed(xs, rows))
  {
    forall x | x in xs
      ensures x in Placed(xs, rows)
    {
      var j :| 0 <= j < |xs| && xs[j] == x;
      assert Occurs(rows, j);
      var i :| 0 <= i < |rows| && rows[i].at == j;
      assert Placed(xs, rows)[i] == x;
    }
    if NoDuplicates(xs) {
      forall i, j | 0 <= i < j < |rows|
        ensures Placed(xs, rows)[i] != Placed(xs, rows)[j]
      {
        assert rows[i].at < rows[j].at || rows[j].at < rows[i].at;
      }
    }
  }

  // ---- the report ------------------------------------------------------------------------------

  class Report {
    var total: nat
    var kept: nat
    var byType: map<string, TypeStat>
    var groups: seq<GroupStat>
    var keptSamples: seq<string>
    var groupIndex: map<string, GroupStat>
    var rules: seq<RuleStat>
    var defaultAction: string
    var defaultDecided: nat
    var qualityDropped: nat
    var verdicts: seq<Verdict>
    var matched: array?<int>
    ghost var seen: seq<Observation>
    ghost var keys: seq<string>
    ghost var judged: seq<Item>

    constructor ()
      ensures Valid() && seen == [] && groups == []
      ensures forall t :: t in byType <==> IsContentTypeName(t)
      ensures rules == [] && matched == null && judged == [] && verdicts == []
      ensures defaultAction == "" && defaultDecided == 0 && qualityDropped == 0
    {
      rules, defaultAction, defaultDecided, qualityDropped, verdicts := [], "", 0, 0, [];
      matched, judged := null, [];
      total, kept := 0, 0;
      byType := map[LIVE := TypeStat(0, 0), VOD := TypeStat(0, 0), SERIES := TypeStat(0, 0)];
      groups, keptSamples, groupIndex, seen, keys := [], [], map[], [], [];
    }

    ghost predicate TotalsOf(obs: seq<Observation>)
      reads this`total, this`kept, this`byType, this`keptSamples
    {
      Totals(total, kept, byType, keptSamples, obs)
    }

    /** keys names, in the order of groups, the key each group is indexed by. */
    ghost predicate Indexed()
      reads this`groups, this`groupIndex, this`keys
    {
      && |keys| == |groups| && NoDuplicates(keys) && NoDuplicates(groups)
      && (forall i :: 0 <= i < |keys| ==> keys[i] in groupIndex && groupIndex[keys[i]] == groups[i])
      && (forall k :: k in groupIndex ==> k in keys)
    }

    ghost predicate GroupsOf(obs: seq<Observation>)
      reads this`groups, this`groupIndex, this`keys, groups
    {
      && Indexed()
      && (forall i :: 0 <= i < |obs| ==> obs[i].key in groupIndex)
      && (forall i :: 0 <= i < |keys| ==> groups[i].Describes(InGroup(obs, keys[i])))
    }

    ghost predicate Valid()
      reads this`total, this`kept, this`byType, this`keptSamples, this`groups, this`groupIndex, this`keys, this`seen, groups
    {
      TotalsOf(seen) && GroupsOf(seen)
    }

    method Observe(group: string, groupKey: string, contentType: string, name: string, isKept: bool)
      requires Valid()
      modifies this`total, this`kept, this`byType, this`keptSamples, this`groups, this`groupIndex, this`keys, this`seen, groups
      ensures Valid()
      ensures seen == old(seen) + [Observation(group, groupKey, contentType, name, isKept)]
      ensures old(groups) <= groups && (forall i :: |old(groups)| <= i < |groups| ==> fresh(groups[i]))
    {
      hide Totals, Indexed, GroupStat.Describes;
      var o := Observation(group, groupKey, contentType, name, isKept);
      CountStream(o);
      CountInGroup(o);
      seen := seen + [o];
    }

    method CountStream(o: Observation)
      requires TotalsOf(seen)
      modifies this`total, this`kept, this`byType, this`keptSamples
      ensures TotalsOf(seen + [o])
    {
      hide KeptOf, Names, First, TypesOf;
      total := total + 1;
      byType := CountType(byType, o, seen);
      TotalsExtended(old(total), kept, old(byType), keptSamples, byType, seen, o);
      ghost var all := seen + [o];
      if o.kept {
        kept := kept + 1;
        if |keptSamples| < MAX_KEPT_SAMPLES {
          keptSamples := keptSamples + [o.name];
        }
      }
      assert Totals(total, kept, byType, keptSamples, all);
    }

    /** Every group but the one at position at is described. */
    ghost predicate GroupsBut(obs: seq<Observation>, at: nat)
      reads this`groups, this`groupIndex, this`keys, groups
    {
      && Indexed()
      && (forall i :: 0 <= i < |obs| ==> obs[i].key in groupIndex)
      && (forall i :: 0 <= i < |keys| && i != at ==> groups[i].Describes(InGroup(obs, keys[i])))
    }

    method GroupFor(group: string, groupKey: string) returns (stat: GroupStat, ghost at: nat)
      requires GroupsOf(seen)
      modifies this`groups, this`groupIndex, this`keys
      ensures GroupsBut(seen, at)
      ensures at < |keys| && keys[at] == groupKey && groups[at] == stat
      ensures stat.Counts(InGroup(seen, groupKey))
      ensures stat.name == if InGroup(seen, groupKey) == [] then group else InGroup(seen, groupKey)[0].group
      ensures old(groups) <= groups && (forall i :: |old(groups)| <= i < |groups| ==> fresh(groups[i]))
    {
      hide Part, GroupStat.Counts, StatOf, Totals;
      PartNonEmpty(seen, ByGroup, groupKey);
      if groupKey in groupIndex {
        stat := groupIndex[groupKey];
        at :| 0 <= at < |keys| && keys[at] == groupKey;
      } else {
        stat := AddGroup(group, groupKey);
        at := |keys| - 1;
      }
    }

    method AddGroup(group: string, groupKey: string) returns (stat: GroupStat)
      requires GroupsOf(seen) && groupKey !in groupIndex
      modifies this`groups, this`groupIndex, this`keys
      ensures GroupsBut(seen, |old(keys)|)
      ensures keys == old(keys) + [groupKey] && groups == old(groups) + [stat] && fresh(stat)
      ensures stat.Counts([]) && stat.name == group
    {
      hide Part, GroupStat.Counts;
      stat := new GroupStat(group);
      groups := groups + [stat];
      groupIndex := groupIndex[groupKey := stat];
      keys := keys + [groupKey];
    }

    /** Adding o to its group completes the description of all of them. */
    lemma Rejoined(o: Observation, at: nat)
      requires GroupsBut(seen, at)
      requires at < |keys| && keys[at] == o.key && groups[at].Describes(InGroup(seen, o.key) + [o])
      ensures GroupsOf(seen + [o])
    {
      hide GroupStat.Describes, InGroup;
      GroupsExtended(seen, o);
      forall i | 0 <= i < |keys|
        ensures groups[i].Describes(InGroup(seen + [o], keys[i]))
      {
        assert i != at ==> keys[i] != o.key;
      }
    }

    method NoteAt(stat: GroupStat, o: Observation, ghost at: nat)
      requires GroupsBut(seen, at)
      requires at < |keys| && keys[at] == o.key && groups[at] == stat
      requires stat.Counts(InGroup(seen, o.key))
      requires stat.name == if InGroup(seen, o.key) == [] then o.group else InGroup(seen, o.key)[0].group
      modifies stat
      ensures GroupsBut(seen, at)
      ensures stat.Describes(InGroup(seen, o.key) + [o])
    {
      hide GroupStat.Counts, InGroup;
      stat.Note(o, InGroup(seen, o.key));
      assert forall i :: 0 <= i < |keys| && i != at ==> groups[i] != stat;
    }

    method CountInGroup(o: Observation)
      requires GroupsOf(seen)
      modifies this`groups, this`groupIndex, this`keys, groups
      ensures GroupsOf(seen + [o])
      ensures old(groups) <= groups && (forall i :: |old(groups)| <= i < |groups| ==> fresh(groups[i]))
    {
      hide GroupStat.Describes, GroupStat.Counts, InGroup;
      var stat, at := GroupFor(o.group, o.key);
      assert at < |old(groups)| ==> old(groups)[at] == stat;
      NoteAt(stat, o, at);
      Rejoined(o, at);
    }

    // ---- the ordered rules --------------------------------------------------------

    /** The counters of every rule over the streams judged so far; match counts
        are kept apart until the pass finishes, and only with rule statistics. */
    ghost predicate RulesOf(e: Engine, f: CompiledFilter, withStats: bool)
      reads this`rules, this`defaultDecided, this`judged, this`matched, matched
    {
      && |rules| == |f.rules|
      && (forall k :: 0 <= k < |rules| ==> rules[k] == RuleStatOf(f.rules[k], k, 0, CountDecided(e, f.rules, judged, k)))
      && defaultDecided == (if f.rules == [] then 0 else CountDecided(e, f.rules, judged, -1))
      && (matched != null <==> withStats && f.rules != [])
      && (matched != null ==>
            && matched.Length == |f.rules|
            && forall k :: 0 <= k < |f.rules| ==> matched[k] == CountMatched(e, f.rules, judged, k))
    }

    method StartRules(e: Engine, f: CompiledFilter, withStats: bool)
      requires rules == [] && matched == null && judged == [] && defaultDecided == 0
      modifies this`rules, this`defaultAction, this`matched
      ensures RulesOf(e, f, withStats)
      ensures defaultAction == f.ruleDefault
      ensures matched != null ==> fresh(matched)
    {
      defaultAction := f.ruleDefault;
      if |f.rules| == 0 {
        return;
      }
      rules := seq(|f.rules|, k requires 0 <= k < |f.rules| => RuleStatOf(f.rules[k], k, 0, 0));
      if withStats {
        matched := new int[|f.rules|](_ => 0);
      }
    }

    /** Applies the rules to one stream and records which settled it, -1 for the
        default. */
    method ObserveRules(e: Engine, f: CompiledFilter, it: Item, group: string, withStats: bool)
      returns (keep: bool, decidedBy: int)
      requires RulesOf(e, f, withStats) && group == GroupOf(e.alphabet, it)
      modifies this`rules, this`defaultDecided, this`judged, matched
      ensures RulesOf(e, f, withStats) && judged == old(judged) + [it]
      ensures keep == RulesKeep(e, f, it) && decidedBy == FirstMatch(e, f.rules, it)
    {
      hide CountDecided, CountMatched, RuleMatches;
      JudgedExtended(e, f.rules, judged, it);
      if |f.rules| == 0 {
        judged := judged + [it];
        return f.ruleDefault != DEFAULT_DROP, -1;
      }
      var decided: bool;
      keep, decidedBy, decided := RuleVerdict(e, f.rules, it, group, withStats, matched);
      if decided {
        rules := rules[decidedBy := rules[decidedBy].(decided := rules[decidedBy].decided + 1)];
      } else {
        defaultDecided := defaultDecided + 1;
        keep := f.ruleDefault != DEFAULT_DROP;
      }
      judged := judged + [it];
    }

    // ---- the end of a pass ----------------------------------------------------------

    ghost predicate Ordered()
      reads this`groups, groups
    {
      forall i, j :: 0 <= i < j < |groups| ==> RankLeq(RankOf(groups[i]), RankOf(groups[j]))
    }

    ghost predicate Settled()
      reads this`groups, groups
    {
      forall g :: g in groups ==> IsDominant(g.contentType, g.TypeCount(LIVE), g.TypeCount(VOD), g.TypeCount(SERIES))
    }

    /** What a finished report says of the rules over these streams. */
    ghost predicate RulesFinished(e: Engine, f: CompiledFilter, items: seq<Item>, withStats: bool)
      reads this`rules, this`defaultDecided
    {
      && |rules| == |f.rules|
      && (forall k :: 0 <= k < |rules| ==>
            var decided := CountDecided(e, f.rules, items, k);
            rules[k] == RuleStatOf(f.rules[k], k, if withStats then CountMatched(e, f.rules, items, k) else decided, decided))
      && defaultDecided == (if f.rules == [] then 0 else CountDecided(e, f.rules, items, -1))
    }

    method FinishRules(ghost e: Engine, ghost f: CompiledFilter, ghost withStats: bool)
      requires RulesOf(e, f, withStats)
      modifies this`rules
      ensures RulesFinished(e, f, judged, withStats)
    {
      hide CountDecided, CountMatched;
      var n := |rules|;
      for k := 0 to n
        invariant |rules| == n
        invariant forall j :: k <= j < n ==> rules[j] == old(rules[j])
        invariant forall j :: 0 <= j < k ==>
                    rules[j] == old(rules[j]).(matched := if matched != null then matched[j] else old(rules[j]).decided)
      {
        var stat := rules[k];
        rules := rules[k := stat.(matched := if matched != null then matched[k] else stat.decided)];
      }
    }

    method SettleGroups()
      requires Valid()
      modifies groups`contentType
      ensures Valid() && Settled()
    {
      hide TotalsOf, GroupStat.Counts, InGroup, IsDominant;
      for i := 0 to |groups|
        invariant forall j :: 0 <= j < i ==>
          IsDominant(groups[j].contentType, groups[j].TypeCount(LIVE), groups[j].TypeCount(VOD), groups[j].TypeCount(SERIES))
      {
        groups[i].Settle();
      }
    }

    method Rearrange(sorted: seq<Row>)
      requires Valid() && Places(sorted, |groups|)
      modifies this`groups, this`keys
      ensures Valid()
      ensures groups == Placed(old(groups), sorted)
      ensures forall g :: g in groups <==> g in old(groups)
    {
      hide TotalsOf, InGroup, GroupStat.Describes, Places;
      PlacedSame(groups, sorted);
      PlacedSame(keys, sorted);
      assert forall i :: 0 <= i < |sorted| ==> sorted[i].at < |groups| by { PlacesInRange(sorted, |groups|); }
      groups := Placed(groups, sorted);
      keys := Placed(keys, sorted);
    }

    method SortGroups()
      requires Valid()
      modifies this`groups, this`keys
      ensures Valid() && Ordered()
      ensures |groups| == |old(groups)| && forall g :: g in groups <==> g in old(groups)
    {
      hide TotalsOf, GroupsOf;
      var groups0 := groups;
      var rows := seq(|groups0|, i requires 0 <= i < |groups0| reads groups0 => Row(RankOf(groups0[i]), i));
      var sorted := SortBy(rows, RowLeq);
      RowOrder();
      SortSorts(rows, RowLeq);
      SortPermutes(rows, RowLeq);
      SortedPlaces(rows, sorted);
      hide SortBy;
      Rearrange(sorted);
      OrderedRows(sorted);
    }

    lemma OrderedRows(sorted: seq<Row>)
      requires Sorted(sorted, RowLeq) && |sorted| == |groups|
      requires forall i :: 0 <= i < |groups| ==> RankOf(groups[i]) == sorted[i].rank
      ensures Ordered()
    {
      forall i, j | 0 <= i < j < |groups|
        ensures RankLeq(RankOf(groups[i]), RankOf(groups[j]))
      {
        assert RowLeq(sorted[i], sorted[j]);
      }
    }

    /** Settles each group's type, folds in the match counts and orders the groups. */
    method Finish(ghost e: Engine, ghost f: CompiledFilter, ghost withStats: bool)
      requires Valid() && RulesOf(e, f, withStats)
      modifies this`rules, this`groups, this`keys, groups`contentType
      ensures Valid() && Ordered() && Settled() && RulesFinished(e, f, judged, withStats)
      ensures |groups| == |old(groups)| && forall g :: g in groups <==> g in old(groups)
    {
      hide TotalsOf, GroupsOf, RulesOf, RulesFinished, IsDominant;
      SettleGroups();
      FinishRules(e, f, withStats);
      SortGroups();
    }

    ghost function SumGroupTotals(i: nat): nat
      requires i <= |groups|
      reads this`groups, groups
      decreases |groups| - i
    {
      if i == |groups| then 0 else groups[i].total + SumGroupTotals(i + 1)
    }

    ghost function SumGroupKept(i: nat): nat
      requires i <= |groups|
      reads this`groups, groups
      decreases |groups| - i
    {
      if i == |groups| then 0 else groups[i].kept + SumGroupKept(i + 1)
    }

    lemma {:induction false} GroupSums(i: nat)
      requires GroupsOf(seen) && i <= |groups|
      ensures SumGroupTotals(i) == SumParts(seen, ByGroup, keys[i..])
      ensures SumGroupKept(i) == SumParts(KeptOf(seen), ByGroup, keys[i..])
      decreases |groups| - i
    {
      if i < |groups| {
        GroupSums(i + 1);
        KeptOfPart(seen, ByGroup, keys[i]);
        assert keys[i..][0] == keys[i] && keys[i..][1..] == keys[i + 1..];
      }
    }

    /** The group counters add up to the totals. */
    lemma GroupsConserve()
      requires Valid()
      ensures SumGroupTotals(0) == total == |seen|
      ensures SumGroupKept(0) == kept == |KeptOf(seen)|
    {
      GroupSums(0);
      assert keys[0..] == keys;
      PartsAddUp(seen, ByGroup, keys);
      KeptAreSeen(seen);
      forall i | 0 <= i < |KeptOf(seen)|
        ensures LabelOf(ByGroup, KeptOf(seen)[i]) in keys
      {
        assert KeptOf(seen)[i] in seen;
      }
      PartsAddUp(KeptOf(seen), ByGroup, keys);
    }

    ghost function SumTypeTotals(labels: seq<string>): nat
      requires forall t :: t in labels ==> t in byType
      reads this`byType
    {
      if labels == [] then 0 else byType[labels[0]].total + SumTypeTotals(labels[1..])
    }

    ghost function SumTypeKept(labels: seq<string>): nat
      requires forall t :: t in labels ==> t in byType
      reads this`byType
    {
      if labels == [] then 0 else byType[labels[0]].kept + SumTypeKept(labels[1..])
    }

    lemma {:induction false} TypeSums(labels: seq<string>)
      requires TotalsOf(seen) && forall t :: t in labels ==> t in byType
      ensures SumTypeTotals(labels) == SumParts(seen, ByType, labels)
      ensures SumTypeKept(labels) == SumParts(KeptOf(seen), ByType, labels)
    {
      if labels != [] {
        KeptOfPart(seen, ByType, labels[0]);
        TypeSums(labels[1..]);
      }
    }

    /** The type counters add up to the totals, in whatever order they are listed. */
    lemma TypesConserve(labels: seq<string>)
      requires Valid() && NoDuplicates(labels) && forall t :: t in labels <==> t in byType
      ensures SumTypeTotals(labels) == total == |seen|
      ensures SumTypeKept(labels) == kept == |KeptOf(seen)|
    {
      TypeSums(labels);
      forall i | 0 <= i < |seen|
        ensures seen[i].contentType in labels
      {
        PartNonEmpty(seen, ByType, seen[i].contentType);
        assert StatOf(seen, seen[i].contentType).total > 0;
      }
      PartsAddUp(seen, ByType, labels);
      KeptAreSeen(seen);
      forall i | 0 <= i < |KeptOf(seen)|
        ensures LabelOf(ByType, KeptOf(seen)[i]) in labels
      {
        assert KeptOf(seen)[i] in seen;
      }
      PartsAddUp(KeptOf(seen), ByType, labels);
    }
  }
}
