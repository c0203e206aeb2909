/** The text a cached filter is recognised by, and what it does and does not
    tell apart. */
module Signatures {
  import opened Text
  import opened Sorting
  import opened Config

  const NUL := 0 as char
  const SOH := 1 as char
  const STX := 2 as char

  function RulePart(origin: string, rule: FilterRule): string {
    origin + "|" + rule.field + "|" + rule.action + "|" + rule.pattern
  }

  /** The default, then one part per rule; the note is not among them. */
  function RuleParts(rs: RuleSet): (r: seq<string>)
    requires |rs.origins| == |rs.rules|
    ensures |r| == |rs.rules| + 1
  {
    [rs.fallback] + seq(|rs.rules|, i requires 0 <= i < |rs.rules| => RulePart(rs.origins[i], rs.rules[i]))
  }

  function Entry(m: map<string, string>, group: string): string
    requires group in m
  {
    group + "=" + m[group]
  }

  function Entries(keys: seq<string>, m: map<string, string>): (r: seq<string>)
    requires forall k :: k in keys ==> k in m
    ensures |r| == |keys| && forall i :: 0 <= i < |r| ==> r[i] == Entry(m, keys[i])
  {
    seq(|keys|, i requires 0 <= i < |keys| => Entry(m, keys[i]))
  }

  ghost function OverrideParts(m: map<string, string>): seq<string> {
    SortBy(Entries(SortedSet(m.Keys), m), StringLeq)
  }

  function Flag(b: bool): string {
    if b then "true" else "false"
  }

  /** The type's own patterns, in the order they are written. */
  function PatternsOf(s: Source): seq<string> {
    [ s.liveCategory, s.vodCategory, s.seriesCategory,
      s.liveInclude, s.liveExclude, s.seriesInclude, s.seriesExclude, s.vodInclude, s.vodExclude ]
  }

  function GateParts(s: Source, overrides: seq<string>): (r: seq<string>)
    ensures |r| == 7
  {
    [ s.groupFilterMode,
      Join(s.groupFilterList, [SOH]),
      s.groupFilterRegex,
      Join(s.importTypes, [SOH]),
      Join(overrides, [SOH]),
      Flag(s.qualityDedupe),
      Join(s.qualityTiers, [SOH]) ]
  }

  function Parts(s: Source, ruleParts: seq<string>, overrides: seq<string>): (r: seq<string>) {
    [Join(ruleParts, [STX])] + PatternsOf(s) + GateParts(s, overrides)
  }

  ghost function Signature(s: Source, rs: RuleSet): string
    requires |rs.origins| == |rs.rules|
  {
    Join(Parts(s, RuleParts(rs), OverrideParts(s.groupTypeOverrides)), [NUL])
  }

  method OverrideTexts(m: map<string, string>) returns (overrides: seq<string>)
    ensures overrides == OverrideParts(m)
  {
    hide SortedSet, SortBy;
    var keys := SortedStrings(m.Keys);
    overrides := [];
    for i := 0 to |keys|
      invariant overrides == Entries(keys[..i], m)
    {
      overrides := overrides + [Entry(m, keys[i])];
    }
    assert keys[..|keys|] == keys;
    overrides := SortBy(overrides, StringLeq);
  }

  method RuleTexts(rs: RuleSet) returns (parts: seq<string>)
    requires |rs.origins| == |rs.rules|
    ensures parts == RuleParts(rs)
  {
    hide RulePart;
    parts := [rs.fallback];
    for i := 0 to |rs.rules|
      invariant |parts| == i + 1
      invariant forall j :: 0 <= j <= i ==> parts[j] == RuleParts(rs)[j]
    {
      parts := parts + [RulePart(rs.origins[i], rs.rules[i])];
    }
  }

  method FilterSignature(s: Source, rs: RuleSet) returns (r: string)
    requires |rs.origins| == |rs.rules|
    ensures r == Signature(s, rs)
  {
    var overrides := OverrideTexts(s.groupTypeOverrides);
    var ruleParts := RuleTexts(rs);
    return Join(Parts(s, ruleParts, overrides), [NUL]);
  }

  /** Equal maps give equal text, whatever order their entries are visited in. */
  lemma OverridePartsOrderFree(keys: seq<string>, m: map<string, string>)
    requires NoDuplicates(keys) && forall k :: k in keys <==> k in m
    ensures SortBy(Entries(keys, m), StringLeq) == OverrideParts(m)
  {
    var sorted := SortedSet(m.Keys);
    DistinctMultiset(keys);
    DistinctMultiset(sorted);
    forall k ensures multiset(keys)[k] == multiset(sorted)[k] {
      assert k in keys <==> k in multiset(keys);
      assert k in sorted <==> k in multiset(sorted);
    }
    assert multiset(keys) == multiset(sorted);
    EntriesPermute(keys, sorted, m);
    StringOrder();
    SortSorts(Entries(keys, m), StringLeq);
    SortSorts(Entries(sorted, m), StringLeq);
    SortPermutes(Entries(keys, m), StringLeq);
    SortPermutes(Entries(sorted, m), StringLeq);
    SortedIsUnique(SortBy(Entries(keys, m), StringLeq), SortBy(Entries(sorted, m), StringLeq), StringLeq);
  }

  lemma {:induction false} EntriesPermute(xs: seq<string>, ys: seq<string>, m: map<string, string>)
    requires multiset(xs) == multiset(ys) && (forall k :: k in xs ==> k in m) && (forall k :: k in ys ==> k in m)
    ensures multiset(Entries(xs, m)) == multiset(Entries(ys, m))
  {
    hide Entry, Entries;
    if xs == [] {
      assert |multiset(ys)| == 0;
      assert xs == ys;
    } else {
      var j, rest := TakeOut(xs, ys);
      assert forall k :: k in rest ==> k in ys;
      assert forall k :: k in xs[1..] ==> k in xs;
      EntriesPermute(xs[1..], rest, m);
      EntriesTakeOut(xs, 0, m);
      EntriesTakeOut(ys, j, m);
      assert xs[..0] + xs[1..] == xs[1..];
    }
  }

  lemma EntriesTakeOut(ys: seq<string>, j: nat, m: map<string, string>)
    requires j < |ys| && forall k :: k in ys ==> k in m
    ensures multiset(Entries(ys, m)) == multiset{Entry(m, ys[j])} + multiset(Entries(ys[..j] + ys[j + 1..], m))
  {
    hide Entry;
    var before, after := Entries(ys[..j], m), Entries(ys[j + 1..], m);
    assert Entries(ys, m) == before + [Entry(m, ys[j])] + after;
    assert Entries(ys[..j] + ys[j + 1..], m) == before + after;
  }

  lemma TakeOut(xs: seq<string>, ys: seq<string>) returns (j: nat, rest: seq<string>)
    requires xs != [] && multiset(xs) == multiset(ys)
    ensures j < |ys| && ys[j] == xs[0] && rest == ys[..j] + ys[j + 1..]
    ensures multiset(xs[1..]) == multiset(rest)
  {
    assert xs[0] in multiset(xs);
    assert xs[0] in ys;
    j :| 0 <= j < |ys| && ys[j] == xs[0];
    rest := ys[..j] + ys[j + 1..];
    assert xs == [xs[0]] + xs[1..];
    assert ys == ys[..j] + [ys[j]] + ys[j + 1..];
    assert multiset(xs) - multiset{xs[0]} == multiset(xs[1..]);
    assert multiset(ys) - multiset{xs[0]} == multiset(rest);
  }

  // ---- splitting the text ----------------------------------------------------------------

  ghost predicate RulesSeparable(rs: RuleSet) {
    && |rs.origins| == |rs.rules|
    && Free(rs.fallback, NUL) && Free(rs.fallback, STX)
    && forall i :: 0 <= i < |rs.rules| ==>
         && Free(RulePart(rs.origins[i], rs.rules[i]), NUL) && Free(RulePart(rs.origins[i], rs.rules[i]), STX)
         && Free(rs.origins[i], '|') && Free(rs.rules[i].field, '|') && Free(rs.rules[i].action, '|')
  }

  ghost predicate ListSeparable(xs: seq<string>) {
    AllFree(xs, NUL) && AllFree(xs, SOH)
  }

  ghost predicate OverridesSeparable(m: map<string, string>) {
    forall g :: g in m ==> Free(g, NUL) && Free(g, SOH) && Free(m[g], NUL) && Free(m[g], SOH) && Free(m[g], '=')
  }

  /** No value holds a character the signature separates values by. */
  ghost predicate Separable(s: Source, rs: RuleSet) {
    && RulesSeparable(rs)
    && AllFree(PatternsOf(s), NUL) && Free(s.groupFilterMode, NUL) && Free(s.groupFilterRegex, NUL)
    && ListSeparable(s.groupFilterList) && ListSeparable(s.importTypes) && ListSeparable(s.qualityTiers)
    && OverridesSeparable(s.groupTypeOverrides)
  }

  ghost predicate SameRules(r: RuleSet, q: RuleSet) {
    && r.fallback == q.fallback && r.origins == q.origins && |r.rules| == |q.rules|
    && forall i :: 0 <= i < |r.rules| ==>
         r.rules[i].field == q.rules[i].field && r.rules[i].action == q.rules[i].action
         && r.rules[i].pattern == q.rules[i].pattern
  }

  /** Equal, or no entry against one blank entry. */
  ghost predicate SameList(xs: seq<string>, ys: seq<string>) {
    xs == ys || (xs == [] && ys == [""]) || (xs == [""] && ys == [])
  }

  ghost predicate SamePatterns(s: Source, t: Source) {
    && PatternsOf(s) == PatternsOf(t)
    && s.groupFilterMode == t.groupFilterMode && s.groupFilterRegex == t.groupFilterRegex
    && s.qualityDedupe == t.qualityDedupe
  }

  lemma RulePartSplits(o: string, r: FilterRule, p: string, q: FilterRule)
    requires Free(o, '|') && Free(r.field, '|') && Free(r.action, '|')
    requires Free(p, '|') && Free(q.field, '|') && Free(q.action, '|')
    requires RulePart(o, r) == RulePart(p, q)
    ensures o == p && r.field == q.field && r.action == q.action && r.pattern == q.pattern
  {
    var x2, y2 := r.action + "|" + r.pattern, q.action + "|" + q.pattern;
    var x1, y1 := r.field + "|" + x2, q.field + "|" + y2;
    assert RulePart(o, r) == o + ['|'] + x1 && RulePart(p, q) == p + ['|'] + y1;
    UniqueCut(o, p, x1, y1, '|');
    UniqueCut(r.field, q.field, x2, y2, '|');
    UniqueCut(r.action, q.action, r.pattern, q.pattern, '|');
  }

  lemma RulesDetermined(r: RuleSet, q: RuleSet)
    requires RulesSeparable(r) && RulesSeparable(q)
    requires Join(RuleParts(r), [STX]) == Join(RuleParts(q), [STX])
    ensures SameRules(r, q)
  {
    JoinSplitsUniquely(RuleParts(r), RuleParts(q), STX);
    assert RuleParts(r)[0] == RuleParts(q)[0];
    forall i | 0 <= i < |r.rules|
      ensures r.origins[i] == q.origins[i] && r.rules[i].field == q.rules[i].field
              && r.rules[i].action == q.rules[i].action && r.rules[i].pattern == q.rules[i].pattern
    {
      assert RuleParts(r)[i + 1] == RuleParts(q)[i + 1];
      RulePartSplits(r.origins[i], r.rules[i], q.origins[i], q.rules[i]);
    }
  }

  lemma AfterCut(h: string, u: string, i: int)
    requires Free(u, '=') && |h| < i < |h + "=" + u|
    ensures (h + "=" + u)[i] != '='
  {
    assert (h + "=" + u)[i] == u[i - |h| - 1];
  }

  lemma LastCut(g: string, t: string, h: string, u: string)
    requires Free(t, '=') && Free(u, '=') && g + "=" + t == h + "=" + u
    ensures g == h && t == u
  {
    var s := g + "=" + t;
    assert s[|g|] == '=' && s[|h|] == '=';
    if |h| < |g| {
      AfterCut(h, u, |g|);
      assert false;
    }
    if |g| < |h| {
      AfterCut(g, t, |h|);
      assert false;
    }
    assert g == s[..|g|] && h == s[..|h|];
    assert t == s[|g| + 1..] && u == s[|h| + 1..];
  }

  lemma OverridePartsElements(m: map<string, string>)
    ensures forall x :: x in OverrideParts(m) <==> exists g :: g in m && x == Entry(m, g)
    ensures |OverrideParts(m)| == |m.Keys|
  {
    var keys := SortedSet(m.Keys);
    var xs := Entries(keys, m);
    SortPermutes(xs, StringLeq);
    forall x ensures x in OverrideParts(m) <==> exists g :: g in m && x == Entry(m, g) {
      assert x in OverrideParts(m) <==> x in multiset(OverrideParts(m));
      assert x in xs <==> x in multiset(xs);
      if exists g :: g in m && x == Entry(m, g) {
        var g :| g in m && x == Entry(m, g);
        assert g in keys;
        var i :| 0 <= i < |keys| && keys[i] == g;
        assert xs[i] == x;
      }
    }
  }

  lemma OverridesDetermined(m: map<string, string>, n: map<string, string>)
    requires OverridesSeparable(m) && OverridesSeparable(n)
    requires Join(OverrideParts(m), [SOH]) == Join(OverrideParts(n), [SOH])
    ensures m == n
  {
    OverridePartsElements(m);
    OverridePartsElements(n);
    EntriesFree(m);
    EntriesFree(n);
    JoinSplitsUniquely(OverrideParts(m), OverrideParts(n), SOH);
    assert OverrideParts(m) == OverrideParts(n) by {
      assert "" !in OverrideParts(m) && "" !in OverrideParts(n);
      assert [""][0] == "";
    }
    EntriesDetermine(m, n);
    EntriesDetermine(n, m);
  }

  lemma EntryFree(m: map<string, string>, g: string)
    requires OverridesSeparable(m) && g in m
    ensures Free(Entry(m, g), NUL) && Free(Entry(m, g), SOH) && Entry(m, g) != ""
  {
  }

  lemma EntriesFree(m: map<string, string>)
    requires OverridesSeparable(m)
    ensures ListSeparable(OverrideParts(m)) && "" !in OverrideParts(m)
  {
    hide OverrideParts, Entry;
    OverridePartsElements(m);
    forall i | 0 <= i < |OverrideParts(m)|
      ensures Free(OverrideParts(m)[i], NUL) && Free(OverrideParts(m)[i], SOH) && OverrideParts(m)[i] != ""
    {
      assert OverrideParts(m)[i] in OverrideParts(m);
      var g :| g in m && OverrideParts(m)[i] == Entry(m, g);
      EntryFree(m, g);
    }
  }

  lemma EntriesDetermine(m: map<string, string>, n: map<string, string>)
    requires OverridesSeparable(m) && OverridesSeparable(n) && OverrideParts(m) == OverrideParts(n)
    ensures forall g :: g in m ==> g in n && n[g] == m[g]
  {
    OverridePartsElements(m);
    OverridePartsElements(n);
    forall g | g in m
      ensures g in n && n[g] == m[g]
    {
      assert Entry(m, g) in OverrideParts(n);
      var h :| h in n && Entry(m, g) == Entry(n, h);
      LastCut(g, m[g], h, n[h]);
    }
  }

  lemma GatePartsAreFree(s: Source, rs: RuleSet)
    requires Separable(s, rs)
    ensures AllFree(GateParts(s, OverrideParts(s.groupTypeOverrides)), NUL)
  {
    hide OverrideParts, Join;
    EntriesFree(s.groupTypeOverrides);
    JoinFree(s.groupFilterList, [SOH], NUL);
    JoinFree(s.importTypes, [SOH], NUL);
    JoinFree(OverrideParts(s.groupTypeOverrides), [SOH], NUL);
    JoinFree(s.qualityTiers, [SOH], NUL);
  }

  lemma PartsAreFree(s: Source, rs: RuleSet)
    requires Separable(s, rs)
    ensures AllFree(Parts(s, RuleParts(rs), OverrideParts(s.groupTypeOverrides)), NUL)
  {
    hide OverrideParts, Join, RulePart, PatternsOf, GateParts;
    assert AllFree(RuleParts(rs), NUL);
    JoinFree(RuleParts(rs), [STX], NUL);
    GatePartsAreFree(s, rs);
  }

  /** Equal signatures mean equal parts. */
  lemma PartsDetermined(s: Source, rs: RuleSet, t: Source, qs: RuleSet)
    requires Separable(s, rs) && Separable(t, qs)
    requires Signature(s, rs) == Signature(t, qs)
    ensures Join(RuleParts(rs), [STX]) == Join(RuleParts(qs), [STX])
    ensures PatternsOf(s) == PatternsOf(t)
    ensures GateParts(s, OverrideParts(s.groupTypeOverrides)) == GateParts(t, OverrideParts(t.groupTypeOverrides))
  {
    var xs := Parts(s, RuleParts(rs), OverrideParts(s.groupTypeOverrides));
    var ys := Parts(t, RuleParts(qs), OverrideParts(t.groupTypeOverrides));
    PartsAreFree(s, rs);
    PartsAreFree(t, qs);
    assert |PatternsOf(s)| == |PatternsOf(t)| == 9;
    JoinSplitsUniquely(xs, ys, NUL);
    hide OverrideParts, Join, RulePart, PatternsOf, GateParts;
    assert xs[0] == ys[0];
    assert PatternsOf(s) == xs[1..10] && PatternsOf(t) == ys[1..10];
    assert GateParts(s, OverrideParts(s.groupTypeOverrides)) == xs[10..];
    assert GateParts(t, OverrideParts(t.groupTypeOverrides)) == ys[10..];
  }

  /** Equal signatures mean equal filters, up to rule notes and to lists that
      hold nothing against lists that hold one blank entry. */
  lemma SignatureDetermines(s: Source, rs: RuleSet, t: Source, qs: RuleSet)
    requires Separable(s, rs) && Separable(t, qs)
    requires Signature(s, rs) == Signature(t, qs)
    ensures SameRules(rs, qs) && SamePatterns(s, t)
    ensures s.groupTypeOverrides == t.groupTypeOverrides
    ensures SameList(s.groupFilterList, t.groupFilterList)
    ensures SameList(s.importTypes, t.importTypes)
    ensures SameList(s.qualityTiers, t.qualityTiers)
  {
    hide OverrideParts, Join, RulePart, PatternsOf, Signature;
    PartsDetermined(s, rs, t, qs);
    var xs := GateParts(s, OverrideParts(s.groupTypeOverrides));
    var ys := GateParts(t, OverrideParts(t.groupTypeOverrides));
    assert xs[0] == ys[0] && xs[1] == ys[1] && xs[2] == ys[2] && xs[3] == ys[3] && xs[4] == ys[4] && xs[5] == ys[5] && xs[6] == ys[6];
    RulesDetermined(rs, qs);
    JoinSplitsUniquely(s.groupFilterList, t.groupFilterList, SOH);
    JoinSplitsUniquely(s.importTypes, t.importTypes, SOH);
    OverridesDetermined(s.groupTypeOverrides, t.groupTypeOverrides);
    JoinSplitsUniquely(s.qualityTiers, t.qualityTiers, SOH);
  }

  /** The other way: sources that agree on all of this share their signature. */
  lemma SameInputsSameSignature(s: Source, rs: RuleSet, t: Source, qs: RuleSet)
    requires |rs.origins| == |rs.rules| && |qs.origins| == |qs.rules|
    requires SameRules(rs, qs) && SamePatterns(s, t) && s.groupTypeOverrides == t.groupTypeOverrides
    requires SameList(s.groupFilterList, t.groupFilterList)
    requires SameList(s.importTypes, t.importTypes)
    requires SameList(s.qualityTiers, t.qualityTiers)
    ensures Signature(s, rs) == Signature(t, qs)
  {
    hide OverrideParts, PatternsOf;
    forall i | 0 <= i < |rs.rules|
      ensures RulePart(rs.origins[i], rs.rules[i]) == RulePart(qs.origins[i], qs.rules[i])
    {
    }
    assert RuleParts(rs) == RuleParts(qs);
  }

  /** Why a bar must not occur in a profile's name: a longer pattern under one
      profile reads like a plain rule under another. */
  lemma BarCollision(s: Source, origin: string, rule: FilterRule, fallback: string)
    ensures var inner := rule.field + "|" + rule.action;
            var r := RuleSet([rule.(pattern := inner + "|" + rule.pattern)], [origin], fallback);
            var q := RuleSet([rule], [origin + "|" + inner], fallback);
            Signature(s, r) == Signature(s, q) && !SameRules(r, q)
  {
    hide OverrideParts, Parts;
    var inner := rule.field + "|" + rule.action;
    var r := RuleSet([rule.(pattern := inner + "|" + rule.pattern)], [origin], fallback);
    var q := RuleSet([rule], [origin + "|" + inner], fallback);
    assert RulePart(r.origins[0], r.rules[0]) == RulePart(q.origins[0], q.rules[0]);
    assert RuleParts(r) == RuleParts(q);
    assert |r.origins[0]| < |q.origins[0]|;
  }
}
