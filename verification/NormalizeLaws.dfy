/** What tidying means: every setting says afterwards what the operator typed, and
    what is refused is refused for the reason given. */
module NormalizeLaws {
  import opened Text
  import opened Sorting
  import opened Config
  import opened GroupKeys
  import opened Normalize

  // ---- import types --------------------------------------------------------------------------

  lemma {:induction false} TypesRead(a: Alphabet, values: seq<string>, seen: set<string>)
    ensures NormalTypesFrom(a, values, seen).Ok? <==>
            forall v :: v in values ==> a.Lower(a.Trim(v)) == "live" || a.Lower(a.Trim(v)) == "vod" || a.Lower(a.Trim(v)) == "series"
    ensures NormalTypesFrom(a, values, seen).Ok? ==>
              forall t :: t in NormalTypesFrom(a, values, seen).value
                          <==> t !in seen && exists v :: v in values && a.Lower(a.Trim(v)) == t
  {
    hide Alphabet.Trim, Alphabet.Lower;
    if values != [] {
      var t := a.Lower(a.Trim(values[0]));
      assert forall v :: v in values <==> v == values[0] || v in values[1..];
      TypesRead(a, values[1..], if t in seen then seen else seen + {t});
    }
  }

  /** The tidied gate lets a content type through exactly when the typed one does:
      no list, or the type on it, in whatever case and spacing. It is refused
      exactly when a value is none of the three. */
  lemma TypesMeanWhatTheySay(a: Alphabet, values: seq<string>, t: string)
    requires IsContentTypeName(t)
    ensures NormalTypes(a, values).Ok? <==>
            forall v :: v in values ==> a.Lower(a.Trim(v)) == "live" || a.Lower(a.Trim(v)) == "vod" || a.Lower(a.Trim(v)) == "series"
    ensures NormalTypes(a, values).Ok? ==>
              var out := NormalTypes(a, values).value;
              (out == [] || t in out <==> values == [] || exists v :: v in values && a.Lower(a.Trim(v)) == t)
  {
    hide Alphabet.Trim, Alphabet.Lower, NormalTypesFrom;
    TypesRead(a, values, {});
    if NormalTypes(a, values).Ok? {
      var ts := NormalTypesFrom(a, values, {}).value;
      NormalTypesAreDistinct(a, values, {});
      if |ts| == 3 {
        ThreeAreAll(ts, t);
      }
      if values != [] {
        assert a.Lower(a.Trim(values[0])) in ts;
      } else if ts != [] {
        assert ts[0] in ts;
      }
    }
  }

  lemma ThreeAreAll(ts: seq<string>, t: string)
    requires |ts| == 3 && NoDuplicates(ts) && IsContentTypeName(t) && forall x :: x in ts ==> IsContentTypeName(x)
    ensures t in ts
  {
    assert ts[0] in ts && ts[1] in ts && ts[2] in ts;
  }

  // ---- rules ------------------------------------------------------------------------------------

  /** A rule as the operator means it: field and action in any case and spacing, a
      blank field for the group, a blank action for include, the pattern to the
      letter. */
  predicate Reads(a: Alphabet, tidy: FilterRule, typed: FilterRule) {
    && tidy.field == (if a.Lower(a.Trim(typed.field)) == "" then "group" else a.Lower(a.Trim(typed.field)))
    && tidy.action == (if a.Lower(a.Trim(typed.action)) == "" then "include" else a.Lower(a.Trim(typed.action)))
    && tidy.pattern == typed.pattern && tidy.note == a.Trim(typed.note)
  }

  /** Some reason to refuse a rule. */
  predicate Faulty(e: Engine, typed: FilterRule) {
    var field, action := e.alphabet.Lower(e.alphabet.Trim(typed.field)), e.alphabet.Lower(e.alphabet.Trim(typed.action));
    || |typed.pattern| > 500
    || (field != "" && field != "group" && field != "name" && field != "url" && field != "any")
    || (action != "" && action != "include" && action != "exclude")
    || !e.compiles(if "(?" <= typed.pattern then typed.pattern else "(?i)" + typed.pattern)
  }

  /** The rules that are not left blank. */
  function Typed(rules: seq<FilterRule>): seq<FilterRule> {
    if rules == [] then [] else (if rules[0].pattern == "" then [] else [rules[0]]) + Typed(rules[1..])
  }

  lemma FaultyIsError(e: Engine, typed: FilterRule, i: nat)
    ensures RuleError(e, TidyRule(e.alphabet, typed), i).Some? <==> Faulty(e, typed)
    ensures Reads(e.alphabet, TidyRule(e.alphabet, typed), typed)
  {
    hide Alphabet.Trim, Alphabet.Lower;
  }

  lemma {:induction false} RulesReadFrom(e: Engine, rules: seq<FilterRule>, i: nat)
    requires i <= |rules|
    ensures NormalRulesFrom(e, rules, i).Ok? <==> forall r :: r in Typed(rules[i..]) ==> !Faulty(e, r)
    ensures NormalRulesFrom(e, rules, i).Ok? ==>
              var out, typed := NormalRulesFrom(e, rules, i).value, Typed(rules[i..]);
              |out| == |typed| && forall k :: 0 <= k < |out| ==> Reads(e.alphabet, out[k], typed[k])
    decreases |rules| - i
  {
    hide Faulty, Reads, RuleError, TidyRule, Alphabet.Trim, Alphabet.Lower;
    if i < |rules| {
      assert rules[i..][1..] == rules[i + 1..];
      RulesReadFrom(e, rules, i + 1);
      FaultyIsError(e, rules[i], i);
      PatternStays(e.alphabet, rules[i]);
    }
  }

  lemma PatternStays(a: Alphabet, typed: FilterRule)
    ensures TidyRule(a, typed).pattern == typed.pattern
  {
  }

  /** The tidied rules are the typed ones that are not blank, in order. */
  predicate RulesRead(a: Alphabet, tidy: seq<FilterRule>, typed: seq<FilterRule>) {
    |tidy| == |Typed(typed)| && forall k :: 0 <= k < |tidy| ==> Reads(a, tidy[k], Typed(typed)[k])
  }

  /** Tidied rules are the typed ones that are not blank, in order, each meaning
      what it said; they are refused exactly when there are more than 200 or one of
      them is at fault. */
  lemma RulesMeanWhatTheySay(e: Engine, rules: seq<FilterRule>)
    ensures NormalRules(e, rules).Ok? <==> |rules| <= 200 && forall r :: r in Typed(rules) ==> !Faulty(e, r)
    ensures NormalRules(e, rules).Ok? ==> RulesRead(e.alphabet, NormalRules(e, rules).value, rules)
  {
    hide Faulty, Reads, RuleError, TidyRule;
    assert rules[0..] == rules;
    RulesReadFrom(e, rules, 0);
  }

  /** The rule an error names is the first at fault, counted from one with the
      blank ones, and the fault is the first that the rule has. */
  lemma {:induction false} ErrorNamesTheRule(e: Engine, rules: seq<FilterRule>, i: nat) returns (j: nat)
    requires i <= |rules| && NormalRulesFrom(e, rules, i).Err?
    ensures i <= j < |rules| && rules[j].pattern != "" && Faulty(e, rules[j])
    ensures forall k :: i <= k < j ==> rules[k].pattern == "" || !Faulty(e, rules[k])
    ensures var error, r := NormalRulesFrom(e, rules, i).error, rules[j];
            var field, action := e.alphabet.Lower(e.alphabet.Trim(r.field)), e.alphabet.Lower(e.alphabet.Trim(r.action));
            var fits, known := |r.pattern| <= 500, field in {"", "group", "name", "url", "any"};
            || (error == PatternTooLong(j + 1) && !fits)
            || (error == BadField(j + 1) && fits && !known)
            || (error == BadAction(j + 1) && fits && known && action !in {"", "include", "exclude"})
            || (error == BadPattern(j + 1) && fits && known && action in {"", "include", "exclude"}
                && !e.compiles(if "(?" <= r.pattern then r.pattern else "(?i)" + r.pattern))
    decreases |rules| - i
  {
    hide Alphabet.Trim, Alphabet.Lower;
    FaultyIsError(e, rules[i], i);
    if rules[i].pattern != "" && Faulty(e, rules[i]) {
      j := i;
    } else {
      j := ErrorNamesTheRule(e, rules, i + 1);
    }
  }

  // ---- the default --------------------------------------------------------------------------------

  predicate DefaultReads(a: Alphabet, tidy: string, typed: string) {
    tidy == if a.Lower(a.Trim(typed)) == "drop" then "drop" else ""
  }

  /** In any case and spacing: nothing and keep are stored as nothing, drop as
      drop, and nothing else is taken. */
  lemma DefaultMeansWhatItSays(a: Alphabet, value: string)
    ensures var typed := a.Lower(a.Trim(value));
            && (NormalDefault(a, value).Ok? <==> typed == "" || typed == "keep" || typed == "drop")
            && (NormalDefault(a, value).Ok? ==> DefaultReads(a, NormalDefault(a, value).value, value))
  {
    hide Alphabet.Trim, Alphabet.Lower;
  }

  // ---- group labels -----------------------------------------------------------------------------

  /** The trimmed label of every group where it is first named. */
  function FirstNamed(a: Alphabet, groups: seq<string>): seq<string> {
    if groups == [] then []
    else
      var n := |groups| - 1;
      FirstNamed(a, groups[..n])
      + if exists j :: 0 <= j < n && GroupKey(a, groups[j]) == GroupKey(a, groups[n]) then [] else [a.Trim(groups[n])]
  }

  lemma {:induction false} DedupeSnoc(a: Alphabet, groups: seq<string>, g: string, seen: set<string>)
    requires a.Lawful()
    ensures DedupeFrom(a, groups + [g], seen)
            == DedupeFrom(a, groups, seen)
               + if GroupKey(a, g) in seen + KeysOf(a, groups) then [] else [a.Trim(g)]
  {
    hide GroupKey, Alphabet.Trim;
    KeyOfTrim(a, g);
    if groups == [] {
      assert groups + [g] == [g] && [g][1..] == [];
    } else {
      KeyOfTrim(a, groups[0]);
      KeysOfCons(a, groups[0], groups[1..]);
      assert groups == [groups[0]] + groups[1..];
      assert (groups + [g])[1..] == groups[1..] + [g];
      var key := GroupKey(a, a.Trim(groups[0]));
      DedupeSnoc(a, groups[1..], g, if key in seen then seen else seen + {key});
    }
  }

  /** A tidied list names every group once, in the order and the spelling in which
      each is first named. */
  lemma {:induction false} LabelsKeepTheirOrder(a: Alphabet, groups: seq<string>)
    requires a.Lawful()
    ensures DedupeFrom(a, groups, {}) == FirstNamed(a, groups)
  {
    hide GroupKey, Alphabet.Trim;
    if groups != [] {
      var n := |groups| - 1;
      assert groups == groups[..n] + [groups[n]];
      LabelsKeepTheirOrder(a, groups[..n]);
      DedupeSnoc(a, groups[..n], groups[n], {});
      var key := GroupKey(a, groups[n]);
      assert key in KeysOf(a, groups[..n]) <==> exists j :: 0 <= j < n && GroupKey(a, groups[j]) == key by {
        if key in KeysOf(a, groups[..n]) {
          var l :| l in groups[..n] && GroupKey(a, l) == key;
          var j :| 0 <= j < n && groups[..n][j] == l;
          assert groups[j] == l;
        }
        if j :| 0 <= j < n && GroupKey(a, groups[j]) == key {
          assert groups[..n][j] in groups[..n];
        }
      }
    }
  }

  // ---- forced types -----------------------------------------------------------------------------

  /** An entry that says something: neither label nor type is left blank. */
  predicate Says(a: Alphabet, m: map<string, string>, g: string)
    requires g in m
  {
    a.Trim(g) != "" && a.Lower(a.Trim(m[g])) != ""
  }

  /** The entries agree: known types, and one type per group. */
  ghost predicate Agree(a: Alphabet, m: map<string, string>, keys: seq<string>)
    requires forall k :: k in keys ==> k in m
  {
    && (forall g :: g in keys && Says(a, m, g) ==> IsContentTypeName(a.Lower(a.Trim(m[g]))))
    && (forall g, h :: g in keys && h in keys && Says(a, m, g) && Says(a, m, h) && GroupKey(a, g) == GroupKey(a, h) ==>
          a.Lower(a.Trim(m[g])) == a.Lower(a.Trim(m[h])))
  }

  /** What is kept so far does not contradict an entry. */
  ghost predicate Fits(a: Alphabet, m: map<string, string>, keys: seq<string>, over: map<string, string>, seen: map<string, string>)
    requires (forall k :: k in keys ==> k in m) && seen.Values <= over.Keys
  {
    forall g :: g in keys && Says(a, m, g) && GroupKey(a, g) in seen ==> over[seen[GroupKey(a, g)]] == a.Lower(a.Trim(m[g]))
  }

  /** The labels kept are filed under their own keys. */
  ghost predicate Filed(a: Alphabet, over: map<string, string>, seen: map<string, string>) {
    seen.Values <= over.Keys && forall k :: k in seen ==> GroupKey(a, seen[k]) == k
  }

  lemma FitsRest(a: Alphabet, keys: seq<string>, m: map<string, string>, over: map<string, string>, seen: map<string, string>)
    requires keys != [] && (forall k :: k in keys ==> k in m) && Filed(a, over, seen)
    ensures var g, rest := keys[0], keys[1..];
            Agree(a, m, keys) && Fits(a, m, keys, over, seen)
            <==> if !Says(a, m, g) then Agree(a, m, rest) && Fits(a, m, rest, over, seen)
                 else
                   var t, key := a.Lower(a.Trim(m[g])), GroupKey(a, g);
                   && IsContentTypeName(t)
                   && (key in seen ==> over[seen[key]] == t)
                   && Agree(a, m, rest) && Fits(a, m, rest, over, seen)
                   && forall h :: h in rest && Says(a, m, h) && GroupKey(a, h) == key ==> a.Lower(a.Trim(m[h])) == t
  {
    hide GroupKey, Alphabet.Trim, Alphabet.Lower, Says;
    assert forall g :: g in keys <==> g == keys[0] || g in keys[1..];
  }

  lemma FitsKept(a: Alphabet, keys: seq<string>, m: map<string, string>, over: map<string, string>, seen: map<string, string>,
                 name: string, t: string)
    requires (forall k :: k in keys ==> k in m) && Filed(a, over, seen) && GroupKey(a, name) !in seen
    ensures Filed(a, over[name := t], seen[GroupKey(a, name) := name])
    ensures Fits(a, m, keys, over[name := t], seen[GroupKey(a, name) := name])
            <==> && Fits(a, m, keys, over, seen)
                 && forall h :: h in keys && Says(a, m, h) && GroupKey(a, h) == GroupKey(a, name) ==> a.Lower(a.Trim(m[h])) == t
  {
    hide GroupKey, Alphabet.Trim, Alphabet.Lower, Says;
    var key := GroupKey(a, name);
    var over', seen' := over[name := t], seen[key := name];
    assert forall k :: k in seen ==> k != key && seen'[k] == seen[k] && seen[k] in over && seen[k] != name;
    assert forall k :: k in seen ==> over'[seen'[k]] == over[seen[k]];
  }

  lemma {:induction false} OverridesRefused(a: Alphabet, keys: seq<string>, m: map<string, string>,
                                            over: map<string, string>, seen: map<string, string>)
    requires a.Lawful() && (forall k :: k in keys ==> k in m) && Filed(a, over, seen)
    ensures NormalOverridesFrom(a, keys, m, over, seen).Ok? <==> Agree(a, m, keys) && Fits(a, m, keys, over, seen)
  {
    hide GroupKey, Alphabet.Trim, Alphabet.Lower, Agree, Fits, Filed;
    if keys == [] {
      NothingDisagrees(a, m, over, seen);
    } else {
      FiledLabels(a, over, seen);
      FitsRest(a, keys, m, over, seen);
      KeyOfTrim(a, keys[0]);
      var t, name := a.Lower(a.Trim(m[keys[0]])), a.Trim(keys[0]);
      var key := GroupKey(a, name);
      if !Says(a, m, keys[0]) || (IsContentTypeName(t) && key in seen) {
        OverridesRefused(a, keys[1..], m, over, seen);
        if Says(a, m, keys[0]) {
          SeenDecides(a, keys[1..], m, over, seen, key);
        }
      } else if IsContentTypeName(t) {
        FitsKept(a, keys[1..], m, over, seen, name, t);
        FiledLabels(a, over[name := t], seen[key := name]);
        OverridesRefused(a, keys[1..], m, over[name := t], seen[key := name]);
      }
    }
  }

  lemma FiledLabels(a: Alphabet, over: map<string, string>, seen: map<string, string>)
    requires Filed(a, over, seen)
    ensures seen.Values <= over.Keys
  {
  }

  lemma NothingDisagrees(a: Alphabet, m: map<string, string>, over: map<string, string>, seen: map<string, string>)
    requires Filed(a, over, seen)
    ensures Agree(a, m, []) && Fits(a, m, [], over, seen)
  {
  }

  lemma SeenDecides(a: Alphabet, keys: seq<string>, m: map<string, string>, over: map<string, string>, seen: map<string, string>,
                    key: string)
    requires (forall k :: k in keys ==> k in m) && Filed(a, over, seen) && key in seen
    ensures Fits(a, m, keys, over, seen) ==>
              forall h :: h in keys && Says(a, m, h) && GroupKey(a, h) == key ==> a.Lower(a.Trim(m[h])) == over[seen[key]]
  {
  }

  /** The label h is how the first entry of its group is spelled. */
  ghost predicate FirstSpelled(a: Alphabet, keys: seq<string>, m: map<string, string>, h: string)
    requires forall k :: k in keys ==> k in m
  {
    exists i :: 0 <= i < |keys| && Says(a, m, keys[i]) && a.Trim(keys[i]) == h
                && forall j :: 0 <= j < i && Says(a, m, keys[j]) ==> GroupKey(a, keys[j]) != GroupKey(a, h)
  }

  /** What a run over the labels leaves: all that was kept before, the type of
      every entry under its group, and nothing the operator did not write. */
  ghost predicate Kept(a: Alphabet, keys: seq<string>, m: map<string, string>, over: map<string, string>, r: map<string, string>)
    requires forall k :: k in keys ==> k in m
  {
    && (forall g :: g in over ==> g in r && r[g] == over[g])
    && (forall g :: g in keys && Says(a, m, g) ==>
          exists h :: h in r && GroupKey(a, h) == GroupKey(a, g) && r[h] == a.Lower(a.Trim(m[g])))
    && (forall h :: h in r && h !in over ==> FirstSpelled(a, keys, m, h))
  }

  lemma FirstSpelledCons(a: Alphabet, keys: seq<string>, m: map<string, string>, h: string)
    requires a.Lawful() && keys != [] && (forall k :: k in keys ==> k in m)
    ensures FirstSpelled(a, keys[1..], m, h) && (Says(a, m, keys[0]) ==> GroupKey(a, keys[0]) != GroupKey(a, h))
            ==> FirstSpelled(a, keys, m, h)
    ensures Says(a, m, keys[0]) && a.Trim(keys[0]) == h ==> FirstSpelled(a, keys, m, h)
  {
    hide GroupKey, Alphabet.Trim, Alphabet.Lower, Says;
    var rest := keys[1..];
    if FirstSpelled(a, rest, m, h) && (Says(a, m, keys[0]) ==> GroupKey(a, keys[0]) != GroupKey(a, h)) {
      var i :| 0 <= i < |rest| && Says(a, m, rest[i]) && a.Trim(rest[i]) == h
        && forall j :: 0 <= j < i && Says(a, m, rest[j]) ==> GroupKey(a, rest[j]) != GroupKey(a, h);
      assert keys[i + 1] == rest[i];
      assert forall j :: 0 < j < i + 1 ==> keys[j] == rest[j - 1];
    }
  }

  lemma KeptSkip(a: Alphabet, keys: seq<string>, m: map<string, string>, over: map<string, string>, seen: map<string, string>,
                 r: map<string, string>)
    requires a.Lawful() && keys != [] && (forall k :: k in keys ==> k in m) && Filed(a, over, seen)
    requires Kept(a, keys[1..], m, over, r)
    requires forall h :: h in r && h !in over ==> GroupKey(a, h) !in seen
    requires Says(a, m, keys[0]) ==>
               var key := GroupKey(a, keys[0]);
               key in seen && over[seen[key]] == a.Lower(a.Trim(m[keys[0]]))
    ensures Kept(a, keys, m, over, r)
  {
    hide GroupKey, Alphabet.Trim, Alphabet.Lower, Alphabet.Lawful, Says, FirstSpelled;
    assert forall g :: g in keys <==> g == keys[0] || g in keys[1..];
    forall h | h in r && h !in over
      ensures FirstSpelled(a, keys, m, h)
    {
      FirstSpelledCons(a, keys, m, h);
    }
  }

  lemma KeptTake(a: Alphabet, keys: seq<string>, m: map<string, string>, over: map<string, string>, r: map<string, string>)
    requires a.Lawful() && keys != [] && (forall k :: k in keys ==> k in m) && Says(a, m, keys[0])
    requires a.Trim(keys[0]) !in over
    requires Kept(a, keys[1..], m, over[a.Trim(keys[0]) := a.Lower(a.Trim(m[keys[0]]))], r)
    requires forall h :: h in r && h !in over && h != a.Trim(keys[0]) ==> GroupKey(a, h) != GroupKey(a, keys[0])
    ensures Kept(a, keys, m, over, r)
  {
    hide GroupKey, Alphabet.Trim, Alphabet.Lower, Alphabet.Lawful, Says, FirstSpelled;
    KeyOfTrim(a, keys[0]);
    assert forall g :: g in keys <==> g == keys[0] || g in keys[1..];
    assert a.Trim(keys[0]) in r && r[a.Trim(keys[0])] == a.Lower(a.Trim(m[keys[0]]));
    forall h | h in r && h !in over
      ensures FirstSpelled(a, keys, m, h)
    {
      FirstSpelledCons(a, keys, m, h);
    }
  }

  lemma {:induction false} OverridesKept(a: Alphabet, keys: seq<string>, m: map<string, string>,
                                         over: map<string, string>, seen: map<string, string>)
    requires a.Lawful() && (forall k :: k in keys ==> k in m) && Filed(a, over, seen)
    requires forall g :: g in over ==> GroupKey(a, g) in seen
    requires NormalOverridesFrom(a, keys, m, over, seen).Ok?
    ensures var r := NormalOverridesFrom(a, keys, m, over, seen).value;
            && Kept(a, keys, m, over, r)
            && forall h :: h in r && h !in over ==> GroupKey(a, h) !in seen
  {
    hide GroupKey, Alphabet.Trim, Alphabet.Lower, Kept, Filed;
    FiledLabels(a, over, seen);
    if keys == [] {
      NothingToKeep(a, m, over);
    } else {
      KeyOfTrim(a, keys[0]);
      var t, name := a.Lower(a.Trim(m[keys[0]])), a.Trim(keys[0]);
      var key := GroupKey(a, name);
      if !Says(a, m, keys[0]) || key in seen {
        OverridesKept(a, keys[1..], m, over, seen);
        KeptSkip(a, keys, m, over, seen, NormalOverridesFrom(a, keys, m, over, seen).value);
      } else {
        FitsKept(a, keys[1..], m, over, seen, name, t);
        FiledLabels(a, over[name := t], seen[key := name]);
        OverridesKept(a, keys[1..], m, over[name := t], seen[key := name]);
        KeptTake(a, keys, m, over, NormalOverridesFrom(a, keys, m, over, seen).value);
      }
    }
  }

  lemma NothingToKeep(a: Alphabet, m: map<string, string>, over: map<string, string>)
    ensures Kept(a, [], m, over, over)
  {
  }

  /** The entries that say something name known types, one per group. */
  ghost predicate OverridesAgree(a: Alphabet, m: map<string, string>) {
    && (forall g :: g in m && Says(a, m, g) ==> a.Lower(a.Trim(m[g])) in {"live", "vod", "series"})
    && (forall g, h :: g in m && h in m && Says(a, m, g) && Says(a, m, h) && GroupKey(a, g) == GroupKey(a, h) ==>
          a.Lower(a.Trim(m[g])) == a.Lower(a.Trim(m[h])))
  }

  /** Every entry that says something is there under its group, and no other. */
  ghost predicate OverridesRead(a: Alphabet, tidy: map<string, string>, typed: map<string, string>) {
    && (forall g :: g in typed && Says(a, typed, g) ==>
          exists h :: h in tidy && GroupKey(a, h) == GroupKey(a, g) && tidy[h] == a.Lower(a.Trim(typed[g])))
    && (forall h :: h in tidy ==> exists g :: g in typed && Says(a, typed, g) && a.Trim(g) == h)
  }

  /** Forced types are accepted exactly when every entry that says something names
      a known type and no group is given two. Then each group has the type its
      entries said, under the trimmed spelling that sorts first, and no other
      label is there. */
  lemma OverridesMeanWhatTheySay(a: Alphabet, m: map<string, string>)
    requires a.Lawful()
    ensures NormalOverrides(a, m).Ok? <==> OverridesAgree(a, m)
    ensures NormalOverrides(a, m).Ok? ==>
              var r := NormalOverrides(a, m).value;
              && OverridesRead(a, r, m)
              && (forall h :: h in r ==>
                    exists g :: g in m && Says(a, m, g) && a.Trim(g) == h
                                && forall o :: o in m && Says(a, m, o) && GroupKey(a, o) == GroupKey(a, h) ==> StringLeq(g, o))
  {
    hide GroupKey, Alphabet.Trim, Alphabet.Lower, NormalOverridesFrom, SortedSet, Says, FirstSpelled, StringLeq;
    var keys := SortedSet(m.Keys);
    OverridesRefused(a, keys, m, map[], map[]);
    AgreeIsAgree(a, m);
    if NormalOverrides(a, m).Ok? {
      OverridesKept(a, keys, m, map[], map[]);
      var r := NormalOverrides(a, m).value;
      forall h | h in r
        ensures exists g :: g in m && Says(a, m, g) && a.Trim(g) == h
                            && forall o :: o in m && Says(a, m, o) && GroupKey(a, o) == GroupKey(a, h) ==> StringLeq(g, o)
      {
        var g := FirstIsLeast(a, m, h);
      }
    }
  }

  lemma AgreeIsAgree(a: Alphabet, m: map<string, string>)
    ensures var keys := SortedSet(m.Keys);
            Agree(a, m, keys) && Fits(a, m, keys, map[], map[]) <==> OverridesAgree(a, m)
  {
    hide GroupKey, Alphabet.Trim, Alphabet.Lower, SortedSet, Says;
    var keys := SortedSet(m.Keys);
    assert forall g :: g in keys <==> g in m;
    assert forall t :: IsContentTypeName(t) <==> t in {"live", "vod", "series"};
  }

  lemma FirstIsLeast(a: Alphabet, m: map<string, string>, h: string) returns (g: string)
    requires FirstSpelled(a, SortedSet(m.Keys), m, h)
    ensures g in m && Says(a, m, g) && a.Trim(g) == h
    ensures forall o :: o in m && Says(a, m, o) && GroupKey(a, o) == GroupKey(a, h) ==> StringLeq(g, o)
  {
    hide GroupKey, Alphabet.Trim, Alphabet.Lower, SortedSet, Says, StringLeq;
    var keys := SortedSet(m.Keys);
    SortedSetIsSorted(m.Keys);
    StringOrder();
    var i :| 0 <= i < |keys| && Says(a, m, keys[i]) && a.Trim(keys[i]) == h
      && forall j :: 0 <= j < i && Says(a, m, keys[j]) ==> GroupKey(a, keys[j]) != GroupKey(a, h);
    g := keys[i];
    forall o | o in m && Says(a, m, o) && GroupKey(a, o) == GroupKey(a, h)
      ensures StringLeq(g, o)
    {
      assert o in keys;
      var j :| 0 <= j < |keys| && keys[j] == o;
    }
  }

  // ---- the whole source -------------------------------------------------------------------------

  function TrimAll(a: Alphabet, values: seq<string>): seq<string> {
    seq(|values|, i requires 0 <= i < |values| => a.Trim(values[i]))
  }

  /** Tiers stay in order, trimmed, without the blank ones. */
  lemma {:induction false} TiersKeepTheirOrder(a: Alphabet, tiers: seq<string>)
    ensures NormalTiers(a, tiers) == NonBlank(TrimAll(a, tiers))
    ensures forall t :: t in NormalTiers(a, tiers) <==> t != "" && exists o :: o in tiers && a.Trim(o) == t
  {
    hide Alphabet.Trim;
    if tiers != [] {
      TiersKeepTheirOrder(a, tiers[1..]);
      assert TrimAll(a, tiers) == [a.Trim(tiers[0])] + TrimAll(a, tiers[1..]);
      assert forall o :: o in tiers <==> o == tiers[0] || o in tiers[1..];
    }
  }

  ghost predicate BlankOrCompiles(e: Engine, pattern: string) {
    pattern == "" || e.compiles(pattern)
  }

  /** What the import can honour. */
  ghost predicate Honourable(e: Engine, s: Source) {
    var a := e.alphabet;
    && a.Lower(a.Trim(s.filterDefault)) in {"", "keep", "drop"}
    && |s.filterRules| <= 200 && (forall r :: r in Typed(s.filterRules) ==> !Faulty(e, r))
    && s.groupFilterMode in {"", "include", "exclude"}
    && (s.groupFilterMode == "include" ==> s.groupFilterList != [] || s.groupFilterRegex != "")
    && (forall v :: v in s.importTypes ==> a.Lower(a.Trim(v)) in {"live", "vod", "series"})
    && OverridesAgree(a, s.groupTypeOverrides)
    && (forall t :: t in s.qualityTiers ==> a.Trim(t) == "" || e.compiles("(?i)\\b(?:" + a.Trim(t) + ")\\b"))
    && PatternsCompile(e, s)
  }

  ghost predicate PatternsCompile(e: Engine, s: Source) {
    && BlankOrCompiles(e, s.groupFilterRegex)
    && BlankOrCompiles(e, s.liveCategory) && BlankOrCompiles(e, s.vodCategory) && BlankOrCompiles(e, s.seriesCategory)
    && BlankOrCompiles(e, s.liveInclude) && BlankOrCompiles(e, s.liveExclude)
    && BlankOrCompiles(e, s.seriesInclude) && BlankOrCompiles(e, s.seriesExclude)
    && BlankOrCompiles(e, s.vodInclude) && BlankOrCompiles(e, s.vodExclude)
  }

  lemma PatternsRead(e: Engine, s: Source)
    ensures FirstBad(e, NamedPatterns(s)).None? <==> PatternsCompile(e, s)
  {
    var ps := NamedPatterns(s);
    assert ps[0].1 == s.groupFilterRegex && ps[1].1 == s.liveCategory && ps[2].1 == s.vodCategory && ps[3].1 == s.seriesCategory;
    assert ps[4].1 == s.liveInclude && ps[5].1 == s.liveExclude && ps[6].1 == s.seriesInclude && ps[7].1 == s.seriesExclude;
    assert ps[8].1 == s.vodInclude && ps[9].1 == s.vodExclude;
    hide FirstBad;
    assert forall i :: 0 <= i < 10 ==> (ps[i].1 == "" || e.compiles(ps[i].1) <==> BlankOrCompiles(e, ps[i].1));
  }

  lemma TiersRead(e: Engine, tiers: seq<string>)
    ensures FirstBadTier(e, NormalTiers(e.alphabet, tiers)).None? <==>
            forall t :: t in tiers ==>
              e.alphabet.Trim(t) == "" || e.compiles("(?i)\\b(?:" + e.alphabet.Trim(t) + ")\\b")
  {
    hide Alphabet.Trim, FirstBadTier, NormalTiers;
    TiersKeepTheirOrder(e.alphabet, tiers);
    var out := NormalTiers(e.alphabet, tiers);
    if FirstBadTier(e, out).None? {
      forall t | t in tiers && e.alphabet.Trim(t) != ""
        ensures e.compiles("(?i)\\b(?:" + e.alphabet.Trim(t) + ")\\b")
      {
        assert e.alphabet.Trim(t) in out;
        var i :| 0 <= i < |out| && out[i] == e.alphabet.Trim(t);
        assert e.compiles(QualityTierPattern(out[i]));
      }
    } else {
      var i :| 0 <= i < |out| && !e.compiles(QualityTierPattern(out[i]));
      assert out[i] in out;
      var o :| o in tiers && e.alphabet.Trim(o) == out[i];
    }
  }

  /** A list is tidied to nothing only when nothing was on it. */
  lemma SelectionStays(a: Alphabet, groups: seq<string>)
    ensures DedupeFrom(a, groups, {}) == [] <==> groups == []
  {
    hide GroupKey, Alphabet.Trim;
    var none: set<string> := {};
    if groups != [] {
      assert GroupKey(a, a.Trim(groups[0])) !in none;
      assert |DedupeFrom(a, groups, none)| > 0;
    }
  }

  /** The run in one view: what it needs, and what it leaves. */
  lemma RunAtOnce(e: Engine, s: Source)
    ensures Normalized(e, s).error.None? <==>
            && NormalDefault(e.alphabet, s.filterDefault).Ok?
            && NormalRules(e, s.filterRules).Ok?
            && IsMode(s.groupFilterMode)
            && !(s.groupFilterMode == MODE_INCLUDE && DedupeFrom(e.alphabet, s.groupFilterList, {}) == [] && s.groupFilterRegex == "")
            && NormalTypes(e.alphabet, s.importTypes).Ok?
            && NormalOverrides(e.alphabet, s.groupTypeOverrides).Ok?
            && FirstBadTier(e, NormalTiers(e.alphabet, s.qualityTiers)).None?
            && FirstBad(e, NamedPatterns(s)).None?
    ensures Normalized(e, s).error.None? ==>
              Normalized(e, s).source == s.(
                filterProfile := e.alphabet.Trim(s.filterProfile),
                filterDefault := NormalDefault(e.alphabet, s.filterDefault).value,
                filterRules := NormalRules(e, s.filterRules).value,
                groupFilterList := DedupeFrom(e.alphabet, s.groupFilterList, {}),
                importTypes := NormalTypes(e.alphabet, s.importTypes).value,
                groupTypeOverrides := NormalOverrides(e.alphabet, s.groupTypeOverrides).value,
                qualityTiers := NormalTiers(e.alphabet, s.qualityTiers))
  {
    hide NormalRules, DedupeFrom, NormalTypes, NormalOverrides, NormalTiers, FirstBad, FirstBadTier, NormalDefault, Alphabet.Trim;
  }

  /** The gate as a whole list. */
  lemma GateMeansWhatItSays(a: Alphabet, values: seq<string>)
    ensures NormalTypes(a, values).Ok? <==> forall v :: v in values ==> a.Lower(a.Trim(v)) in {"live", "vod", "series"}
  {
    hide Alphabet.Trim, Alphabet.Lower, NormalTypes;
    TypesMeanWhatTheySay(a, values, "live");
  }

  /** A save is accepted exactly when the import can honour every setting. */
  lemma AcceptedIffHonourable(e: Engine, s: Source)
    requires e.Lawful()
    ensures Normalized(e, s).error.None? <==> Honourable(e, s)
  {
    hide NormalRules, DedupeFrom, NormalTypes, NormalOverrides, NormalTiers, FirstBad, FirstBadTier, NormalDefault, Alphabet.Trim,
      Alphabet.Lower, Normalized, NamedPatterns, OverridesAgree, PatternsCompile, Faulty, Typed, RulesRead, DefaultReads;
    RunAtOnce(e, s);
    DefaultMeansWhatItSays(e.alphabet, s.filterDefault);
    RulesMeanWhatTheySay(e, s.filterRules);
    SelectionStays(e.alphabet, s.groupFilterList);
    GateMeansWhatItSays(e.alphabet, s.importTypes);
    OverridesMeanWhatTheySay(e.alphabet, s.groupTypeOverrides);
    TiersRead(e, s.qualityTiers);
    PatternsRead(e, s);
  }

  /** The gate lets through the types it was typed to. */
  ghost predicate GateReads(a: Alphabet, tidy: seq<string>, typed: seq<string>) {
    forall t :: t in {"live", "vod", "series"} ==>
      (tidy == [] || t in tidy <==> typed == [] || exists v :: v in typed && a.Lower(a.Trim(v)) == t)
  }

  lemma GateRead(a: Alphabet, values: seq<string>)
    requires NormalTypes(a, values).Ok?
    ensures GateReads(a, NormalTypes(a, values).value, values)
  {
    hide NormalTypes, Alphabet.Trim, Alphabet.Lower;
    TypesMeanWhatTheySay(a, values, "live");
    TypesMeanWhatTheySay(a, values, "vod");
    TypesMeanWhatTheySay(a, values, "series");
  }

  /** The tidied source n says what s does: the default, the rules, the labels, the
      gate, the forced types and the tiers as typed, everything else unchanged. */
  ghost predicate SaysTheSame(a: Alphabet, s: Source, n: Source) {
    && n.filterProfile == a.Trim(s.filterProfile)
    && DefaultReads(a, n.filterDefault, s.filterDefault)
    && RulesRead(a, n.filterRules, s.filterRules)
    && n.groupFilterList == FirstNamed(a, s.groupFilterList)
    && GateReads(a, n.importTypes, s.importTypes)
    && OverridesRead(a, n.groupTypeOverrides, s.groupTypeOverrides)
    && n.qualityTiers == NonBlank(TrimAll(a, s.qualityTiers))
    && n == s.(filterProfile := n.filterProfile, filterDefault := n.filterDefault, filterRules := n.filterRules,
               groupFilterList := n.groupFilterList, importTypes := n.importTypes,
               groupTypeOverrides := n.groupTypeOverrides, qualityTiers := n.qualityTiers)
  }

  /** An accepted save stores what the operator typed. */
  lemma AcceptedMeansWhatItSays(e: Engine, s: Source)
    requires e.Lawful() && Normalized(e, s).error.None?
    ensures SaysTheSame(e.alphabet, s, Normalized(e, s).source)
  {
    hide NormalRules, DedupeFrom, NormalTypes, NormalOverrides, NormalTiers, FirstBad, FirstBadTier, NormalDefault, Alphabet.Trim,
      Alphabet.Lower, Normalized, NamedPatterns, RulesRead, DefaultReads, GateReads, OverridesRead, Faulty, FirstNamed, GroupKey,
      Says, NonBlank, TrimAll;
    RunAtOnce(e, s);
    DefaultMeansWhatItSays(e.alphabet, s.filterDefault);
    RulesMeanWhatTheySay(e, s.filterRules);
    LabelsKeepTheirOrder(e.alphabet, s.groupFilterList);
    GateRead(e.alphabet, s.importTypes);
    OverridesMeanWhatTheySay(e.alphabet, s.groupTypeOverrides);
    TiersKeepTheirOrder(e.alphabet, s.qualityTiers);
  }

  /** The setting called that holds that pattern. */
  ghost predicate Named(s: Source, field: string, pattern: string) {
    || (field == "groupFilterRegex" && pattern == s.groupFilterRegex)
    || (field == "liveCategoryRegex" && pattern == s.liveCategory)
    || (field == "vodCategoryRegex" && pattern == s.vodCategory)
    || (field == "seriesCategoryRegex" && pattern == s.seriesCategory)
    || (field == "liveIncludeRegex" && pattern == s.liveInclude)
    || (field == "liveExcludeRegex" && pattern == s.liveExclude)
    || (field == "seriesIncludeRegex" && pattern == s.seriesInclude)
    || (field == "seriesExcludeRegex" && pattern == s.seriesExclude)
    || (field == "vodIncludeRegex" && pattern == s.vodInclude)
    || (field == "vodExcludeRegex" && pattern == s.vodExclude)
  }

  lemma NamesOfPatterns(s: Source)
    ensures forall i :: 0 <= i < |NamedPatterns(s)| ==> Named(s, NamedPatterns(s)[i].0, NamedPatterns(s)[i].1)
  {
  }

  /** The pattern an error names is set and does not compile. */
  lemma {:induction false} BadPatternIsNamed(e: Engine, s: Source, ps: seq<(string, string)>) returns (pattern: string)
    requires FirstBad(e, ps).Some? && forall i :: 0 <= i < |ps| ==> Named(s, ps[i].0, ps[i].1)
    ensures Named(s, FirstBad(e, ps).value, pattern) && pattern != "" && !e.compiles(pattern)
  {
    if ps[0].1 != "" && !e.compiles(ps[0].1) {
      pattern := ps[0].1;
    } else {
      pattern := BadPatternIsNamed(e, s, ps[1..]);
    }
  }
}
