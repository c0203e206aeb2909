/** What the profile requests keep, over every run. */
module ProfileLaws {
  import opened Text
  import opened Sorting
  import opened Config
  import opened Normalize
  import opened NormalizeLaws
  import opened Profiles

  // ---- integrity ---------------------------------------------------------------------------

  ghost predicate Names(profiles: seq<FilterProfile>, name: string) {
    exists p :: p in profiles && p.name == name
  }

  ghost predicate Distinct(profiles: seq<FilterProfile>) {
    forall i, j :: 0 <= i < j < |profiles| ==> profiles[i].name != profiles[j].name && profiles[i].id != profiles[j].id
  }

  ghost predicate Attached(profiles: seq<FilterProfile>, sources: seq<Source>) {
    forall i :: 0 <= i < |sources| ==> sources[i].filterProfile == "" || Names(profiles, sources[i].filterProfile)
  }

  /** Names are unique, every source, stored or live, names no profile or an
      existing one, and the live profiles are the stored ones. */
  ghost predicate Integral(s: State) {
    && Distinct(s.tables.profiles)
    && (forall p :: p in s.tables.profiles ==> p.name != "" && p.id < s.tables.nextId)
    && Attached(s.tables.profiles, s.tables.sources) && Attached(s.tables.profiles, s.live.sources)
    && s.live.profiles == Load(s.tables).profiles
  }

  /** The live sources are the stored ones. */
  predicate InStep(s: State) {
    s.live.sources == s.tables.sources
  }

  /** What is live is what is stored. */
  ghost predicate Intact(s: State) {
    Integral(s) && InStep(s)
  }

  /** Looking a name up in the loaded list finds the row that holds it. */
  lemma FoundWhenLoaded(profiles: seq<FilterProfile>, name: string)
    ensures var r := FilterProfileByName(SortBy(profiles, NameLeq), name);
            && (r.Some? <==> Names(profiles, name))
            && (r.Some? ==> r.value in profiles && r.value.name == name)
  {
    var sorted := SortBy(profiles, NameLeq);
    SortPermutes(profiles, NameLeq);
    hide SortBy, FilterProfileByName;
    forall p ensures p in sorted <==> p in profiles {
      assert p in sorted <==> p in multiset(sorted);
      assert p in profiles <==> p in multiset(profiles);
    }
  }

  lemma OnlyOneHolds(profiles: seq<FilterProfile>, p: FilterProfile, q: FilterProfile)
    requires Distinct(profiles) && p in profiles && q in profiles && (p.name == q.name || p.id == q.id)
    ensures p == q
  {
  }

  lemma FindsTheRow(profiles: seq<FilterProfile>, p: FilterProfile)
    requires Distinct(profiles) && p in profiles
    ensures FilterProfileByName(SortBy(profiles, NameLeq), p.name) == Some(p)
  {
    hide SortBy, FilterProfileByName;
    FoundWhenLoaded(profiles, p.name);
    var r := FilterProfileByName(SortBy(profiles, NameLeq), p.name);
    OnlyOneHolds(profiles, p, r.value);
  }

  lemma {:induction false} RemovedElements(profiles: seq<FilterProfile>, id: int)
    ensures forall p :: p in Removed(profiles, id) <==> p in profiles && p.id != id
    ensures Distinct(profiles) ==> Distinct(Removed(profiles, id))
  {
    if profiles != [] {
      RemovedElements(profiles[1..], id);
      assert profiles == [profiles[0]] + profiles[1..];
      assert Distinct(profiles) ==> Distinct(profiles[1..]);
      var rest := Removed(profiles[1..], id);
      assert forall i :: 0 <= i < |rest| ==> rest[i] in rest;
    }
  }

  lemma ReplacedDistinct(profiles: seq<FilterProfile>, p: FilterProfile)
    requires Distinct(profiles) && !Taken(profiles, p.name, p.id)
    ensures Distinct(Replaced(profiles, p))
  {
    assert forall i :: 0 <= i < |profiles| ==> profiles[i] in profiles;
  }

  lemma ReplacedElements(profiles: seq<FilterProfile>, p: FilterProfile)
    requires Distinct(profiles) && RowAt(profiles, p.id).Some? && !Taken(profiles, p.name, p.id)
    ensures Distinct(Replaced(profiles, p)) && p in Replaced(profiles, p)
    ensures forall q :: q in profiles && q.id != p.id ==> q in Replaced(profiles, p)
    ensures forall q :: q in Replaced(profiles, p) ==> q == p || (q in profiles && q.id != p.id)
  {
    ReplacedDistinct(profiles, p);
    hide RowAt, Taken, Distinct, Replaced;
    var r := Replaced(profiles, p);
    var row := RowAt(profiles, p.id).value;
    var i :| 0 <= i < |profiles| && profiles[i] == row;
    assert r[i] == p;
    forall q | q in profiles && q.id != p.id
      ensures q in r
    {
      var j :| 0 <= j < |profiles| && profiles[j] == q;
      assert r[j] == q;
    }
  }

  // ---- each request keeps it -------------------------------------------------------------------

  /** A payload that can be stored: a name, a default that is known, and rules none
      of which is at fault. */
  predicate Storable(e: Engine, p: FilterProfile) {
    && e.alphabet.Trim(p.name) != ""
    && e.alphabet.Lower(e.alphabet.Trim(p.fallback)) in {"", "keep", "drop"}
    && |p.rules| <= 200 && forall r :: r in Typed(p.rules) ==> !Faulty(e, r)
  }

  /** The row says what the payload said. */
  predicate Holds(a: Alphabet, row: FilterProfile, p: FilterProfile) {
    && row.name == a.Trim(p.name)
    && row.fallback == (if a.Lower(a.Trim(p.fallback)) == "drop" then "drop" else "")
    && RulesRead(a, row.rules, p.rules)
  }

  /** A payload in the form rows are stored in. */
  ghost predicate TidyPayload(e: Engine, p: FilterProfile) {
    e.alphabet.Trim(p.name) != "" && p.fallback in {"", "drop"} && CanonicalRules(e, p.rules)
  }

  lemma PayloadTidied(e: Engine, p: FilterProfile)
    ensures NormalProfile(e, p).Some? <==> Storable(e, p)
    ensures NormalProfile(e, p).Some? ==> Holds(e.alphabet, NormalProfile(e, p).value, p)
    ensures e.Lawful() && TidyPayload(e, p) ==> NormalProfile(e, p) == Some(p.(name := e.alphabet.Trim(p.name)))
  {
    hide NormalRules, NormalDefault, Alphabet.Trim, Alphabet.Lower, Faulty, Typed, RulesRead, CanonicalRules;
    DefaultMeansWhatItSays(e.alphabet, p.fallback);
    RulesMeanWhatTheySay(e, p.rules);
    if e.Lawful() && TidyPayload(e, p) {
      PlainWordIsFixed(e.alphabet, p.fallback);
      TidyRulesStay(e, p.rules);
    }
  }

  lemma TidyRulesStay(e: Engine, rules: seq<FilterRule>)
    requires e.Lawful() && CanonicalRules(e, rules)
    ensures NormalRules(e, rules) == Ok(rules)
  {
    hide NormalRulesFrom;
    CanonicalRulesAreFixed(e, rules, 0);
    assert rules[0..] == rules;
  }

  lemma NormalProfileHasName(e: Engine, p: FilterProfile)
    ensures NormalProfile(e, p).Some? ==> NormalProfile(e, p).value.name != ""
  {
  }

  lemma CreateKeepsIntact(e: Engine, s: State, p: FilterProfile)
    requires Integral(s)
    ensures Integral(HandledCreate(e, s, p).0)
    ensures InStep(HandledCreate(e, s, p).0) <==> HandledCreate(e, s, p).1.Created? || InStep(s)
  {
    NormalProfileHasName(e, p);
    hide NormalProfile, SortBy;
    if NormalProfile(e, p).Some? {
      var q := NormalProfile(e, p).value;
      if !Taken(s.tables.profiles, q.name, s.tables.nextId) {
        var now := s.tables.profiles + [q.(id := s.tables.nextId)];
        forall i | 0 <= i < |s.tables.profiles|
          ensures s.tables.profiles[i].name != q.name && s.tables.profiles[i].id != s.tables.nextId
        {
          assert s.tables.profiles[i] in s.tables.profiles;
        }
        forall name | Names(s.tables.profiles, name)
          ensures Names(now, name)
        {
          var r :| r in s.tables.profiles && r.name == name;
          assert r in now;
        }
      }
    }
  }

  lemma UpdateKeepsIntact(e: Engine, s: State, id: int, p: FilterProfile)
    requires Integral(s)
    ensures Integral(HandledUpdate(e, s, id, p).0)
    ensures InStep(HandledUpdate(e, s, id, p).0) <==> HandledUpdate(e, s, id, p).1.Success? || InStep(s)
  {
    NormalProfileHasName(e, p);
    hide NormalProfile, SortBy, RowAt;
    if HandledUpdate(e, s, id, p).1.Success? {
      var row := RowAt(s.tables.profiles, id).value;
      var q := NormalProfile(e, p).value.(id := id);
      ReplacedElements(s.tables.profiles, q);
      UpdateKeepsNames(s, q, row);
    }
  }

  lemma UpdateKeepsNames(s: State, q: FilterProfile, row: FilterProfile)
    requires Integral(s) && RowAt(s.tables.profiles, q.id) == Some(row) && !Taken(s.tables.profiles, q.name, q.id)
    ensures var t := Updated(s.tables, q, row.name);
            Attached(t.profiles, t.sources)
  {
    hide SortBy, RowAt;
    var t := Updated(s.tables, q, row.name);
    ReplacedElements(s.tables.profiles, q);
    forall i | 0 <= i < |t.sources| && t.sources[i].filterProfile != ""
      ensures Names(t.profiles, t.sources[i].filterProfile)
    {
      var was := s.tables.sources[i].filterProfile;
      if was == row.name {
        assert q in t.profiles && q.name == t.sources[i].filterProfile;
      } else {
        var r :| r in s.tables.profiles && r.name == was;
        assert r.id == q.id ==> r == row by {
          if r.id == q.id { OnlyOneHolds(s.tables.profiles, r, row); }
        }
        assert r in t.profiles;
      }
    }
  }

  lemma DeleteKeepsIntact(s: State, id: int, force: bool)
    requires Integral(s)
    ensures Integral(HandledDelete(s, id, force).0)
    ensures InStep(HandledDelete(s, id, force).0) <==> HandledDelete(s, id, force).1.Success? || InStep(s)
  {
    hide SortBy, RowAt;
    if HandledDelete(s, id, force).1.Success? {
      var row := RowAt(s.tables.profiles, id).value;
      var t := Deleted(s.tables, row);
      RemovedElements(s.tables.profiles, id);
      forall i | 0 <= i < |t.sources| && t.sources[i].filterProfile != ""
        ensures Names(t.profiles, t.sources[i].filterProfile)
      {
        var r :| r in s.tables.profiles && r.name == s.tables.sources[i].filterProfile;
        assert r.id == id ==> r == row by {
          if r.id == id { OnlyOneHolds(s.tables.profiles, r, row); }
        }
        assert r in t.profiles;
      }
    }
  }

  /** A save that fails half way leaves the stored sources and the live ones apart
      unless the rows written happen to be those that are live. */
  lemma SaveKeepsIntact(e: Engine, s: State, sources: seq<Source>, writes: Writes)
    requires Integral(s)
    ensures Integral(HandledSave(e, s, sources, writes).0)
    ensures var (t, r) := HandledSave(e, s, sources, writes);
            InStep(t) <==>
              if r.Failed? && writes.Partial?
              then FirstRows(AcceptedAll(e, s.live.sources, sources).value, writes.rows) == s.live.sources
              else r.Success? || InStep(s)
  {
    hide AcceptedAll, FilterProfileByName, SortBy;
    if AcceptedAll(e, s.live.sources, sources).Some? {
      var accepted := AcceptedAll(e, s.live.sources, sources).value;
      if NamesExist(s.live.profiles, accepted) {
        forall i | 0 <= i < |accepted|
          ensures accepted[i].filterProfile == "" || Names(s.tables.profiles, accepted[i].filterProfile)
        {
          FoundWhenLoaded(s.tables.profiles, accepted[i].filterProfile);
        }
      }
    }
  }

  ghost function StateAfter(e: Engine, s: State, reqs: seq<Request>): State {
    if reqs == [] then s else Handled(e, StateAfter(e, s, reqs[..|reqs| - 1]), reqs[|reqs| - 1]).0
  }

  /** Over every run of requests, one at a time: integrity, saves that fail half way
      included, and without such a save what is live stays what is stored. */
  lemma {:induction false} EveryRunIsIntact(e: Engine, start: State, reqs: seq<Request>)
    requires Integral(start)
    ensures Integral(StateAfter(e, start, reqs))
    ensures InStep(start) && (forall i :: 0 <= i < |reqs| && reqs[i].Save? ==> !reqs[i].writes.Partial?) ==>
              Intact(StateAfter(e, start, reqs))
  {
    hide Integral, InStep, HandledCreate, HandledUpdate, HandledDelete, HandledSave, Reloaded;
    if reqs != [] {
      var n := |reqs| - 1;
      assert forall i :: 0 <= i < n ==> reqs[..n][i] == reqs[i];
      EveryRunIsIntact(e, start, reqs[..n]);
      var s := StateAfter(e, start, reqs[..n]);
      match reqs[n]
      case Create(p) => CreateKeepsIntact(e, s, p);
      case Update(id, p) => UpdateKeepsIntact(e, s, id, p);
      case Delete(id, force) => DeleteKeepsIntact(s, id, force);
      case Save(sources, writes) => SaveKeepsIntact(e, s, sources, writes);
    }
  }

  /** A save whose first row fails has lost every stored source; nothing shows
      until the next profile is created, which then takes the loss live. */
  lemma FailedSaveLosesSources(e: Engine, s: State, sources: seq<Source>, p: FilterProfile)
    requires HandledSave(e, s, sources, Partial(0)).1.Failed?
    requires HandledCreate(e, HandledSave(e, s, sources, Partial(0)).0, p).1.Created?
    ensures var t := HandledSave(e, s, sources, Partial(0)).0;
            && t.tables.sources == [] && t.live == s.live
            && HandledCreate(e, t, p).0.live.sources == []
  {
    hide AcceptedAll, NormalProfile, Taken, NamesExist;
  }

  /** An empty database is such a start, and so is a configuration loaded from any
      tables that are in order. */
  lemma LoadedIsIntact(t: Tables)
    requires Distinct(t.profiles) && Attached(t.profiles, t.sources)
    requires forall p :: p in t.profiles ==> p.name != "" && p.id < t.nextId
    ensures Intact(Reloaded(t))
  {
  }

  // ---- what the requests mean for the sources --------------------------------------------------------

  /** The rules a configured source is filtered by. */
  ghost function RulesAt(s: State, i: nat): seq<FilterRule>
    requires i < |s.live.sources|
  {
    EffectiveRules(Config(s.live.profiles), s.live.sources[i])
  }

  ghost function DefaultAt(s: State, i: nat): string
    requires i < |s.live.sources|
  {
    EffectiveDefault(Config(s.live.profiles), s.live.sources[i])
  }

  /** The source's own rules and default, on their own. */
  ghost function OwnDefault(s: Source): string {
    if s.filterDefault != "" then s.filterDefault else DEFAULT_KEEP
  }

  /** The rules of a profile, then the source's own; the source's default, else
      the profile's, else keep. */
  ghost predicate FilteredBy(s: State, i: nat, p: FilterProfile, own: Source)
    requires i < |s.live.sources|
  {
    && RulesAt(s, i) == p.rules + own.filterRules
    && DefaultAt(s, i) == if own.filterDefault != "" then own.filterDefault
                          else if p.fallback != "" then p.fallback else DEFAULT_KEEP
  }

  lemma NamingSource(s: State, i: nat, p: FilterProfile)
    requires s.live == Load(s.tables) && Distinct(s.tables.profiles) && p in s.tables.profiles && p.name != ""
    requires i < |s.tables.sources| && s.tables.sources[i].filterProfile == p.name
    ensures FilteredBy(s, i, p, s.tables.sources[i])
  {
    hide SortBy, FilterProfileByName;
    FindsTheRow(s.tables.profiles, p);
  }

  lemma DetachedSource(s: State, i: nat)
    requires s.live == Load(s.tables) && i < |s.tables.sources| && s.tables.sources[i].filterProfile == ""
    ensures RulesAt(s, i) == s.tables.sources[i].filterRules && DefaultAt(s, i) == OwnDefault(s.tables.sources[i])
  {
  }

  /** A source keeps its filters through a change that leaves it, and the profile
      it names, alone. */
  lemma UntouchedSource(s: State, t: State, i: nat)
    requires Intact(s) && t.live == Load(t.tables) && Distinct(t.tables.profiles)
    requires i < |s.tables.sources| && i < |t.tables.sources| && t.tables.sources[i] == s.tables.sources[i]
    requires forall p :: p in s.tables.profiles && p.name == s.tables.sources[i].filterProfile ==> p in t.tables.profiles
    ensures RulesAt(t, i) == RulesAt(s, i) && DefaultAt(t, i) == DefaultAt(s, i)
  {
    hide RulesAt, DefaultAt;
    var name := s.tables.sources[i].filterProfile;
    if name == "" {
      DetachedSource(s, i);
      DetachedSource(t, i);
    } else {
      var p :| p in s.tables.profiles && p.name == name;
      NamingSource(s, i, p);
      NamingSource(t, i, p);
    }
  }

  /** A new profile changes no source's filters. */
  lemma CreatingChangesNoFilters(e: Engine, s: State, p: FilterProfile, i: nat)
    requires Intact(s) && i < |s.tables.sources|
    ensures var t := HandledCreate(e, s, p).0;
            i < |t.live.sources| && RulesAt(t, i) == RulesAt(s, i) && DefaultAt(t, i) == DefaultAt(s, i)
  {
    CreateKeepsIntact(e, s, p);
    hide NormalProfile, SortBy, RulesAt, DefaultAt;
    UntouchedSource(s, HandledCreate(e, s, p).0, i);
  }

  /** The source is filtered by what the payload says, then by its own rules. */
  ghost predicate FilteredByPayload(a: Alphabet, s: State, i: nat, p: FilterProfile, own: Source)
    requires i < |s.live.sources|
  {
    var n, rules := |Typed(p.rules)|, RulesAt(s, i);
    && |rules| == n + |own.filterRules|
    && (forall k :: 0 <= k < n ==> Reads(a, rules[k], Typed(p.rules)[k]))
    && (forall k :: n <= k < |rules| ==> rules[k] == own.filterRules[k - n])
    && DefaultAt(s, i) == if own.filterDefault != "" then own.filterDefault
                          else if a.Lower(a.Trim(p.fallback)) == "drop" then "drop" else "keep"
  }

  lemma FilteredByRow(a: Alphabet, s: State, i: nat, row: FilterProfile, p: FilterProfile, own: Source)
    requires i < |s.live.sources| && FilteredBy(s, i, row, own) && Holds(a, row, p)
    ensures FilteredByPayload(a, s, i, p, own)
  {
    hide Reads, Typed, RulesAt, DefaultAt, Alphabet.Trim, Alphabet.Lower;
  }

  /** After an update the attached sources go by the new name and are filtered by
      the rules and the default of the payload, and every other source as before. */
  lemma UpdatingReachesAttachedSources(e: Engine, s: State, id: int, p: FilterProfile, i: nat)
    requires Intact(s) && i < |s.tables.sources| && HandledUpdate(e, s, id, p).1.Success?
    ensures var t := HandledUpdate(e, s, id, p).0;
            var row := RowAt(s.tables.profiles, id).value;
            && i < |t.live.sources|
            && (s.tables.sources[i].filterProfile == row.name ==>
                  t.live.sources[i].filterProfile == e.alphabet.Trim(p.name)
                  && FilteredByPayload(e.alphabet, t, i, p, s.tables.sources[i]))
            && (s.tables.sources[i].filterProfile != row.name ==>
                  t.live.sources[i] == s.live.sources[i] && RulesAt(t, i) == RulesAt(s, i) && DefaultAt(t, i) == DefaultAt(s, i))
  {
    UpdateKeepsIntact(e, s, id, p);
    PayloadTidied(e, p);
    hide NormalProfile, SortBy, RulesAt, DefaultAt, RowAt, Storable, TidyPayload, FilteredByPayload, RulesRead, Alphabet.Trim,
      Alphabet.Lower;
    var t := HandledUpdate(e, s, id, p).0;
    var row := RowAt(s.tables.profiles, id).value;
    var q := NormalProfile(e, p).value.(id := id);
    ReplacedElements(s.tables.profiles, q);
    if s.tables.sources[i].filterProfile == row.name {
      NamingSource(t, i, q);
      FilteredByOwn(t, i, q, t.tables.sources[i], s.tables.sources[i]);
      FilteredByRow(e.alphabet, t, i, q, p, s.tables.sources[i]);
    } else {
      forall r | r in s.tables.profiles && r.name == s.tables.sources[i].filterProfile
        ensures r in t.tables.profiles
      {
        if r.id == id { OnlyOneHolds(s.tables.profiles, r, row); }
      }
      UntouchedSource(s, t, i);
    }
  }

  lemma FilteredByOwn(s: State, i: nat, p: FilterProfile, a: Source, b: Source)
    requires i < |s.live.sources| && FilteredBy(s, i, p, a)
    requires a.filterRules == b.filterRules && a.filterDefault == b.filterDefault
    ensures FilteredBy(s, i, p, b)
  {
  }

  /** Renaming a profile with a payload whose rules and default are those of the
      row leaves every source filtered as before. */
  lemma RenamingChangesNoFilters(e: Engine, s: State, id: int, p: FilterProfile, i: nat)
    requires Intact(s) && i < |s.tables.sources| && HandledUpdate(e, s, id, p).1.Success?
    requires Holds(e.alphabet, RowAt(s.tables.profiles, id).value.(name := e.alphabet.Trim(p.name)), p)
    ensures var t := HandledUpdate(e, s, id, p).0;
            i < |t.live.sources| && RulesAt(t, i) == RulesAt(s, i) && DefaultAt(t, i) == DefaultAt(s, i)
  {
    UpdatingReachesAttachedSources(e, s, id, p, i);
    hide NormalProfile, SortBy, RulesAt, DefaultAt, RowAt, HandledUpdate, FilteredByPayload;
    var row := RowAt(s.tables.profiles, id).value;
    if s.tables.sources[i].filterProfile == row.name {
      NamingSource(s, i, row);
      FilteredByRow(e.alphabet, s, i, row.(name := e.alphabet.Trim(p.name)), p, s.tables.sources[i]);
      SamePayloadSameFilters(e.alphabet, s, HandledUpdate(e, s, id, p).0, i, p, s.tables.sources[i]);
    }
  }

  lemma SamePayloadSameFilters(a: Alphabet, s: State, t: State, i: nat, p: FilterProfile, own: Source)
    requires i < |s.live.sources| && i < |t.live.sources|
    requires FilteredByPayload(a, s, i, p, own) && FilteredByPayload(a, t, i, p, own)
    ensures RulesAt(s, i) == RulesAt(t, i) && DefaultAt(s, i) == DefaultAt(t, i)
  {
    hide RulesAt, DefaultAt, Typed, Alphabet.Trim, Alphabet.Lower;
    var xs, ys := RulesAt(s, i), RulesAt(t, i);
    assert |xs| == |ys|;
    assert forall k :: 0 <= k < |Typed(p.rules)| ==> xs[k] == ys[k];
  }

  /** A deleted profile leaves the sources that named it with exactly their own
      rules, and every other source as before. Without force there are none that
      named it, and no source changes at all. */
  lemma DeletingDetaches(s: State, id: int, force: bool, i: nat)
    requires Intact(s) && i < |s.tables.sources| && HandledDelete(s, id, force).1.Success?
    ensures var t := HandledDelete(s, id, force).0;
            var row := RowAt(s.tables.profiles, id).value;
            && i < |t.live.sources|
            && (s.tables.sources[i].filterProfile == row.name ==>
                  force && RulesAt(t, i) == s.tables.sources[i].filterRules
                  && DefaultAt(t, i) == OwnDefault(s.tables.sources[i]))
            && (s.tables.sources[i].filterProfile != row.name ==>
                  t.live.sources[i] == s.live.sources[i] && RulesAt(t, i) == RulesAt(s, i) && DefaultAt(t, i) == DefaultAt(s, i))
  {
    DeleteKeepsIntact(s, id, force);
    hide SortBy, RulesAt, DefaultAt, RowAt;
    var t := HandledDelete(s, id, force).0;
    var row := RowAt(s.tables.profiles, id).value;
    RemovedElements(s.tables.profiles, id);
    if s.tables.sources[i].filterProfile == row.name {
      assert s.live.sources[i] in s.live.sources;
      DetachedSource(t, i);
    } else {
      forall r | r in s.tables.profiles && r.name == s.tables.sources[i].filterProfile
        ensures r in t.tables.profiles
      {
        if r.id == id { OnlyOneHolds(s.tables.profiles, r, row); }
      }
      UntouchedSource(s, t, i);
    }
  }

  /** A refused request changes nothing. */
  lemma RefusedChangesNothing(e: Engine, s: State, req: Request)
    ensures var (t, r) := Handled(e, s, req);
            r.BadRequest? || r.NotFound? || r.Conflict? ==> t == s
  {
    hide NormalProfile, AcceptedAll, Load, RowAt;
  }

  // ---- a stored source posted back unchanged ------------------------------------------------------------

  ghost predicate SameOwn(s: Source, t: Source) {
    s.filterProfile == t.filterProfile && s.filterRules == t.filterRules && s.filterDefault == t.filterDefault
  }

  lemma LaterStepsKeepRules(e: Engine, s: Source)
    ensures SameOwn(NormalGroupStep(e, s).source, s)
    ensures SameOwn(NormalTypeStep(e, s).source, s)
    ensures SameOwn(NormalPatternStep(e, s).source, s)
  {
    hide DedupeFrom, NormalTypes, NormalOverrides, NormalTiers, FirstBad, FirstBadTier, NamedPatterns;
  }

  lemma RulesStepFixedIff(e: Engine, s: Source)
    requires e.Lawful()
    ensures NormalRulesStep(e, s).source == s <==> CanonicalOwnRules(e, s)
  {
    RulesStepIffFixed(e, s);
    hide CanonicalRules, Trimmed, RulePattern;
  }

  /** A refused run leaves the source as it was: every step up to the refusal
      finds its fields tidy, and the refused one blanks nothing. */
  ghost predicate UnmovedByRefusal(e: Engine, s: Source) {
    && CanonicalOwnRules(e, s)
    && (IsMode(s.groupFilterMode) ==>
          && CanonicalLabels(e.alphabet, s.groupFilterList)
          && (!KeepsNoGroup(s) ==> UnmovedTypeGate(e, s)))
  }

  /** The selection that keeps nothing. */
  predicate KeepsNoGroup(s: Source) {
    s.groupFilterMode == MODE_INCLUDE && s.groupFilterList == [] && s.groupFilterRegex == ""
  }

  ghost predicate UnmovedTypeGate(e: Engine, s: Source) {
    NormalTypes(e.alphabet, s.importTypes).Ok? ==>
      && CanonicalTypes(s.importTypes)
      && (NormalOverrides(e.alphabet, s.groupTypeOverrides).Ok? ==>
            CanonicalOverrides(e.alphabet, s.groupTypeOverrides) && CanonicalTiers(e.alphabet, s.qualityTiers))
  }

  lemma GroupStepFixedIff(e: Engine, s: Source)
    requires e.Lawful()
    ensures NormalGroupStep(e, s).source == s <==> IsMode(s.groupFilterMode) ==> CanonicalLabels(e.alphabet, s.groupFilterList)
    ensures CanonicalLabels(e.alphabet, s.groupFilterList) ==>
              (NormalGroupStep(e, s).error.None? <==> IsMode(s.groupFilterMode) && !KeepsNoGroup(s))
    ensures NormalGroupStep(e, s).error.None? ==> IsMode(s.groupFilterMode)
  {
    hide CanonicalLabels, DedupeFrom;
    DedupeKeepsEveryGroup(e.alphabet, s.groupFilterList, {});
    if CanonicalLabels(e.alphabet, s.groupFilterList) {
      CanonicalLabelsAreFixed(e.alphabet, s.groupFilterList, {});
    }
  }

  lemma LaterStepsFixedIff(e: Engine, s: Source)
    requires e.Lawful()
    ensures (NormalTypeStep(e, s).source == s
             && (NormalTypeStep(e, s).error.None? ==> NormalPatternStep(e, NormalTypeStep(e, s).source).source == s))
            <==> UnmovedTypeGate(e, s)
  {
    hide NormalTypes, NormalOverrides, CanonicalTypes, CanonicalOverrides, CanonicalTiers, NormalTiers, FirstBad, FirstBadTier,
      NamedPatterns;
    TypesIffFixed(e.alphabet, s.importTypes);
    OverridesIffFixed(e.alphabet, s.groupTypeOverrides);
    NormalTiersAreCanonical(e.alphabet, s.qualityTiers);
    if CanonicalTiers(e.alphabet, s.qualityTiers) {
      CanonicalTiersAreFixed(e.alphabet, s.qualityTiers);
    }
  }

  /** The steps touch different fields, so none undoes another. */
  lemma LaterStepsApart(e: Engine, s: Source)
    ensures var g, t, p := NormalGroupStep(e, s).source, NormalTypeStep(e, s).source, NormalPatternStep(e, s).source;
            && g == s.(groupFilterList := g.groupFilterList)
            && t == s.(importTypes := t.importTypes, groupTypeOverrides := t.groupTypeOverrides)
            && p == s.(qualityTiers := p.qualityTiers)
  {
    hide DedupeFrom, NormalTypes, NormalOverrides, NormalTiers, FirstBad, FirstBadTier, NamedPatterns;
  }

  lemma StaysAsItWasIff(e: Engine, s: Source)
    requires e.Lawful() && Normalized(e, s).error.Some?
    ensures Normalized(e, s).source == s <==> UnmovedByRefusal(e, s)
  {
    hide NormalRulesStep, NormalGroupStep, NormalTypeStep, NormalPatternStep, CanonicalOwnRules, CanonicalLabels, UnmovedTypeGate,
      IsMode, KeepsNoGroup;
    RulesStepFixedIff(e, s);
    RulesStepTouches(e, s);
    NormalizedKeepsOwn(e, s);
    if NormalRulesStep(e, s).source == s && NormalRulesStep(e, s).error.None? {
      GroupStepFixedIff(e, s);
      LaterStepsFixedIff(e, s);
      LaterStepsApart(e, s);
      var s2 := NormalGroupStep(e, s).source;
      LaterStepsApart(e, s2);
      LaterStepsApart(e, NormalTypeStep(e, s2).source);
    } else if NormalRulesStep(e, s).source == s {
      RulesStepIffFixed(e, s);
      assert false;
    }
  }

  lemma SameAddress(e: Engine, s: Source)
    ensures Normalized(e, s).source.name == s.name && Normalized(e, s).source.url == s.url
  {
    hide DedupeFrom, NormalTypes, NormalOverrides, NormalTiers, NormalRules, FirstBad, FirstBadTier, NamedPatterns, NormalDefault;
  }

  /** A source posted back with the filters that are stored, whether or not those
      were ever tidied, passes a save exactly when its filters can be honoured or
      the refused run leaves them as they were. */
  lemma UnchangedSourceLetThrough(e: Engine, stored: seq<Source>, s: Source)
    requires e.Lawful() && StoredSource(stored, s).Some? && FiltersEqual(s, StoredSource(stored, s).value)
    ensures Accepted(e, stored, s).Some? <==> Normalized(e, s).error.None? || UnmovedByRefusal(e, s)
    ensures Normalized(e, s).error.Some? && UnmovedByRefusal(e, s) ==> Accepted(e, stored, s) == Some(s)
  {
    hide Normalized, UnmovedByRefusal;
    SameAddress(e, s);
    SameStored(stored, s, Normalized(e, s).source);
    if Normalized(e, s).error.Some? {
      StaysAsItWasIff(e, s);
    }
  }

  lemma SameStored(stored: seq<Source>, s: Source, t: Source)
    requires t.name == s.name && t.url == s.url
    ensures StoredSource(stored, t) == StoredSource(stored, s)
  {
  }

  /** A source with nothing but these settings. */
  function Legacy(fallback: string, groups: seq<string>, liveInclude: string): Source {
    Source("tv", "http://tv", "", [], fallback, "", groups, "", [], map[], false, [], "", "", "", liveInclude, "", "", "", "", "")
  }

  /** Stored with a pattern that no longer compiles: let through when everything
      else is tidy, refused when a label was stored with a blank in front of it,
      since the trimmed list survives the refused run. */
  lemma UntidyLabelRefused(e: Engine)
    requires e.Lawful() && !e.compiles("(")
    ensures var tidy, untidy := Legacy("", ["x"], "("), Legacy("", [" x"], "(");
            Accepted(e, [tidy], tidy) == Some(tidy) && Accepted(e, [untidy], untidy) == None
  {
    hide Accepted, Normalized, UnmovedByRefusal;
    var tidy, untidy := Legacy("", ["x"], "("), Legacy("", [" x"], "(");
    BadPatternRefused(e, tidy);
    BadPatternRefused(e, untidy);
    UnchangedSourceLetThrough(e, [tidy], tidy);
    UnchangedSourceLetThrough(e, [untidy], untidy);
    UnmovedLegacy(e, ["x"]);
    UnmovedLegacy(e, [" x"]);
    TrimmedX(e.alphabet);
    SpacedLabelIsUntidy(e.alphabet);
    PlainLabelIsTidy(e.alphabet);
  }

  lemma TrimmedX(a: Alphabet)
    requires a.Lawful()
    ensures a.Trim(" x") == "x"
  {
    assert !a.space('x');
    assert " x"[1..] == "x";
    assert a.TrimLeft(" x") == a.TrimLeft("x") == "x";
  }

  lemma UnmovedLegacy(e: Engine, groups: seq<string>)
    requires e.Lawful()
    ensures UnmovedByRefusal(e, Legacy("", groups, "(")) <==> CanonicalLabels(e.alphabet, groups)
  {
    hide CanonicalLabels, NormalOverrides, NormalTypes;
    OverridesIffFixed(e.alphabet, map[]);
  }

  lemma PlainLabelIsTidy(a: Alphabet)
    requires a.Trim(" x") == "x"
    ensures CanonicalLabels(a, ["x"])
  {
    hide GroupKey;
    TrimIsTrimmed(a, " x");
  }

  lemma SpacedLabelIsUntidy(a: Alphabet)
    requires a.Trim(" x") == "x"
    ensures !CanonicalLabels(a, [" x"])
  {
    assert |" x"| != |"x"|;
    if CanonicalLabels(a, [" x"]) {
      TrimmedIsFixed(a, [" x"][0]);
    }
  }

  /** A default that is refused is blanked first, so the source stored with it
      cannot be saved at all. */
  lemma BadDefaultRefused(e: Engine)
    requires e.Lawful()
    ensures var s := Legacy("maybe", [], "");
            Accepted(e, [s], s) == None
  {
    var s := Legacy("maybe", [], "");
    PlainWordIsFixed(e.alphabet, "maybe");
    assert |"maybe"| != |DEFAULT_DROP| && |"maybe"| != |DEFAULT_KEEP|;
    assert Normalized(e, s).error.Some?;
    UnchangedSourceLetThrough(e, [s], s);
    hide Accepted, Normalized;
    assert |s.filterDefault| != |DEFAULT_DROP|;
  }

  lemma BadPatternRefused(e: Engine, s: Source)
    requires s.liveInclude != "" && !e.compiles(s.liveInclude)
    ensures Normalized(e, s).error.Some?
  {
    hide NormalRulesStep, NormalGroupStep, NormalTypeStep, NormalTiers, FirstBad, FirstBadTier;
    var s3 := NormalTypeStep(e, NormalGroupStep(e, NormalRulesStep(e, s).source).source).source;
    KeepsPatterns(e, s);
    KeepsPatterns(e, NormalRulesStep(e, s).source);
    KeepsPatterns(e, NormalGroupStep(e, NormalRulesStep(e, s).source).source);
    var t := s3.(qualityTiers := NormalTiers(e.alphabet, s3.qualityTiers));
    BadPatternNamed(e, t);
  }

  lemma KeepsPatterns(e: Engine, s: Source)
    ensures NormalRulesStep(e, s).source.liveInclude == s.liveInclude
    ensures NormalGroupStep(e, s).source.liveInclude == s.liveInclude
    ensures NormalTypeStep(e, s).source.liveInclude == s.liveInclude
  {
    hide DedupeFrom, NormalTypes, NormalOverrides, NormalRules, NormalDefault;
  }

  lemma BadPatternNamed(e: Engine, s: Source)
    requires s.liveInclude != "" && !e.compiles(s.liveInclude)
    ensures FirstBad(e, NamedPatterns(s)).Some?
  {
    assert NamedPatterns(s)[4].1 == s.liveInclude;
  }

  lemma NormalizedKeepsOwn(e: Engine, s: Source)
    ensures SameOwn(Normalized(e, s).source, NormalRulesStep(e, s).source)
  {
    hide NormalRulesStep, NormalGroupStep, NormalTypeStep, NormalPatternStep;
    var s1 := NormalRulesStep(e, s).source;
    LaterStepsKeepRules(e, s1);
    LaterStepsKeepRules(e, NormalGroupStep(e, s1).source);
    LaterStepsKeepRules(e, NormalTypeStep(e, NormalGroupStep(e, s1).source).source);
  }

  lemma RulesStepTouches(e: Engine, s: Source)
    ensures SameOwn(NormalRulesStep(e, s).source, s) ==> NormalRulesStep(e, s).source == s
  {
  }
}
