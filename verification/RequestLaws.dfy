/** What each request answers and what it leaves, said on the payload sent and the
    rows and sources that were there. */
module RequestLaws {
  import opened Text
  import opened Sorting
  import opened Config
  import opened Normalize
  import opened NormalizeLaws
  import opened Profiles
  import opened ProfileLaws

  // ---- what is live ------------------------------------------------------------------------------

  /** The live profiles are the stored rows, by name. */
  lemma LoadedByName(t: Tables)
    ensures var live := Load(t).profiles;
            && (forall p :: p in live <==> p in t.profiles) && |live| == |t.profiles|
            && (forall i, j :: 0 <= i < j < |live| ==> StringLeq(live[i].name, live[j].name))
    ensures Load(t).sources == t.sources
  {
    var live := SortBy(t.profiles, NameLeq);
    SortPermutes(t.profiles, NameLeq);
    NameOrder();
    SortSorts(t.profiles, NameLeq);
    forall p ensures p in live <==> p in t.profiles {
      assert p in live <==> p in multiset(live);
      assert p in t.profiles <==> p in multiset(t.profiles);
    }
  }

  lemma NameOrder()
    ensures TotalPreorder(NameLeq)
  {
    StringOrder();
    hide StringLeq;
    forall x, y, z | NameLeq(x, y) && NameLeq(y, z)
      ensures NameLeq(x, z)
    {
      assert StringLeq(x.name, y.name) && StringLeq(y.name, z.name);
    }
  }

  /** Exactly these rows are live, each once. */
  ghost predicate LiveRows(s: State, rows: set<FilterProfile>) {
    && (forall p :: p in s.live.profiles <==> p in rows) && |s.live.profiles| == |rows|
    && (forall i, j :: 0 <= i < j < |s.live.profiles| ==> StringLeq(s.live.profiles[i].name, s.live.profiles[j].name))
  }

  lemma {:induction false} DistinctCount(profiles: seq<FilterProfile>)
    requires Distinct(profiles)
    ensures |set p | p in profiles| == |profiles|
  {
    if profiles != [] {
      var rest := profiles[1..];
      assert forall i :: 0 <= i < |rest| ==> rest[i] == profiles[i + 1];
      DistinctCount(rest);
      assert (set p | p in profiles) == {profiles[0]} + set p | p in rest;
      assert profiles[0] !in rest;
    }
  }

  lemma LiveAre(t: Tables, rows: set<FilterProfile>)
    requires Distinct(t.profiles) && forall p :: p in t.profiles <==> p in rows
    ensures LiveRows(Reloaded(t), rows)
  {
    LoadedByName(t);
    DistinctCount(t.profiles);
    hide SortBy, StringLeq;
    assert (set p | p in t.profiles) == rows;
  }

  // ---- creating --------------------------------------------------------------------------------------

  /** A profile is created exactly when its payload can be stored and no row has its
      name. Then one row is new and live: it has the next id and says what the
      payload said, and is the payload itself when that was tidy. */
  lemma CreatingStoresThePayload(e: Engine, s: State, p: FilterProfile)
    requires Integral(s)
    ensures var (t, r) := HandledCreate(e, s, p);
            var id, name, rows := s.tables.nextId, e.alphabet.Trim(p.name), set q | q in s.tables.profiles;
            && (r == BadRequest <==> !Storable(e, p))
            && (r == Conflict <==> Storable(e, p) && exists q :: q in rows && q.name == name)
            && (r == Created(id) <==> Storable(e, p) && forall q :: q in rows ==> q.name != name)
            && (r == Created(id) ==>
                  && (exists row: FilterProfile :: row.id == id && Holds(e.alphabet, row, p) && LiveRows(t, rows + {row}))
                  && (e.Lawful() && TidyPayload(e, p) ==> LiveRows(t, rows + {FilterProfile(id, name, p.fallback, p.rules)}))
                  && t.tables.nextId == id + 1 && t.live.sources == t.tables.sources == s.tables.sources)
  {
    PayloadTidied(e, p);
    hide NormalProfile, SortBy, Storable, Holds, TidyPayload, LiveRows, Alphabet.Trim;
    var rows := set q | q in s.tables.profiles;
    var (t, r) := HandledCreate(e, s, p);
    if NormalProfile(e, p).Some? {
      var q := NormalProfile(e, p).value;
      NameOfHeld(e, q, p);
      assert Taken(s.tables.profiles, q.name, s.tables.nextId) <==> exists o: FilterProfile :: o in rows && o.name == q.name;
      if r.Created? {
        var row := q.(id := s.tables.nextId);
        CreateKeepsIntact(e, s, p);
        assert t.tables.profiles == s.tables.profiles + [row];
        LiveAre(t.tables, rows + {row});
        HeldUnderId(e, q, p, row.id);
      }
    }
  }

  lemma NameOfHeld(e: Engine, q: FilterProfile, p: FilterProfile)
    requires Holds(e.alphabet, q, p)
    ensures q.name == e.alphabet.Trim(p.name)
  {
  }

  lemma HeldUnderId(e: Engine, q: FilterProfile, p: FilterProfile, id: int)
    requires Holds(e.alphabet, q, p)
    ensures Holds(e.alphabet, q.(id := id), p)
  {
  }

  // ---- updating ----------------------------------------------------------------------------------------

  /** A profile is updated exactly when the payload can be stored, the row exists and
      no other has the name. Then that row alone is another: under its id it says
      what the payload said, and is the payload itself when that was tidy. */
  lemma UpdatingStoresThePayload(e: Engine, s: State, id: int, p: FilterProfile)
    requires Integral(s)
    ensures var (t, r) := HandledUpdate(e, s, id, p);
            var name, rows := e.alphabet.Trim(p.name), set q | q in s.tables.profiles;
            var others := set q | q in rows && q.id != id;
            && (r == BadRequest <==> !Storable(e, p))
            && (r == NotFound <==> Storable(e, p) && others == rows)
            && (r == Conflict <==> Storable(e, p) && others != rows && exists q :: q in others && q.name == name)
            && (r == Success <==> Storable(e, p) && others != rows && forall q :: q in others ==> q.name != name)
            && (r == Success ==>
                  && (exists row: FilterProfile :: row.id == id && Holds(e.alphabet, row, p) && LiveRows(t, others + {row}))
                  && (e.Lawful() && TidyPayload(e, p) ==> LiveRows(t, others + {FilterProfile(id, name, p.fallback, p.rules)}))
                  && t.live.sources == t.tables.sources && t.tables.nextId == s.tables.nextId)
  {
    PayloadTidied(e, p);
    hide NormalProfile, SortBy, Storable, Holds, TidyPayload, LiveRows, Alphabet.Trim, Distinct, Replaced, Repointed;
    var rows := set q | q in s.tables.profiles;
    var others := set q | q in rows && q.id != id;
    var (t, r) := HandledUpdate(e, s, id, p);
    var found := RowAt(s.tables.profiles, id);
    NoSuchRow(s.tables.profiles, id);
    if NormalProfile(e, p).Some? {
      var q := NormalProfile(e, p).value;
      NameOfHeld(e, q, p);
      assert Taken(s.tables.profiles, q.name, id) <==> exists o: FilterProfile :: o in others && o.name == q.name;
      if r.Success? {
        var row := q.(id := id);
        UpdateKeepsIntact(e, s, id, p);
        ReplacedElements(s.tables.profiles, row);
        LiveAre(t.tables, others + {row});
        HeldUnderId(e, q, p, id);
      }
    }
  }

  lemma NoSuchRow(profiles: seq<FilterProfile>, id: int)
    ensures var rows := set q | q in profiles;
            RowAt(profiles, id).None? <==> (set q | q in rows && q.id != id) == rows
  {
    hide RowAt;
    var rows := set q | q in profiles;
    var others := set q | q in rows && q.id != id;
    if RowAt(profiles, id).Some? {
      assert RowAt(profiles, id).value in rows && RowAt(profiles, id).value !in others;
    } else {
      assert others == rows;
    }
  }

  // ---- deleting ------------------------------------------------------------------------------------------

  /** A profile is deleted exactly when its row exists and no live source names it,
      or the request insists. Then that row alone is gone, and the sources that
      named it name none. */
  lemma DeletingRemovesTheRow(s: State, id: int, force: bool)
    requires Integral(s)
    ensures var (t, r) := HandledDelete(s, id, force);
            var rows := set q | q in s.tables.profiles;
            var others := set q | q in rows && q.id != id;
            && (r == NotFound <==> others == rows)
            && (r == Conflict <==> !force && exists q, u :: q in rows - others && u in s.live.sources && u.filterProfile == q.name)
            && (r == Success <==>
                  others != rows && (force || forall q, u :: q in rows - others && u in s.live.sources ==> u.filterProfile != q.name))
            && (r == Success ==>
                  && LiveRows(t, others) && |others| + 1 == |rows|
                  && t.live.sources == t.tables.sources && |t.tables.sources| == |s.tables.sources|
                  && (forall i, q :: 0 <= i < |t.tables.sources| && q in rows - others ==>
                        t.tables.sources[i] == if s.tables.sources[i].filterProfile == q.name
                                               then s.tables.sources[i].(filterProfile := "") else s.tables.sources[i]))
  {
    hide SortBy, LiveRows, RowAt;
    var rows := set q | q in s.tables.profiles;
    var others := set q | q in rows && q.id != id;
    NoSuchRow(s.tables.profiles, id);
    var found := RowAt(s.tables.profiles, id);
    if found.Some? {
      OnlyRow(s.tables.profiles, found.value);
      assert rows - others == {found.value};
      var (t, r) := HandledDelete(s, id, force);
      if r.Success? {
        DeleteKeepsIntact(s, id, force);
        RemovedElements(s.tables.profiles, id);
        LiveAre(t.tables, others);
        assert rows == others + {found.value};
      }
    }
  }

  lemma OnlyRow(profiles: seq<FilterProfile>, row: FilterProfile)
    requires Distinct(profiles) && row in profiles
    ensures forall q :: q in profiles && q.id == row.id ==> q == row
  {
  }

  // ---- saving ----------------------------------------------------------------------------------------------

  /** The stored source a payload stands for: the first of its name and address, else
      the first of its address. */
  ghost predicate StandsFor(stored: seq<Source>, s: Source, k: nat) {
    && k < |stored| && stored[k].url == s.url
    && (|| (stored[k].name == s.name && forall j :: 0 <= j < k ==> stored[j].name != s.name || stored[j].url != s.url)
        || (&& (forall j :: 0 <= j < |stored| ==> stored[j].name != s.name || stored[j].url != s.url)
            && (forall j :: 0 <= j < k ==> stored[j].url != s.url)))
  }

  lemma {:induction false} FirstSourceAt(stored: seq<Source>, name: string, url: string) returns (k: nat)
    ensures FirstSource(stored, name, url).None? <==> forall j :: 0 <= j < |stored| ==> stored[j].name != name || stored[j].url != url
    ensures FirstSource(stored, name, url).Some? ==>
              && k < |stored| && FirstSource(stored, name, url) == Some(stored[k]) && stored[k].name == name && stored[k].url == url
              && forall j :: 0 <= j < k ==> stored[j].name != name || stored[j].url != url
  {
    k := 0;
    if stored != [] && !(stored[0].name == name && stored[0].url == url) {
      k := FirstSourceAt(stored[1..], name, url);
      assert forall j :: 0 < j < |stored| ==> stored[j] == stored[1..][j - 1];
      k := k + 1;
    }
  }

  lemma {:induction false} FirstByUrlAt(stored: seq<Source>, url: string) returns (k: nat)
    ensures FirstByUrl(stored, url).None? <==> forall j :: 0 <= j < |stored| ==> stored[j].url != url
    ensures FirstByUrl(stored, url).Some? ==>
              && k < |stored| && FirstByUrl(stored, url) == Some(stored[k]) && stored[k].url == url
              && forall j :: 0 <= j < k ==> stored[j].url != url
  {
    k := 0;
    if stored != [] && stored[0].url != url {
      k := FirstByUrlAt(stored[1..], url);
      assert forall j :: 0 < j < |stored| ==> stored[j] == stored[1..][j - 1];
      k := k + 1;
    }
  }

  lemma StoredIsTheOneMeant(stored: seq<Source>, s: Source) returns (k: nat)
    ensures StoredSource(stored, s).None? <==> forall j :: 0 <= j < |stored| ==> stored[j].url != s.url
    ensures StoredSource(stored, s).Some? ==> StandsFor(stored, s, k) && StoredSource(stored, s) == Some(stored[k])
  {
    hide FirstSource, FirstByUrl;
    k := FirstSourceAt(stored, s.name, s.url);
    if FirstSource(stored, s.name, s.url).None? {
      k := FirstByUrlAt(stored, s.url);
    }
  }

  /** The two differ in name and address at most. */
  ghost predicate SameFilters(a: Source, b: Source) {
    && a.filterProfile == b.filterProfile && a.filterRules == b.filterRules && a.filterDefault == b.filterDefault
    && a.groupFilterMode == b.groupFilterMode && a.groupFilterList == b.groupFilterList && a.groupFilterRegex == b.groupFilterRegex
    && a.importTypes == b.importTypes && a.groupTypeOverrides == b.groupTypeOverrides
    && a.qualityDedupe == b.qualityDedupe && a.qualityTiers == b.qualityTiers
    && a.liveCategory == b.liveCategory && a.vodCategory == b.vodCategory && a.seriesCategory == b.seriesCategory
    && a.liveInclude == b.liveInclude && a.liveExclude == b.liveExclude
    && a.seriesInclude == b.seriesInclude && a.seriesExclude == b.seriesExclude
    && a.vodInclude == b.vodInclude && a.vodExclude == b.vodExclude
  }

  lemma FiltersEqualIsSame(a: Source, b: Source)
    ensures FiltersEqual(a, b) <==> SameFilters(a, b)
  {
  }

  /** What the refused run leaves of the source is how the stored one stands. */
  ghost predicate StandsStored(e: Engine, stored: seq<Source>, s: Source) {
    exists k: nat :: StandsFor(stored, s, k) && SameFilters(Normalized(e, s).source, stored[k])
  }

  /** A posted source goes in as n: tidied when it can be honoured; otherwise as the
      refused run leaves it, which must be how the stored source stands. */
  ghost predicate GoesInAs(e: Engine, stored: seq<Source>, s: Source, n: Source)
    requires e.Lawful()
  {
    if Honourable(e, s) then SaysTheSame(e.alphabet, s, n)
    else n == Normalized(e, s).source && StandsStored(e, stored, s)
  }

  lemma AcceptedGoesIn(e: Engine, stored: seq<Source>, s: Source)
    requires e.Lawful()
    ensures match Accepted(e, stored, s)
            case Some(n) => GoesInAs(e, stored, s, n)
            case None => !Honourable(e, s) && !StandsStored(e, stored, s)
  {
    hide Normalized, Honourable, SaysTheSame, StoredSource, FiltersEqual, SameFilters;
    AcceptedIffHonourable(e, s);
    SameAddress(e, s);
    var n := Normalized(e, s);
    if n.error.None? {
      AcceptedMeansWhatItSays(e, s);
    } else {
      SameStored(stored, s, n.source);
      var k := StoredIsTheOneMeant(stored, s);
      if StoredSource(stored, s).Some? {
        FiltersEqualIsSame(n.source, stored[k]);
        forall l: nat | StandsFor(stored, s, l)
          ensures stored[l] == stored[k]
        {
          OneStandsFor(stored, s, k, l);
        }
      }
    }
  }

  lemma OneStandsFor(stored: seq<Source>, s: Source, k: nat, l: nat)
    requires StandsFor(stored, s, k) && StandsFor(stored, s, l)
    ensures k == l
  {
  }

  lemma {:induction false} AllGoIn(e: Engine, stored: seq<Source>, sources: seq<Source>)
    requires e.Lawful()
    ensures match AcceptedAll(e, stored, sources)
            case Some(ns) => |ns| == |sources| && forall i :: 0 <= i < |sources| ==> GoesInAs(e, stored, sources[i], ns[i])
            case None => exists i :: 0 <= i < |sources| && Accepted(e, stored, sources[i]).None?
  {
    hide Accepted, GoesInAs;
    if sources != [] {
      var n := |sources| - 1;
      AllGoIn(e, stored, sources[..n]);
      assert forall i :: 0 <= i < n ==> sources[..n][i] == sources[i];
      AcceptedGoesIn(e, stored, sources[n]);
    }
  }

  /** Some posted source can neither be honoured nor is how a stored one stands. */
  ghost predicate SomeRefused(e: Engine, stored: seq<Source>, sources: seq<Source>) {
    exists i :: 0 <= i < |sources| && !Honourable(e, sources[i]) && !StandsStored(e, stored, sources[i])
  }

  /** A save is refused exactly when a source is, or one that goes in names a profile
      there is not. Otherwise each goes in as it was meant, in order: stored and live
      when every row is written, and stored up to the row that failed when not. */
  lemma SavingStoresTheSources(e: Engine, s: State, sources: seq<Source>, writes: Writes)
    requires e.Lawful()
    ensures var (t, r) := HandledSave(e, s, sources, writes);
            if SomeRefused(e, s.live.sources, sources) then r == BadRequest && t == s
            else
              exists ns: seq<Source> ::
                && |ns| == |sources| && (forall i :: 0 <= i < |ns| ==> GoesInAs(e, s.live.sources, sources[i], ns[i]))
                && SavedAs(s, t, r, ns, writes)
  {
    hide Accepted, GoesInAs, Honourable, StandsStored, Load, SavedAs, HandledSave;
    AllGoIn(e, s.live.sources, sources);
    forall i | 0 <= i < |sources|
      ensures Accepted(e, s.live.sources, sources[i]).None? <==>
              !Honourable(e, sources[i]) && !StandsStored(e, s.live.sources, sources[i])
    {
      RefusedIff(e, s.live.sources, sources[i]);
    }
    var all := AcceptedAll(e, s.live.sources, sources);
    if all.Some? {
      NoneRefused(e, s.live.sources, sources);
    }
    SavedWhenAccepted(e, s, sources, writes);
  }

  lemma RefusedIff(e: Engine, stored: seq<Source>, s: Source)
    requires e.Lawful()
    ensures Accepted(e, stored, s).None? <==> !Honourable(e, s) && !StandsStored(e, stored, s)
  {
    hide Accepted, Honourable, StandsStored, Normalized, SaysTheSame;
    AcceptedGoesIn(e, stored, s);
  }

  lemma {:induction false} NoneRefused(e: Engine, stored: seq<Source>, sources: seq<Source>)
    requires AcceptedAll(e, stored, sources).Some?
    ensures forall i :: 0 <= i < |sources| ==> Accepted(e, stored, sources[i]).Some?
  {
    hide Accepted;
    if sources != [] {
      var n := |sources| - 1;
      NoneRefused(e, stored, sources[..n]);
      assert forall i :: 0 <= i < n ==> sources[..n][i] == sources[i];
    }
  }

  /** How a save that no source stands in the way of ends. */
  ghost predicate SavedAs(s: State, t: State, r: Response, ns: seq<Source>, writes: Writes) {
    if exists i :: 0 <= i < |ns| && ns[i].filterProfile != ""
                   && forall p :: p in s.live.profiles ==> p.name != ns[i].filterProfile
    then r == BadRequest && t == s
    else match writes
      case Complete =>
        && r == Success && t.tables.sources == ns && t.live == Load(t.tables) && t.live.sources == ns
        && t.tables.profiles == s.tables.profiles && t.tables.nextId == s.tables.nextId
      case Untouched => r == Failed && t == s
      case Partial(rows) =>
        && r == Failed && t.live == s.live
        && t.tables.profiles == s.tables.profiles && t.tables.nextId == s.tables.nextId
        && t.tables.sources <= ns && (|t.tables.sources| == rows || (rows >= |ns| && t.tables.sources == ns))
  }

  lemma SavedWhenAccepted(e: Engine, s: State, sources: seq<Source>, writes: Writes)
    ensures var (t, r) := HandledSave(e, s, sources, writes);
            match AcceptedAll(e, s.live.sources, sources)
            case Some(ns) => SavedAs(s, t, r, ns, writes)
            case None => r == BadRequest && t == s
  {
    hide AcceptedAll, NamesExist, SortBy;
    if AcceptedAll(e, s.live.sources, sources).Some? {
      NamesExistIff(s.live.profiles, AcceptedAll(e, s.live.sources, sources).value);
    }
  }

  lemma NamesExistIff(profiles: seq<FilterProfile>, sources: seq<Source>)
    ensures NamesExist(profiles, sources) <==>
            !exists i :: 0 <= i < |sources| && sources[i].filterProfile != ""
                         && forall p :: p in profiles ==> p.name != sources[i].filterProfile
  {
    hide FilterProfileByName;
    forall name: string
      ensures FilterProfileByName(profiles, name).None? <==> forall p :: p in profiles ==> p.name != name
    {
      assert forall i :: 0 <= i < |profiles| ==> profiles[i] in profiles;
    }
  }
}
