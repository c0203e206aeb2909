/** Shared filter profiles: the two tables, the requests that change them, and
    the live configuration that is reloaded after each. */
module Profiles {
  import opened Text
  import opened Sorting
  import opened Config
  import opened Normalize
  import opened Manager

  // ---- the tables -----------------------------------------------------------------------

  datatype Tables = Tables(profiles: seq<FilterProfile>, nextId: int, sources: seq<Source>)

  datatype Live = Live(profiles: seq<FilterProfile>, sources: seq<Source>)

  datatype State = State(tables: Tables, live: Live)

  predicate NameLeq(p: FilterProfile, q: FilterProfile) {
    StringLeq(p.name, q.name)
  }

  /** Reading the configuration back: the profiles by name, the sources as they
      stand. */
  function Load(t: Tables): Live {
    Live(SortBy(t.profiles, NameLeq), t.sources)
  }

  function RowAt(profiles: seq<FilterProfile>, id: int): (r: Option<FilterProfile>)
    ensures r.None? <==> forall i :: 0 <= i < |profiles| ==> profiles[i].id != id
    ensures r.Some? ==> r.value in profiles && r.value.id == id
  {
    if profiles == [] then None
    else if profiles[0].id == id then Some(profiles[0])
    else
      assert forall i :: 0 < i < |profiles| ==> profiles[i] == profiles[1..][i - 1];
      RowAt(profiles[1..], id)
  }

  /** Some other row already holds the name. */
  predicate Taken(profiles: seq<FilterProfile>, name: string, id: int) {
    exists p :: p in profiles && p.name == name && p.id != id
  }

  function Replaced(profiles: seq<FilterProfile>, p: FilterProfile): (r: seq<FilterProfile>)
    ensures |r| == |profiles|
    ensures forall i :: 0 <= i < |r| ==> r[i] == if profiles[i].id == p.id then p else profiles[i]
  {
    seq(|profiles|, i requires 0 <= i < |profiles| => if profiles[i].id == p.id then p else profiles[i])
  }

  function Removed(profiles: seq<FilterProfile>, id: int): seq<FilterProfile> {
    if profiles == [] then []
    else (if profiles[0].id == id then [] else [profiles[0]]) + Removed(profiles[1..], id)
  }

  /** Every source that named one profile names another, or none. */
  function Repointed(sources: seq<Source>, was: string, now: string): (r: seq<Source>)
    ensures |r| == |sources|
    ensures forall i :: 0 <= i < |r| ==>
              r[i] == if sources[i].filterProfile == was then sources[i].(filterProfile := now) else sources[i]
  {
    seq(|sources|, i requires 0 <= i < |sources| =>
      if sources[i].filterProfile == was then sources[i].(filterProfile := now) else sources[i])
  }

  // ---- the requests -----------------------------------------------------------------------

  datatype Request =
    | Create(profile: FilterProfile)
    | Update(id: int, profile: FilterProfile)
    | Delete(id: int, force: bool)
    | Save(sources: seq<Source>, writes: Writes)

  /** How far the statements behind a save get: all of them; a failure before the
      stored sources are touched; or a failure after that many rows are written,
      the old ones being gone by then. */
  datatype Writes = Complete | Untouched | Partial(rows: nat)

  datatype Response = Created(id: int) | Success | BadRequest | NotFound | Conflict | Failed

  /** A profile payload, tidied; refused without a name, with an unknown default
      or with a rule the import could not honour. */
  function NormalProfile(e: Engine, p: FilterProfile): Option<FilterProfile> {
    var name := e.alphabet.Trim(p.name);
    if name == "" then None
    else match NormalDefault(e.alphabet, p.fallback)
      case Err(_) => None
      case Ok(fallback) =>
        match NormalRules(e, p.rules)
        case Err(_) => None
        case Ok(rules) => Some(FilterProfile(p.id, name, fallback, rules))
  }

  predicate InUse(sources: seq<Source>, name: string) {
    exists s :: s in sources && s.filterProfile == name
  }

  function Inserted(t: Tables, p: FilterProfile): Option<Tables> {
    if Taken(t.profiles, p.name, t.nextId) then None
    else Some(t.(profiles := t.profiles + [p.(id := t.nextId)], nextId := t.nextId + 1))
  }

  /** The row is replaced and, on a rename, the sources that named it follow. */
  function Updated(t: Tables, p: FilterProfile, previous: string): Tables {
    t.(profiles := Replaced(t.profiles, p),
       sources := if previous != p.name then Repointed(t.sources, previous, p.name) else t.sources)
  }

  function Deleted(t: Tables, p: FilterProfile): Tables {
    t.(profiles := Removed(t.profiles, p.id), sources := Repointed(t.sources, p.name, ""))
  }

  /** The stored source a payload refers to: by name and address, else by address. */
  function StoredSource(stored: seq<Source>, s: Source): Option<Source> {
    match FirstSource(stored, s.name, s.url)
    case Some(r) => Some(r)
    case None => FirstByUrl(stored, s.url)
  }

  function FirstSource(stored: seq<Source>, name: string, url: string): Option<Source> {
    if stored == [] then None
    else if stored[0].name == name && stored[0].url == url then Some(stored[0])
    else FirstSource(stored[1..], name, url)
  }

  function FirstByUrl(stored: seq<Source>, url: string): Option<Source> {
    if stored == [] then None
    else if stored[0].url == url then Some(stored[0])
    else FirstByUrl(stored[1..], url)
  }

  predicate FiltersEqual(a: Source, b: Source) {
    a.(name := b.name, url := b.url) == b
  }

  /** What a save does to one posted source: tidied when it can be honoured, let
      through when what the attempt leaves equals the stored filters. */
  ghost function Accepted(e: Engine, stored: seq<Source>, s: Source): Option<Source> {
    var n := Normalized(e, s);
    if n.error.None? then Some(n.source)
    else match StoredSource(stored, n.source)
      case Some(kept) => if FiltersEqual(n.source, kept) then Some(n.source) else None
      case None => None
  }

  ghost function AcceptedAll(e: Engine, stored: seq<Source>, sources: seq<Source>): (r: Option<seq<Source>>)
    ensures r.Some? ==> |r.value| == |sources|
  {
    if sources == [] then Some([])
    else
      var n := |sources| - 1;
      match AcceptedAll(e, stored, sources[..n])
      case None => None
      case Some(before) =>
        match Accepted(e, stored, sources[n])
        case None => None
        case Some(s) => Some(before + [s])
  }

  predicate NamesExist(profiles: seq<FilterProfile>, sources: seq<Source>) {
    forall i :: 0 <= i < |sources| ==>
      sources[i].filterProfile == "" || FilterProfileByName(profiles, sources[i].filterProfile).Some?
  }

  function FirstRows(sources: seq<Source>, n: nat): seq<Source> {
    if |sources| <= n then sources else sources[..n]
  }

  /** The stored sources are deleted and written again row by row, not in one
      transaction. */
  function Rewritten(t: Tables, sources: seq<Source>, writes: Writes): Tables {
    match writes
    case Complete => t.(sources := sources)
    case Untouched => t
    case Partial(n) => t.(sources := FirstRows(sources, n))
  }

  ghost function Handled(e: Engine, s: State, req: Request): (State, Response) {
    match req
    case Create(p) => HandledCreate(e, s, p)
    case Update(id, p) => HandledUpdate(e, s, id, p)
    case Delete(id, force) => HandledDelete(s, id, force)
    case Save(sources, writes) => HandledSave(e, s, sources, writes)
  }

  ghost function Reloaded(t: Tables): State {
    State(t, Load(t))
  }

  ghost function HandledCreate(e: Engine, s: State, p: FilterProfile): (State, Response) {
    match NormalProfile(e, p)
    case None => (s, BadRequest)
    case Some(q) =>
      match Inserted(s.tables, q)
      case None => (s, Conflict)
      case Some(t) => (Reloaded(t), Created(s.tables.nextId))
  }

  ghost function HandledUpdate(e: Engine, s: State, id: int, p: FilterProfile): (State, Response) {
    match NormalProfile(e, p)
    case None => (s, BadRequest)
    case Some(q) =>
      match RowAt(s.tables.profiles, id)
      case None => (s, NotFound)
      case Some(row) =>
        if Taken(s.tables.profiles, q.name, id) then (s, Conflict)
        else (Reloaded(Updated(s.tables, q.(id := id), row.name)), Success)
  }

  ghost function HandledDelete(s: State, id: int, force: bool): (State, Response) {
    match RowAt(s.tables.profiles, id)
    case None => (s, NotFound)
    case Some(row) =>
      if InUse(s.live.sources, row.name) && !force then (s, Conflict)
      else (Reloaded(Deleted(s.tables, row)), Success)
  }

  /** Only a save whose statements all succeed is loaded. */
  ghost function HandledSave(e: Engine, s: State, sources: seq<Source>, writes: Writes): (State, Response) {
    match AcceptedAll(e, s.live.sources, sources)
    case None => (s, BadRequest)
    case Some(accepted) =>
      if !NamesExist(s.live.profiles, accepted) then (s, BadRequest)
      else if writes.Complete? then (Reloaded(Rewritten(s.tables, accepted, writes)), Success)
      else (State(Rewritten(s.tables, accepted, writes), s.live), Failed)
  }

  // ---- the requests, as the server handles them ------------------------------------------------

  class Admin {
    var profiles: seq<FilterProfile>
    var nextId: int
    var sources: seq<Source>
    var live: Live
    const manager: FilterManager

    constructor (manager: FilterManager)
      ensures View() == Reloaded(Tables([], 1, [])) && this.manager == manager
    {
      this.manager := manager;
      profiles, nextId, sources := [], 1, [];
      live := Live([], []);
    }

    function View(): State
      reads this
    {
      State(Tables(profiles, nextId, sources), live)
    }

    /** The changed configuration is live at once and no filter compiled from the
        previous rules is left. */
    method ReloadConfig()
      modifies this`live, manager
      ensures View() == Reloaded(old(View()).tables) && manager.filters == map[]
    {
      live := Load(Tables(profiles, nextId, sources));
      manager.ClearFilters();
    }

    method SourcesUsingProfile(name: string) returns (names: seq<string>)
      ensures names != [] <==> InUse(live.sources, name)
    {
      names := [];
      for i := 0 to |live.sources|
        invariant names != [] <==> exists j :: 0 <= j < i && live.sources[j].filterProfile == name
      {
        if live.sources[i].filterProfile == name {
          names := names + [live.sources[i].name];
        }
      }
      if names != [] {
        var j :| 0 <= j < |live.sources| && live.sources[j].filterProfile == name;
        assert live.sources[j] in live.sources;
      }
    }

    method InsertFilterProfile(p: FilterProfile) returns (id: Option<int>)
      modifies this`profiles, this`nextId
      ensures match Inserted(old(View()).tables, p)
              case None => id == None && View() == old(View())
              case Some(t) => id == Some(old(nextId)) && View() == old(View()).(tables := t)
    {
      if Taken(profiles, p.name, nextId) {
        return None;
      }
      profiles := profiles + [p.(id := nextId)];
      id := Some(nextId);
      nextId := nextId + 1;
    }

    method HandleCreate(e: Engine, incoming: FilterProfile) returns (r: Response)
      modifies this, manager
      ensures (View(), r) == HandledCreate(e, old(View()), incoming)
      ensures r.Created? ==> manager.filters == map[]
    {
      hide Load, Taken;
      var p := NormalProfile(e, incoming);
      if p.None? {
        return BadRequest;
      }
      var id := InsertFilterProfile(p.value);
      if id.None? {
        return Conflict;
      }
      ReloadConfig();
      return Created(id.value);
    }

    /** One transaction: the row, and on a rename the sources that named it. */
    method UpdateFilterProfile(p: FilterProfile) returns (r: Response)
      modifies this`profiles, this`sources
      ensures match RowAt(old(profiles), p.id)
              case None => r == NotFound && View() == old(View())
              case Some(row) =>
                if Taken(old(profiles), p.name, p.id) then r == Conflict && View() == old(View())
                else r == Success && View() == old(View()).(tables := Updated(old(View()).tables, p, row.name))
    {
      var previous := RowAt(profiles, p.id);
      if previous.None? {
        return NotFound;
      }
      if Taken(profiles, p.name, p.id) {
        return Conflict;
      }
      profiles := Replaced(profiles, p);
      if previous.value.name != p.name {
        sources := Repointed(sources, previous.value.name, p.name);
      }
      return Success;
    }

    method HandleUpdate(e: Engine, id: int, incoming: FilterProfile) returns (r: Response)
      modifies this, manager
      ensures (View(), r) == HandledUpdate(e, old(View()), id, incoming)
      ensures r.Success? ==> manager.filters == map[]
    {
      hide Load, Taken, Updated;
      var p := NormalProfile(e, incoming);
      if p.None? {
        return BadRequest;
      }
      if RowAt(profiles, id).None? {
        return NotFound;
      }
      r := UpdateFilterProfile(p.value.(id := id));
      if !r.Success? {
        return;
      }
      ReloadConfig();
    }

    /** One transaction: the row, and the sources that named it are detached. */
    method DeleteFilterProfile(id: int) returns (r: Response)
      modifies this`profiles, this`sources
      ensures match RowAt(old(profiles), id)
              case None => r == NotFound && View() == old(View())
              case Some(row) => r == Success && View() == old(View()).(tables := Deleted(old(View()).tables, row))
    {
      var row := RowAt(profiles, id);
      if row.None? {
        return NotFound;
      }
      profiles := Removed(profiles, id);
      sources := Repointed(sources, row.value.name, "");
      return Success;
    }

    method HandleDelete(id: int, force: bool) returns (r: Response)
      modifies this, manager
      ensures (View(), r) == HandledDelete(old(View()), id, force)
      ensures r.Success? ==> manager.filters == map[]
    {
      hide Load, InUse, Deleted;
      var row := RowAt(profiles, id);
      if row.None? {
        return NotFound;
      }
      var used := SourcesUsingProfile(row.value.name);
      if used != [] && !force {
        return Conflict;
      }
      r := DeleteFilterProfile(id);
      ReloadConfig();
    }

    method AcceptSources(e: Engine, incoming: seq<Source>) returns (r: Option<seq<Source>>)
      ensures r == AcceptedAll(e, live.sources, incoming)
    {
      hide Normalized, StoredSource, FiltersEqual;
      var accepted := [];
      for i := 0 to |incoming|
        invariant AcceptedAll(e, live.sources, incoming[..i]) == Some(accepted)
      {
        assert incoming[..i + 1][..i] == incoming[..i];
        var source := new SourceConfig(incoming[i]);
        var error := source.NormalizeFilters(e);
        if error.Some? {
          var stored := StoredSource(live.sources, source.View());
          if stored.None? || !FiltersEqual(source.View(), stored.value) {
            RefusedAfter(e, live.sources, incoming, i + 1);
            return None;
          }
        }
        accepted := accepted + [source.View()];
      }
      assert incoming[..|incoming|] == incoming;
      return Some(accepted);
    }

    method SyncSources(incoming: seq<Source>, writes: Writes) returns (ok: bool)
      modifies this`sources
      ensures View() == old(View()).(tables := Rewritten(old(View()).tables, incoming, writes))
      ensures ok == writes.Complete?
    {
      if writes.Untouched? {
        return false;
      }
      sources := [];
      for i := 0 to |incoming|
        invariant sources == incoming[..i]
        invariant writes.Partial? ==> i <= writes.rows
      {
        if writes == Partial(i) {
          return false;
        }
        sources := sources + [incoming[i]];
      }
      assert incoming[..|incoming|] == incoming;
      return writes.Complete?;
    }

    method HandleSave(e: Engine, incoming: seq<Source>, writes: Writes) returns (r: Response)
      modifies this, manager
      ensures (View(), r) == HandledSave(e, old(View()), incoming, writes)
      ensures r.Success? || r.Failed? ==> manager.filters == map[]
    {
      hide Load, AcceptedAll, FilterProfileByName, FirstRows;
      var accepted := AcceptSources(e, incoming);
      if accepted.None? {
        return BadRequest;
      }
      for i := 0 to |accepted.value|
        invariant forall j :: 0 <= j < i ==>
                    accepted.value[j].filterProfile == ""
                    || FilterProfileByName(live.profiles, accepted.value[j].filterProfile).Some?
      {
        var name := accepted.value[i].filterProfile;
        if name != "" && FilterProfileByName(live.profiles, name).None? {
          return BadRequest;
        }
      }
      manager.ClearFilters();
      var ok := SyncSources(accepted.value, writes);
      if !ok {
        return Failed;
      }
      live := Load(Tables(profiles, nextId, sources));
      return Success;
    }
  }

  lemma {:induction false} RefusedAfter(e: Engine, stored: seq<Source>, sources: seq<Source>, n: nat)
    requires n <= |sources| && AcceptedAll(e, stored, sources[..n]).None?
    ensures AcceptedAll(e, stored, sources).None?
    decreases |sources| - n
  {
    hide Accepted;
    if n == |sources| {
      assert sources[..n] == sources;
    } else {
      assert sources[..n + 1][..n] == sources[..n];
      RefusedAfter(e, stored, sources, n + 1);
    }
  }
}
