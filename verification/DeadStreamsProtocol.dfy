/** Marks, revivals and checks interleaved: each table statement, each read and
    store of the snapshot pointer and each lock operation is a step of its own. */
module DeadStreamsProtocol {
  import opened Text
  import opened DeadStreams

  /** A snapshot by key instead of by key text; no two keys share a text. */
  type Image = Table

  /** When a view was taken: the table, the rows from before the writes then in
      flight, and whether one of them was on the stream asked about. */
  datatype Moment = Moment(table: Table, settled: Table, busy: bool)

  /** Where a thread is inside a call, and what it carries. */
  datatype Local =
    | Idle
    | Start(op: Op)
    | Cleared(op: Op)
    // reading the snapshot, loading it when there is none
    | Look(op: Op)
    | LoadLock(op: Op)
    | LoadCheck(op: Op)
    | LoadRead(op: Op)
    | LoadPublish(op: Op, snap: Image, m: Moment)
    | LoadUnlock(op: Op, view: Image, m: Moment)
    | Decide(op: Op, view: Image, m: Moment)
    // publishing a copy with one entry edited
    | ReplaceLook(op: Op, entry: Option<Row>)
    | ReplaceLock(op: Op, entry: Option<Row>)
    | ReplaceBuild(op: Op, entry: Option<Row>)
    | ReplaceStore(op: Op, next: Image)
    | ReplaceUnlock(op: Op)
    // a check that has its answer
    | Answered(op: Op, row: Option<Row>, m: Moment)

  /** The shared state, the threads, and one record of the past: settled is the
      table, but with the row from before the write for every stream that a mark
      or a revival is in the middle of. */
  datatype State = State(table: Table, cache: Option<Image>, holder: Option<nat>, threads: seq<Local>, settled: Table)

  datatype Event = Begin(t: nat, op: Op) | Move(t: nat)

  function Initial(table: Table, cache: Option<Image>, n: nat): State {
    State(table, cache, None, seq(n, _ => Idle), table)
  }

  function Put(s: State, t: nat, l: Local): State
    requires t < |s.threads|
  {
    s.(threads := s.threads[t := l])
  }

  function Lookup(m: Image, k: Key): Option<Row> {
    if k in m then Some(m[k]) else None
  }

  function Edit(m: Image, k: Key, entry: Option<Row>): Image {
    if entry.Some? then m[k := entry.value] else m - {k}
  }

  /** The entry an operation publishes, given the custom order it saw. */
  function EntryFor(op: Op, order: int): Option<Row>
    requires !op.Ask?
  {
    match op
    case Mark(_, reason) => Some(Row(StatusFor(reason), order, reason))
    case Revive(_) => if order != NO_ORDER then Some(Row(STATUS_ALIVE, order, "")) else None
  }

  predicate Between(l: Local) {
    l.Idle? || l.Answered?
  }

  predicate Writes(l: Local, k: Key) {
    !Between(l) && !l.op.Ask? && l.op.k == k
  }

  /** Past the first table statement and before the publication. */
  predicate Pending(l: Local, k: Key) {
    Writes(l, k) && !l.Start? && !l.ReplaceUnlock?
  }

  predicate Dirty(s: State, k: Key) {
    exists t :: 0 <= t < |s.threads| && Pending(s.threads[t], k)
  }

  function Now(s: State, k: Key): Moment {
    Moment(s.table, s.settled, Dirty(s, k))
  }

  // ---- one step -----------------------------------------------------------------------------

  /** The table's own statements. */
  function StepTable(s: State, t: nat): State
    requires t < |s.threads| && (s.threads[t].Start? || s.threads[t].Cleared?)
  {
    var op := s.threads[t].op;
    if s.threads[t].Cleared? then Put(s, t, Look(op)).(table := WithAlive(s.table, op.k))
    else
      match op
      case Mark(k, reason) => Put(s, t, Look(op)).(table := WithDead(s.table, k, StatusFor(reason), reason))
      case Revive(k) => Put(s, t, Cleared(op)).(table := WithoutPlain(s.table, k))
      case Ask(_) => Put(s, t, Look(op))
  }

  /** Reading the pointer, taking and leaving the lock, building private copies. */
  function StepQuiet(s: State, t: nat): State
    requires t < |s.threads|
  {
    match s.threads[t]
    case Look(op) => Put(s, t, if s.cache.Some? then Decide(op, s.cache.value, Now(s, op.k)) else LoadLock(op))
    case LoadLock(op) => if s.holder.None? then Put(s, t, LoadCheck(op)).(holder := Some(t)) else s
    case LoadCheck(op) =>
      Put(s, t, if s.cache.Some? then LoadUnlock(op, s.cache.value, Now(s, op.k)) else LoadRead(op))
    case LoadRead(op) => Put(s, t, LoadPublish(op, s.table, Now(s, op.k)))
    case LoadUnlock(op, view, m) => Put(s, t, Decide(op, view, m)).(holder := None)
    case Decide(op, view, m) =>
      Put(s, t, if op.Ask? then Answered(op, Lookup(view, op.k), m) else ReplaceLook(op, EntryFor(op, OrderOf(view, op.k))))
    case ReplaceLook(op, entry) => if s.cache.Some? then Put(s, t, ReplaceLock(op, entry)) else s
    case ReplaceLock(op, entry) => if s.holder.None? then Put(s, t, ReplaceBuild(op, entry)).(holder := Some(t)) else s
    case ReplaceBuild(op, entry) =>
      if s.cache.Some? then Put(s, t, ReplaceStore(op, Edit(s.cache.value, op.k, entry))) else s
    case ReplaceUnlock(op) => Put(s, t, Idle).(holder := None)
    case _ => s
  }

  /** Storing the pointer. */
  function StepPublish(s: State, t: nat): State
    requires t < |s.threads| && (s.threads[t].LoadPublish? || s.threads[t].ReplaceStore?)
  {
    match s.threads[t]
    case LoadPublish(op, snap, m) => Put(s, t, LoadUnlock(op, snap, m)).(cache := Some(snap))
    case ReplaceStore(op, next) =>
      Put(s, t, ReplaceUnlock(op)).(cache := Some(next), settled := Edit(s.settled, op.k, Lookup(s.table, op.k)))
  }

  function Step(s: State, t: nat): State
    requires t < |s.threads|
  {
    var l := s.threads[t];
    if l.Start? || l.Cleared? then StepTable(s, t)
    else if l.LoadPublish? || l.ReplaceStore? then StepPublish(s, t)
    else StepQuiet(s, t)
  }

  /** One event; a thread that is busy, blocked or not there does nothing. */
  function Happen(s: State, ev: Event): State {
    match ev
    case Begin(t, op) => if t < |s.threads| && Between(s.threads[t]) then Put(s, t, Start(op)) else s
    case Move(t) => if t < |s.threads| then Step(s, t) else s
  }

  function Run(s: State, events: seq<Event>): State
    decreases |events|
  {
    if events == [] then s else Run(Happen(s, events[0]), events[1..])
  }

  // ---- what every reachable state satisfies ----------------------------------------------------

  predicate Holding(l: Local) {
    || l.LoadCheck? || l.LoadRead? || l.LoadPublish? || l.LoadUnlock?
    || l.ReplaceBuild? || l.ReplaceStore? || l.ReplaceUnlock?
  }

  /** The lock is held by exactly the thread inside a section. */
  ghost predicate Locked(s: State) {
    && (forall t :: 0 <= t < |s.threads| ==> (Holding(s.threads[t]) <==> s.holder == Some(t)))
    && (s.holder.Some? ==> s.holder.value < |s.threads|)
  }

  /** No two marks or revivals in flight share a stream; checks may. */
  ghost predicate Apart(s: State) {
    forall t, u :: 0 <= t < |s.threads| && 0 <= u < |s.threads| && t != u
                   && !s.threads[t].Idle? && Writes(s.threads[t], s.threads[t].op.k) ==>
                     !Writes(s.threads[u], s.threads[t].op.k)
  }

  ghost predicate OrdersAlike(m: Image, t: Table) {
    forall k :: OrderOf(m, k) == OrderOf(t, k)
  }

  /** A snapshot has every custom order the table has, and for every stream the
      row the table has, or had before the write in flight. */
  ghost predicate Faithful(s: State, m: Image) {
    && OrdersAlike(m, s.table)
    && (forall k :: Lookup(m, k) == Lookup(s.table, k) || Lookup(m, k) == Lookup(s.settled, k))
  }

  /** Where nothing is in flight the settled rows are the table's. */
  ghost predicate Settles(s: State) {
    forall k :: !Dirty(s, k) ==> Lookup(s.settled, k) == Lookup(s.table, k)
  }

  /** The operation's row as its table statements left it. */
  predicate Posted(table: Table, op: Op) {
    op.Ask? || Lookup(table, op.k) == EntryFor(op, OrderOf(table, op.k))
  }

  /** A row seen at a moment: the table's, or that from before the write then in
      flight. */
  ghost predicate Seen(row: Option<Row>, m: Moment, k: Key) {
    row == Lookup(m.table, k) || (m.busy && row == Lookup(m.settled, k))
  }

  ghost predicate Carries(s: State, l: Local) {
    match l
    case Idle => true
    case Start(_) => true
    case Cleared(op) =>
      op.Revive? && (op.k in s.table ==> s.table[op.k].order != NO_ORDER && Lookup(s.settled, op.k) == Lookup(s.table, op.k))
    case LoadPublish(op, snap, m) => Posted(s.table, op) && Faithful(s, snap) && Seen(Lookup(snap, op.k), m, op.k)
    case LoadUnlock(op, view, m) =>
      Posted(s.table, op) && s.cache.Some? && OrdersAlike(view, s.table) && Seen(Lookup(view, op.k), m, op.k)
    case Decide(op, view, m) =>
      Posted(s.table, op) && s.cache.Some? && OrdersAlike(view, s.table) && Seen(Lookup(view, op.k), m, op.k)
    case ReplaceStore(op, next) => !op.Ask? && Faithful(s, next) && Lookup(next, op.k) == Lookup(s.table, op.k)
    case ReplaceUnlock(op) => true
    case Answered(op, row, m) => op.Ask? && Seen(row, m, op.k)
    case _ =>
      && Posted(s.table, l.op)
      && (l.ReplaceLook? || l.ReplaceLock? || l.ReplaceBuild? ==>
            !l.op.Ask? && s.cache.Some? && l.entry == Lookup(s.table, l.op.k))
  }

  ghost predicate Carried(s: State) {
    forall t :: 0 <= t < |s.threads| ==> Carries(s, s.threads[t])
  }

  ghost predicate Sound(s: State) {
    && Locked(s) && Carried(s) && Settles(s)
    && (s.cache.Some? ==> Faithful(s, s.cache.value))
  }

  // ---- every step keeps it --------------------------------------------------------------------------

  lemma OrdersStay(t: Table, op: Op)
    ensures !op.Ask? ==> OrdersAlike(t, WithDead(t, op.k, 0, "")) && OrdersAlike(t, WithoutPlain(t, op.k))
                         && OrdersAlike(t, WithAlive(t, op.k))
    ensures op.Mark? ==> OrdersAlike(t, WithDead(t, op.k, StatusFor(op.reason), op.reason))
  {
  }

  lemma TableKeepsLocked(s: State, t: nat)
    requires Locked(s) && t < |s.threads| && (s.threads[t].Start? || s.threads[t].Cleared?)
    ensures Locked(StepTable(s, t))
  {
    hide WithDead, WithAlive, WithoutPlain;
  }

  lemma NotYetDirty(s: State, t: nat)
    requires Apart(s) && t < |s.threads| && s.threads[t].Start? && !s.threads[t].op.Ask?
    ensures !Dirty(s, s.threads[t].op.k)
  {
    assert Writes(s.threads[t], s.threads[t].op.k);
  }

  /** Only the operation's own row changes; its stream is in progress from here
      on, and the row it replaces is the settled one. */
  lemma TableStepsAlone(s: State, t: nat)
    requires Apart(s) && Settles(s) && t < |s.threads| && Carries(s, s.threads[t])
    requires s.threads[t].Start? || s.threads[t].Cleared?
    ensures var op, s' := s.threads[t].op, StepTable(s, t);
            && OrdersAlike(s.table, s'.table)
            && (forall k :: k != op.k || op.Ask? ==> Lookup(s'.table, k) == Lookup(s.table, k))
            && (Lookup(s.table, op.k) == Lookup(s'.table, op.k) || Lookup(s.table, op.k) == Lookup(s.settled, op.k))
  {
    var op := s.threads[t].op;
    OrdersStay(s.table, op);
    if s.threads[t].Start? && !op.Ask? {
      NotYetDirty(s, t);
    }
  }

  lemma TableStepsDirty(s: State, t: nat)
    requires Apart(s) && t < |s.threads| && Carries(s, s.threads[t])
    requires s.threads[t].Start? || s.threads[t].Cleared?
    ensures var op, s' := s.threads[t].op, StepTable(s, t);
            && (!op.Ask? ==> Dirty(s', op.k))
            && (forall k :: Dirty(s, k) ==> Dirty(s', k))
            && (forall u :: 0 <= u < |s.threads| && u != t && !Between(s.threads[u]) ==>
                  op.Ask? || s.threads[u].op.Ask? || s.threads[u].op.k != op.k)
  {
    hide WithDead, WithAlive, WithoutPlain;
    var op, s' := s.threads[t].op, StepTable(s, t);
    assert Writes(s.threads[t], op.k) || op.Ask?;
    assert !op.Ask? ==> Pending(s'.threads[t], op.k);
    forall k | Dirty(s, k)
      ensures Dirty(s', k)
    {
      var u :| 0 <= u < |s.threads| && Pending(s.threads[u], k);
      assert Pending(s'.threads[u], k);
    }
  }

  /** What another thread carries survives a table step on another stream. */
  lemma OthersCarryOn(s: State, s': State, l: Local, op: Op)
    requires Carries(s, l) && s'.cache == s.cache && s'.settled == s.settled
    requires OrdersAlike(s.table, s'.table)
    requires forall k :: k != op.k || op.Ask? ==> Lookup(s'.table, k) == Lookup(s.table, k)
    requires Lookup(s.table, op.k) == Lookup(s'.table, op.k) || Lookup(s.table, op.k) == Lookup(s.settled, op.k)
    requires Between(l) || op.Ask? || l.op.Ask? || l.op.k != op.k
    ensures Carries(s', l)
  {
    hide Seen;
    if l.LoadPublish? {
      FaithfulStays(s, s', l.snap, op);
    } else if l.ReplaceStore? {
      FaithfulStays(s, s', l.next, op);
    }
    hide Faithful;
    if !Between(l) && !l.op.Ask? {
      assert Lookup(s'.table, l.op.k) == Lookup(s.table, l.op.k);
    }
  }

  lemma FaithfulStays(s: State, s': State, m: Image, op: Op)
    requires Faithful(s, m) && s'.settled == s.settled
    requires OrdersAlike(s.table, s'.table)
    requires forall k :: k != op.k || op.Ask? ==> Lookup(s'.table, k) == Lookup(s.table, k)
    requires Lookup(s.table, op.k) == Lookup(s'.table, op.k) || Lookup(s.table, op.k) == Lookup(s.settled, op.k)
    ensures Faithful(s', m)
  {
    hide Lookup;
    forall k
      ensures Lookup(m, k) == Lookup(s'.table, k) || Lookup(m, k) == Lookup(s'.settled, k)
    {
      assert Lookup(m, k) == Lookup(s.table, k) || Lookup(m, k) == Lookup(s.settled, k);
    }
  }

  lemma TableStepCarries(s: State, t: nat)
    requires Apart(s) && Settles(s) && t < |s.threads| && Carries(s, s.threads[t])
    requires s.threads[t].Start? || s.threads[t].Cleared?
    ensures Carries(StepTable(s, t), StepTable(s, t).threads[t])
  {
    if s.threads[t].Start? && !s.threads[t].op.Ask? {
      NotYetDirty(s, t);
    }
    hide Dirty, Apart;
  }

  lemma TableKeepsSettles(s: State, s': State, op: Op)
    requires Settles(s) && s'.settled == s.settled
    requires forall k :: k != op.k || op.Ask? ==> Lookup(s'.table, k) == Lookup(s.table, k)
    requires !op.Ask? ==> Dirty(s', op.k)
    requires forall k :: Dirty(s, k) ==> Dirty(s', k)
    ensures Settles(s')
  {
    hide Dirty, Lookup;
  }

  lemma TableKeepsSound(s: State, t: nat)
    requires Sound(s) && Apart(s) && t < |s.threads| && (s.threads[t].Start? || s.threads[t].Cleared?)
    ensures Sound(StepTable(s, t))
  {
    hide Apart, Locked, Faithful, OrdersAlike, Dirty, Settles, Carries, WithDead, WithAlive, WithoutPlain, Lookup;
    var op, s' := s.threads[t].op, StepTable(s, t);
    TableKeepsLocked(s, t);
    assert Carries(s, s.threads[t]);
    TableStepsAlone(s, t);
    TableStepsDirty(s, t);
    TableStepCarries(s, t);
    TableKeepsSettles(s, s', op);
    forall u | 0 <= u < |s'.threads|
      ensures Carries(s', s'.threads[u])
    {
      if u != t {
        OthersCarryOn(s, s', s.threads[u], op);
      }
    }
    if s.cache.Some? {
      FaithfulStays(s, s', s.cache.value, op);
    }
  }

  lemma QuietKeepsLocked(s: State, t: nat)
    requires Locked(s) && t < |s.threads| && !s.threads[t].Start? && !s.threads[t].Cleared?
    requires !s.threads[t].LoadPublish? && !s.threads[t].ReplaceStore?
    ensures Locked(StepQuiet(s, t))
  {
    hide OrderOf, EntryFor, Edit;
  }

  lemma QuietFrame(s: State, t: nat)
    requires t < |s.threads|
    ensures var s' := StepQuiet(s, t);
            && s'.table == s.table && s'.cache == s.cache && s'.settled == s.settled && |s'.threads| == |s.threads|
            && (forall u :: 0 <= u < |s.threads| && u != t ==> s'.threads[u] == s.threads[u])
  {
    hide OrderOf, EntryFor, Edit, Dirty, Lookup;
  }

  lemma LookPending(s: State, t: nat, k: Key)
    requires t < |s.threads| && var l := s.threads[t]; l.Look? || l.LoadLock? || l.LoadCheck? || l.LoadRead? || l.LoadUnlock?
    ensures |StepQuiet(s, t).threads| == |s.threads|
    ensures Pending(StepQuiet(s, t).threads[t], k) <==> Pending(s.threads[t], k)
  {
    hide Dirty, Now, Lookup, OrderOf, EntryFor, Edit;
  }

  lemma ReplacePending(s: State, t: nat, k: Key)
    requires t < |s.threads| && var l := s.threads[t];
             || l.Idle? || l.Answered? || l.Decide? || l.ReplaceLook? || l.ReplaceLock? || l.ReplaceBuild? || l.ReplaceUnlock?
    ensures |StepQuiet(s, t).threads| == |s.threads|
    ensures Pending(StepQuiet(s, t).threads[t], k) <==> Pending(s.threads[t], k)
  {
    hide Dirty, Now, Lookup, OrderOf, EntryFor, Edit;
  }

  lemma QuietPending(s: State, t: nat, k: Key)
    requires t < |s.threads| && !s.threads[t].Start? && !s.threads[t].Cleared?
    requires !s.threads[t].LoadPublish? && !s.threads[t].ReplaceStore?
    ensures |StepQuiet(s, t).threads| == |s.threads|
    ensures Pending(StepQuiet(s, t).threads[t], k) <==> Pending(s.threads[t], k)
  {
    hide StepQuiet, Pending;
    var l := s.threads[t];
    if l.Look? || l.LoadLock? || l.LoadCheck? || l.LoadRead? || l.LoadUnlock? {
      LookPending(s, t, k);
    } else {
      ReplacePending(s, t, k);
    }
  }

  /** A quiet step changes one thread's place and perhaps the lock, no more. */
  lemma QuietShape(s: State, t: nat)
    requires t < |s.threads| && !s.threads[t].Start? && !s.threads[t].Cleared?
    requires !s.threads[t].LoadPublish? && !s.threads[t].ReplaceStore?
    ensures var s' := StepQuiet(s, t);
            && s'.table == s.table && s'.cache == s.cache && s'.settled == s.settled && |s'.threads| == |s.threads|
            && (forall u :: 0 <= u < |s.threads| && u != t ==> s'.threads[u] == s.threads[u])
            && (forall k :: Dirty(s', k) <==> Dirty(s, k))
  {
    hide StepQuiet, Pending;
    QuietFrame(s, t);
    var s' := StepQuiet(s, t);
    forall k
      ensures Dirty(s', k) <==> Dirty(s, k)
    {
      QuietPending(s, t, k);
      if u :| 0 <= u < |s.threads| && Pending(s.threads[u], k) {
        assert Pending(s'.threads[u], k);
      }
      if u :| 0 <= u < |s'.threads| && Pending(s'.threads[u], k) {
        assert Pending(s.threads[u], k);
      }
    }
  }

  lemma CarriesAlike(s: State, s': State, l: Local)
    requires Carries(s, l) && s'.table == s.table && s'.settled == s.settled && (s.cache.Some? ==> s'.cache.Some?)
    ensures Carries(s', l)
  {
    hide Seen;
  }

  lemma SettlesAlike(s: State, s': State)
    requires Settles(s) && s'.table == s.table && s'.settled == s.settled
    requires forall k :: Dirty(s', k) <==> Dirty(s, k)
    ensures Settles(s')
  {
    hide Dirty;
  }

  /** Editing a faithful copy at one's own stream makes it right there too. */
  lemma BuildIsRight(s: State, m: Image, op: Op)
    requires Faithful(s, m) && !op.Ask?
    ensures var next := Edit(m, op.k, Lookup(s.table, op.k));
            Faithful(s, next) && Lookup(next, op.k) == Lookup(s.table, op.k)
  {
  }

  /** A view of a faithful copy sees the table's row, or that from before the
      write in flight. */
  lemma ViewSees(s: State, m: Image, k: Key)
    requires Faithful(s, m) && Settles(s)
    ensures Seen(Lookup(m, k), Now(s, k), k)
  {
    hide Dirty;
  }

  lemma QuietCarries(s: State, t: nat)
    requires Sound(s) && t < |s.threads| && !s.threads[t].Start? && !s.threads[t].Cleared?
    requires !s.threads[t].LoadPublish? && !s.threads[t].ReplaceStore?
    ensures Carries(StepQuiet(s, t), StepQuiet(s, t).threads[t])
  {
    assert Carries(s, s.threads[t]);
    if s.threads[t].ReplaceBuild? && s.cache.Some? {
      BuildIsRight(s, s.cache.value, s.threads[t].op);
    } else if (s.threads[t].Look? || s.threads[t].LoadCheck?) && s.cache.Some? {
      ViewSees(s, s.cache.value, s.threads[t].op.k);
    }
    hide Locked, Dirty, Edit, Holding, Settles;
  }

  lemma QuietKeepsSound(s: State, t: nat)
    requires Sound(s) && t < |s.threads| && !s.threads[t].Start? && !s.threads[t].Cleared?
    requires !s.threads[t].LoadPublish? && !s.threads[t].ReplaceStore?
    ensures Sound(StepQuiet(s, t))
  {
    hide Locked, OrdersAlike, Lookup, Dirty, Carries, StepQuiet, Settles;
    var s' := StepQuiet(s, t);
    QuietKeepsLocked(s, t);
    QuietShape(s, t);
    QuietCarries(s, t);
    SettlesAlike(s, s');
    forall u | 0 <= u < |s'.threads|
      ensures Carries(s', s'.threads[u])
    {
      if u != t {
        CarriesAlike(s, s', s.threads[u]);
      }
    }
  }

  lemma PublishKeepsLocked(s: State, t: nat)
    requires Locked(s) && t < |s.threads| && (s.threads[t].LoadPublish? || s.threads[t].ReplaceStore?)
    ensures Locked(StepPublish(s, t))
    ensures forall u :: 0 <= u < |s.threads| && u != t ==> !Holding(s.threads[u])
  {
  }

  /** A publication of an edited copy takes one stream out of progress. */
  lemma PublishCleans(s: State, t: nat, k: Key)
    requires Apart(s) && t < |s.threads| && (s.threads[t].LoadPublish? || s.threads[t].ReplaceStore?)
    requires s.threads[t].ReplaceStore? ==> !s.threads[t].op.Ask?
    ensures Dirty(StepPublish(s, t), k) <==> Dirty(s, k) && (s.threads[t].LoadPublish? || k != s.threads[t].op.k)
  {
    var s' := StepPublish(s, t);
    if u :| 0 <= u < |s.threads| && Pending(s.threads[u], k) {
      assert Writes(s.threads[u], k);
      assert s.threads[t].ReplaceStore? ==> Writes(s.threads[t], s.threads[t].op.k);
      assert u != t || s.threads[t].LoadPublish? ==> Pending(s'.threads[u], k);
    }
    if u :| 0 <= u < |s'.threads| && Pending(s'.threads[u], k) {
      assert Pending(s.threads[u], k);
      assert Writes(s.threads[u], k);
      assert s.threads[t].ReplaceStore? ==> Writes(s.threads[t], s.threads[t].op.k);
    }
  }

  /** Only threads inside a section carry a copy of their own, and no other thread
      waits to clear the stream that is published. */
  lemma OutsideCarryOn(s: State, s': State, l: Local, k: Key)
    requires Carries(s, l) && !Holding(l) && s'.table == s.table && s'.cache.Some?
    requires forall x :: x != k ==> Lookup(s'.settled, x) == Lookup(s.settled, x)
    requires Lookup(s'.settled, k) == Lookup(s.settled, k) || !Writes(l, k)
    ensures Carries(s', l)
  {
    hide Seen, Faithful, OrdersAlike;
  }

  lemma PublishSettles(s: State, t: nat)
    requires Apart(s) && Settles(s) && t < |s.threads| && Carries(s, s.threads[t])
    requires s.threads[t].LoadPublish? || s.threads[t].ReplaceStore?
    ensures Settles(StepPublish(s, t))
    ensures forall x :: x != s.threads[t].op.k ==> Lookup(StepPublish(s, t).settled, x) == Lookup(s.settled, x)
  {
    var s' := StepPublish(s, t);
    forall k
      ensures Dirty(s', k) <==> Dirty(s, k) && (s.threads[t].LoadPublish? || k != s.threads[t].op.k)
    {
      PublishCleans(s, t, k);
    }
    hide Dirty, Apart, Faithful, Posted, Seen;
  }

  lemma PublishFaithful(s: State, t: nat)
    requires t < |s.threads| && Carries(s, s.threads[t]) && (s.threads[t].LoadPublish? || s.threads[t].ReplaceStore?)
    ensures Faithful(StepPublish(s, t), StepPublish(s, t).cache.value)
    ensures Carries(StepPublish(s, t), StepPublish(s, t).threads[t])
  {
    hide Posted, Seen;
  }

  lemma PublishKeepsSound(s: State, t: nat)
    requires Sound(s) && Apart(s) && t < |s.threads| && (s.threads[t].LoadPublish? || s.threads[t].ReplaceStore?)
    ensures Sound(StepPublish(s, t))
  {
    var s' := StepPublish(s, t);
    var op := s.threads[t].op;
    assert Carries(s, s.threads[t]);
    assert s.threads[t].ReplaceStore? ==> Writes(s.threads[t], op.k);
    assert forall u :: 0 <= u < |s.threads| && u != t && s.threads[t].ReplaceStore? ==> !Writes(s.threads[u], op.k);
    assert s.threads[t].LoadPublish? ==> s'.settled == s.settled;
    PublishKeepsLocked(s, t);
    PublishSettles(s, t);
    PublishFaithful(s, t);
    assert s'.table == s.table && s'.cache.Some? && |s'.threads| == |s.threads|;
    assert forall u :: 0 <= u < |s.threads| && u != t ==> s'.threads[u] == s.threads[u];
    hide Locked, Dirty, Apart, Posted, Holding, OrdersAlike, Carries, Settles, Faithful, StepPublish, Writes, Lookup;
    forall u | 0 <= u < |s'.threads|
      ensures Carries(s', s'.threads[u])
    {
      if u != t {
        OutsideCarryOn(s, s', s.threads[u], op.k);
      }
    }
  }

  lemma StepKeepsSound(s: State, t: nat)
    requires Sound(s) && Apart(s) && t < |s.threads|
    ensures Sound(Step(s, t))
  {
    hide Sound, Apart, StepTable, StepQuiet, StepPublish;
    var l := s.threads[t];
    if l.Start? || l.Cleared? {
      TableKeepsSound(s, t);
    } else if l.LoadPublish? || l.ReplaceStore? {
      PublishKeepsSound(s, t);
    } else {
      QuietKeepsSound(s, t);
    }
  }

  lemma BeginKeepsSound(s: State, t: nat, op: Op)
    requires Sound(s) && t < |s.threads| && Between(s.threads[t])
    ensures Sound(Put(s, t, Start(op)))
  {
    hide Dirty, Carries, OrdersAlike, Lookup, Settles;
    var s' := Put(s, t, Start(op));
    forall k
      ensures Dirty(s', k) <==> Dirty(s, k)
    {
      BeginningIsClean(s, t, op, k);
    }
    SettlesAlike(s, s');
    forall u | 0 <= u < |s'.threads|
      ensures Carries(s', s'.threads[u])
    {
      if u != t {
        CarriesAlike(s, s', s.threads[u]);
      } else {
        StartCarries(s', op);
      }
    }
  }

  lemma StartCarries(s: State, op: Op)
    ensures Carries(s, Start(op))
  {
  }

  lemma BeginningIsClean(s: State, t: nat, op: Op, k: Key)
    requires t < |s.threads| && Between(s.threads[t])
    ensures Dirty(Put(s, t, Start(op)), k) <==> Dirty(s, k)
  {
    var s' := Put(s, t, Start(op));
    if u :| 0 <= u < |s.threads| && Pending(s.threads[u], k) {
      assert Pending(s'.threads[u], k);
    }
    if u :| 0 <= u < |s'.threads| && Pending(s'.threads[u], k) {
      assert Pending(s.threads[u], k);
    }
  }

  // ---- runs -----------------------------------------------------------------------------------------

  /** At no point of the run do two marks or revivals in flight share a stream. */
  ghost predicate ApartRun(s: State, events: seq<Event>)
    decreases |events|
  {
    Apart(s) && (events != [] ==> ApartRun(Happen(s, events[0]), events[1..]))
  }

  lemma {:induction false} EveryRunIsSound(s: State, events: seq<Event>)
    requires Sound(s) && ApartRun(s, events)
    ensures Sound(Run(s, events))
    decreases |events|
  {
    hide Sound, Apart, Step;
    if events != [] {
      match events[0] {
        case Begin(t, op) =>
          if t < |s.threads| && Between(s.threads[t]) {
            BeginKeepsSound(s, t, op);
          }
        case Move(t) =>
          if t < |s.threads| {
            StepKeepsSound(s, t);
          }
      }
      EveryRunIsSound(Happen(s, events[0]), events[1..]);
    }
  }

  lemma InitialIsSound(table: Table, cache: Option<Image>, n: nat)
    requires cache.None? || cache.value == table
    ensures Sound(Initial(table, cache, n))
  {
  }

  predicate Quiet(s: State) {
    forall t :: 0 <= t < |s.threads| ==> Between(s.threads[t])
  }

  /** From any table, with or without a snapshot loaded before, any number of
      threads and any interleaving, first loads included: as long as no two marks
      or revivals of one stream overlap, the snapshot is the table whenever no
      call is in flight, and even while other streams are in flight it agrees on
      this one. */
  lemma InterleavedRunsAgree(table: Table, cache: Option<Image>, n: nat, events: seq<Event>, k: Key)
    requires cache.None? || cache.value == table
    requires ApartRun(Initial(table, cache, n), events)
    ensures var s := Run(Initial(table, cache, n), events);
            && (Quiet(s) && s.cache.Some? ==> s.cache.value == s.table)
            && (s.cache.Some? && !Dirty(s, k) ==> Lookup(s.cache.value, k) == Lookup(s.table, k))
            && OrdersAlike(table, s.table)
  {
    hide Step, ApartRun, Sound, Dirty, Lookup;
    var s0 := Initial(table, cache, n);
    InitialIsSound(table, cache, n);
    EveryRunIsSound(s0, events);
    SoundAgrees(Run(s0, events), k);
    RunKeepsOrders(s0, events);
  }

  lemma QuietIsClean(s: State, k: Key)
    requires Quiet(s)
    ensures !Dirty(s, k)
  {
  }

  lemma SoundAgrees(s: State, k: Key)
    requires Sound(s)
    ensures Quiet(s) && s.cache.Some? ==> s.cache.value == s.table
    ensures s.cache.Some? && !Dirty(s, k) ==> Lookup(s.cache.value, k) == Lookup(s.table, k)
  {
    hide Dirty, Carried, Locked, Quiet;
    if s.cache.Some? {
      var m := s.cache.value;
      if Quiet(s) {
        forall l
          ensures l in m <==> l in s.table
          ensures l in m ==> m[l] == s.table[l]
        {
          QuietIsClean(s, l);
          assert Lookup(m, l) == Lookup(s.table, l);
        }
        assert m == s.table;
      }
    }
  }

  // ---- what a check answers -----------------------------------------------------------------------

  /** A check on its way to a view of the snapshot. */
  predicate Seeking(l: Local, op: Op) {
    (l.Start? || l.Look? || l.LoadLock? || l.LoadCheck? || l.LoadRead?) && l.op == op
  }

  /** A check that has taken its view at this moment. */
  predicate Viewed(l: Local, op: Op, m: Moment) {
    (l.LoadPublish? || l.LoadUnlock? || l.Decide? || l.Answered?) && l.op == op && l.m == m
  }

  lemma StepSeeks(s: State, t: nat, op: Op)
    requires op.Ask? && t < |s.threads| && Seeking(s.threads[t], op)
    ensures var s' := Step(s, t);
            |s'.threads| == |s.threads| && (Seeking(s'.threads[t], op) || Viewed(s'.threads[t], op, Now(s, op.k)))
  {
    hide Dirty;
  }

  lemma StepKeepsView(s: State, t: nat, op: Op, m: Moment)
    requires op.Ask? && t < |s.threads| && Viewed(s.threads[t], op, m)
    ensures |Step(s, t).threads| == |s.threads| && Viewed(Step(s, t).threads[t], op, m)
  {
    hide Dirty;
  }

  lemma OthersStay(s: State, ev: Event, t: nat)
    requires t < |s.threads| && ev.t != t
    ensures |Happen(s, ev).threads| == |s.threads| && Happen(s, ev).threads[t] == s.threads[t]
  {
    hide StepQuiet, Edit, Lookup, WithDead, WithAlive, WithoutPlain;
    if ev.Move? && ev.t < |s.threads| {
      QuietFrame(s, ev.t);
    }
  }

  /** No event of this thread starts another call. */
  predicate OneCall(events: seq<Event>, t: nat) {
    forall i :: 0 <= i < |events| && events[i].t == t ==> events[i].Move?
  }

  lemma {:induction false} ViewStays(s: State, t: nat, op: Op, m: Moment, events: seq<Event>)
    requires op.Ask? && t < |s.threads| && Viewed(s.threads[t], op, m) && OneCall(events, t)
    ensures |Run(s, events).threads| == |s.threads| && Viewed(Run(s, events).threads[t], op, m)
    decreases |events|
  {
    hide Step, Viewed;
    if events != [] {
      if events[0].t == t {
        StepKeepsView(s, t, op, m);
      } else {
        hide Happen;
        OthersStay(s, events[0], t);
      }
      ViewStays(Happen(s, events[0]), t, op, m, events[1..]);
    }
  }

  /** The view behind an answer was taken at a state of the run, during the call. */
  lemma {:induction false} ViewTakenDuring(s: State, t: nat, op: Op, events: seq<Event>) returns (n: nat)
    requires op.Ask? && t < |s.threads| && Seeking(s.threads[t], op) && OneCall(events, t)
    requires t < |Run(s, events).threads| && Run(s, events).threads[t].Answered?
    ensures n <= |events| && Viewed(Run(s, events).threads[t], op, Now(Run(s, events[..n]), op.k))
    decreases |events|
  {
    hide Step, Now;
    var s' := Happen(s, events[0]);
    if events[0].t == t {
      StepSeeks(s, t, op);
    } else {
      hide Happen;
      OthersStay(s, events[0], t);
    }
    if Seeking(s'.threads[t], op) {
      var i := ViewTakenDuring(s', t, op, events[1..]);
      n := i + 1;
      assert events[..n][1..] == events[1..][..i];
    } else {
      ViewStays(s', t, op, Now(s, op.k), events[1..]);
      n := 0;
    }
  }

  /** A check that began in a state of such a run and has its answer: the answer
      is the row the table held at a moment of the call, or, if a mark or revival
      of that very stream was in flight at that moment, the row from before it. */
  lemma ChecksAnswerAsTheTable(s: State, t: nat, k: Key, events: seq<Event>) returns (n: nat)
    requires Sound(s) && ApartRun(s, events) && OneCall(events, t)
    requires t < |s.threads| && s.threads[t] == Start(Ask(k))
    requires t < |Run(s, events).threads| && Run(s, events).threads[t].Answered?
    ensures n <= |events|
    ensures var at, answer := Run(s, events[..n]), Run(s, events).threads[t].row;
            answer == Lookup(at.table, k) || (Dirty(at, k) && answer == Lookup(at.settled, k))
  {
    hide Dirty, Run, Lookup, Locked, ApartRun;
    n := ViewTakenDuring(s, t, Ask(k), events);
    EveryRunIsSound(s, events);
    assert Carries(Run(s, events), Run(s, events).threads[t]);
  }

  lemma SettledKept(s: State, ev: Event, k: Key)
    requires Sound(s) && Apart(s)
    ensures Lookup(Happen(s, ev).settled, k) == Lookup(s.settled, k) || !Dirty(Happen(s, ev), k)
  {
    hide Locked, StepQuiet, StepTable;
    if ev.Move? && ev.t < |s.threads| {
      assert Carries(s, s.threads[ev.t]);
      if s.threads[ev.t].ReplaceStore? {
        PublishCleans(s, ev.t, k);
      } else {
        QuietKeepsSettled(s, ev.t);
      }
    }
  }

  lemma QuietKeepsSettled(s: State, t: nat)
    requires t < |s.threads| && !s.threads[t].ReplaceStore?
    ensures Step(s, t).settled == s.settled
  {
    hide Dirty, Edit, EntryFor, OrderOf;
  }

  /** The stream is in the middle of a mark or revival at every state of the run
      after the first n events. */
  ghost predicate DirtySince(s: State, events: seq<Event>, n: nat, k: Key) {
    forall j :: n < j <= |events| ==> Dirty(Run(s, events[..j]), k)
  }

  lemma DirtySinceShifts(s: State, events: seq<Event>, n: nat, k: Key)
    requires events != [] && DirtySince(Happen(s, events[0]), events[1..], n, k)
    ensures DirtySince(s, events, n + 1, k)
  {
    hide Dirty, Happen;
    forall j | n + 1 < j <= |events|
      ensures Dirty(Run(s, events[..j]), k)
    {
      assert events[..j][1..] == events[1..][..j - 1];
      assert Dirty(Run(Happen(s, events[0]), events[1..][..j - 1]), k);
    }
  }

  /** The row from before is the one the table held at the last moment of the run
      at which nothing was in flight on the stream, if there was one. */
  lemma {:induction false} SettledWasTable(s: State, events: seq<Event>, k: Key) returns (n: nat)
    requires Sound(s) && ApartRun(s, events)
    ensures n <= |events| && DirtySince(s, events, n, k)
    ensures var at, last := Run(s, events[..n]), Run(s, events).settled;
            if Dirty(at, k) then n == 0 && Lookup(last, k) == Lookup(s.settled, k) else Lookup(at.table, k) == Lookup(last, k)
    decreases |events|
  {
    hide Dirty, Happen, Lookup, Locked, Carried, Faithful, Apart, DirtySince;
    if events == [] {
      n := 0;
      NothingSince(s, k);
    } else {
      var s' := Happen(s, events[0]);
      EveryRunIsSound(s, [events[0]]);
      assert Run(s, [events[0]]) == s';
      var i := SettledWasTable(s', events[1..], k);
      SettledKept(s, events[0], k);
      if Dirty(Run(s', events[1..][..i]), k) {
        n := 0;
        assert events[1..][..0] == [];
        AllSince(s, events, k);
      } else {
        n := i + 1;
        assert events[..n][1..] == events[1..][..i];
        DirtySinceShifts(s, events, i, k);
      }
    }
  }

  lemma NothingSince(s: State, k: Key)
    ensures DirtySince(s, [], 0, k)
  {
  }

  lemma AllSince(s: State, events: seq<Event>, k: Key)
    requires events != [] && Dirty(Happen(s, events[0]), k) && DirtySince(Happen(s, events[0]), events[1..], 0, k)
    ensures DirtySince(s, events, 0, k)
  {
    hide Dirty, Happen;
    DirtySinceShifts(s, events, 0, k);
    assert events[..1] == [events[0]];
    forall j | 0 < j <= |events|
      ensures Dirty(Run(s, events[..j]), k)
    {
      if j == 1 {
        assert events[..1][1..] == [];
      }
    }
  }

  /** No run loses or invents a custom order, overlapping operations or not. */
  lemma {:induction false} RunKeepsOrders(s: State, events: seq<Event>)
    ensures OrdersAlike(s.table, Run(s, events).table)
    decreases |events|
  {
    hide StepQuiet, StepPublish, WithDead, WithAlive, WithoutPlain;
    if events != [] {
      StepKeepsOrders(s, events[0]);
      RunKeepsOrders(Happen(s, events[0]), events[1..]);
    }
  }

  lemma StepKeepsOrders(s: State, ev: Event)
    ensures OrdersAlike(s.table, Happen(s, ev).table)
  {
    hide EntryFor, Edit;
    if ev.Move? && ev.t < |s.threads| && (s.threads[ev.t].Start? || s.threads[ev.t].Cleared?) {
      OrdersStay(s.table, s.threads[ev.t].op);
    }
  }

  /** No interleaving is stuck: while a call is in progress some thread can move. */
  lemma SomeoneCanMove(s: State, t: nat) returns (u: nat)
    requires Sound(s) && t < |s.threads| && !Between(s.threads[t])
    ensures u < |s.threads| && Step(s, u).threads[u] != s.threads[u]
  {
    u := if s.holder.Some? then s.holder.value else t;
    assert Carries(s, s.threads[u]);
  }

  lemma {:induction false} ApartPrefix(s: State, events: seq<Event>, n: nat)
    requires ApartRun(s, events) && n <= |events|
    ensures ApartRun(s, events[..n])
    decreases |events|
  {
    hide Apart, Happen;
    if n > 0 {
      ApartPrefix(Happen(s, events[0]), events[1..], n - 1);
      assert events[..n][1..] == events[1..][..n - 1];
    }
  }

  lemma {:induction false} ApartConcat(s: State, a: seq<Event>, b: seq<Event>)
    requires ApartRun(s, a) && ApartRun(Run(s, a), b)
    ensures ApartRun(s, a + b)
    decreases |a|
  {
    hide Apart, Happen;
    if a == [] {
      assert a + b == b;
    } else {
      assert (a + b)[1..] == a[1..] + b;
      ApartConcat(Happen(s, a[0]), a[1..], b);
    }
  }

  /** In every interleaving from any table, without overlap on one stream: a check
      answers with the row the table held at a moment of the call (at), unless a
      mark or revival of that stream was in flight at that moment; then it may
      answer with the row the table held at the last moment before (was) at which
      none was. */
  lemma InterleavedChecksAnswer(table: Table, cache: Option<Image>, n: nat, before: seq<Event>, t: nat, k: Key,
                                during: seq<Event>)
    returns (at: nat, was: nat)
    requires cache.None? || cache.value == table
    requires ApartRun(Initial(table, cache, n), before)
    requires ApartRun(Run(Initial(table, cache, n), before), during) && OneCall(during, t)
    requires var s := Run(Initial(table, cache, n), before); t < |s.threads| && s.threads[t] == Start(Ask(k))
    requires var s := Run(Run(Initial(table, cache, n), before), during); t < |s.threads| && s.threads[t].Answered?
    ensures at <= |during| && was <= |before + during[..at]|
    ensures var s0 := Initial(table, cache, n);
            var answer := Run(Run(s0, before), during).threads[t].row;
            var now, earlier := Run(Run(s0, before), during[..at]), Run(s0, (before + during[..at])[..was]);
            && !Dirty(earlier, k) && DirtySince(s0, before + during[..at], was, k)
            && (answer == Lookup(now.table, k) || (Dirty(now, k) && answer == Lookup(earlier.table, k)))
  {
    hide Dirty, Run, Lookup, Sound, ApartRun, DirtySince;
    var s0 := Initial(table, cache, n);
    InitialIsSound(table, cache, n);
    EveryRunIsSound(s0, before);
    at := ChecksAnswerAsTheTable(Run(s0, before), t, k, during);
    ApartPrefix(Run(s0, before), during, at);
    var all := before + during[..at];
    ApartConcat(s0, before, during[..at]);
    RunConcat(s0, before, during[..at]);
    was := SettledWasTable(s0, all, k);
    NothingRun(s0, all, k);
  }

  lemma NothingRun(s: State, events: seq<Event>, k: Key)
    requires forall t :: 0 <= t < |s.threads| ==> s.threads[t].Idle?
    ensures Run(s, events[..0]) == s && !Dirty(s, k)
  {
  }

  // ---- overlapping operations on one stream -------------------------------------------------------

  /** The table is written mark first and revival second, the snapshot the other
      way round: the stream ends alive in the table and dead in the snapshot. */
  lemma OverlapDisagrees(k: Key) returns (events: seq<Event>)
    ensures var s := Run(Initial(map[], Some(map[]), 2), events);
            && Quiet(s) && !DeadInTable(s.table, k) && s.cache.Some? && DeadInTable(s.cache.value, k)
  {
    var mark, revive := Mark(k, "manual"), Revive(k);
    var dead := Row(STATUS_DEAD_MANUAL, NO_ORDER, "manual");
    var s0 := Initial(map[], Some(map[]), 2);
    var writes := [Begin(0, mark), Begin(1, revive), Move(0), Move(1), Move(1)];
    var s5 := State(map[], Some(map[]), None, [Look(mark), Look(revive)], map[]);
    assert Run(s0, writes) == s5 by {
      var s1 := Happen(s0, writes[0]);
      var s2 := Happen(s1, writes[1]);
      var s3 := Happen(s2, writes[2]);
      assert s3.table == map[k := dead];
      var s4 := Happen(s3, writes[3]);
      assert s4 == State(map[], Some(map[]), None, [Look(mark), Cleared(revive)], map[]);
      assert Happen(s4, writes[4]) == s5;
      RunFive(s0, writes);
    }
    var alone := seq(7, _ => Move(1));
    var s12 := State(map[], Some(map[]), None, [Look(mark), Idle], map[]);
    PublishAlone(s5, 1);
    assert Edit(map[], k, None) == map[];
    assert Run(s5, alone) == s12;
    var last := seq(7, _ => Move(0));
    PublishAlone(s12, 0);
    var s19 := State(map[], Some(map[k := dead]), None, [Idle, Idle], map[]);
    assert Run(s12, last) == s19;
    events := writes + alone + last;
    RunConcat(s0, writes + alone, last);
    RunConcat(s0, writes, alone);
  }

  lemma RunFive(s: State, e: seq<Event>)
    requires |e| == 5
    ensures Run(s, e) == Happen(Happen(Happen(Happen(Happen(s, e[0]), e[1]), e[2]), e[3]), e[4])
  {
    hide Happen;
    assert e == [e[0]] + [e[1]] + [e[2]] + [e[3]] + [e[4]];
    var s1 := Happen(s, e[0]);
    var s2 := Happen(s1, e[1]);
    var s3 := Happen(s2, e[2]);
    var s4 := Happen(s3, e[3]);
    assert e[1..][1..] == e[2..] && e[2..][1..] == e[3..] && e[3..][1..] == e[4..] && e[4..][1..] == [];
    assert Run(s, e) == Run(s1, e[1..]);
    assert Run(s1, e[1..]) == Run(s2, e[2..]);
    assert Run(s2, e[2..]) == Run(s3, e[3..]);
    assert Run(s3, e[3..]) == Run(s4, e[4..]);
  }

  lemma {:induction false} RunConcat(s: State, a: seq<Event>, b: seq<Event>)
    ensures Run(s, a + b) == Run(Run(s, a), b)
    decreases |a|
  {
    hide Happen;
    if a == [] {
      assert a + b == b;
    } else {
      assert (a + b)[1..] == a[1..] + b;
      RunConcat(Happen(s, a[0]), a[1..], b);
    }
  }

  /** Seven undisturbed steps take a written operation from its first look at the
      snapshot to the end of the call. */
  lemma PublishAlone(s: State, t: nat)
    requires t < |s.threads| && s.threads[t].Look? && !s.threads[t].op.Ask? && s.cache.Some? && s.holder.None?
    ensures var op := s.threads[t].op;
            Run(s, seq(7, _ => Move(t)))
            == Put(s, t, Idle).(cache := Some(Edit(s.cache.value, op.k, EntryFor(op, OrderOf(s.cache.value, op.k)))),
                                settled := Edit(s.settled, op.k, Lookup(s.table, op.k)))
  {
    hide Run, Happen, EntryFor, OrderOf, Edit;
    var m := seq(7, _ => Move(t));
    BuildAlone(s, t);
    var s5 := Run(s, seq(5, _ => Move(t)));
    StoreAlone(s5, t);
    RunConcat(s, m[..5], m[5..]);
    assert m[..5] == seq(5, _ => Move(t)) && m[5..] == seq(2, _ => Move(t)) && m[..5] + m[5..] == m;
  }

  lemma LookMoves(s: State, t: nat)
    requires t < |s.threads| && s.threads[t].Look? && s.cache.Some?
    ensures var op := s.threads[t].op;
            Happen(s, Move(t)) == Put(s, t, Decide(op, s.cache.value, Now(s, op.k)))
  {
    hide Now;
  }

  lemma DecideMoves(s: State, t: nat)
    requires t < |s.threads| && s.threads[t].Decide? && !s.threads[t].op.Ask?
    ensures var l := s.threads[t];
            Happen(s, Move(t)) == Put(s, t, ReplaceLook(l.op, EntryFor(l.op, OrderOf(l.view, l.op.k))))
  {
    hide EntryFor, OrderOf;
  }

  lemma ReplaceMoves(s: State, t: nat)
    requires t < |s.threads| && s.cache.Some?
    ensures s.threads[t].ReplaceLook? ==> Happen(s, Move(t)) == Put(s, t, ReplaceLock(s.threads[t].op, s.threads[t].entry))
    ensures s.threads[t].ReplaceLock? && s.holder.None? ==>
              Happen(s, Move(t)) == Put(s, t, ReplaceBuild(s.threads[t].op, s.threads[t].entry)).(holder := Some(t))
    ensures s.threads[t].ReplaceBuild? ==>
              Happen(s, Move(t))
              == Put(s, t, ReplaceStore(s.threads[t].op, Edit(s.cache.value, s.threads[t].op.k, s.threads[t].entry)))
  {
    hide Edit;
  }

  lemma BuildAlone(s: State, t: nat)
    requires t < |s.threads| && s.threads[t].Look? && !s.threads[t].op.Ask? && s.cache.Some? && s.holder.None?
    ensures var op := s.threads[t].op;
            var next := Edit(s.cache.value, op.k, EntryFor(op, OrderOf(s.cache.value, op.k)));
            Run(s, seq(5, _ => Move(t))) == Put(s, t, ReplaceStore(op, next)).(holder := Some(t))
  {
    hide EntryFor, OrderOf, Edit, Run, Happen, Now;
    var op := s.threads[t].op;
    var entry := EntryFor(op, OrderOf(s.cache.value, op.k));
    var s1 := Happen(s, Move(t));
    LookMoves(s, t);
    var s2 := Happen(s1, Move(t));
    DecideMoves(s1, t);
    assert s2 == Put(s, t, ReplaceLook(op, entry));
    var s3 := Happen(s2, Move(t));
    ReplaceMoves(s2, t);
    assert s3 == Put(s, t, ReplaceLock(op, entry));
    var s4 := Happen(s3, Move(t));
    ReplaceMoves(s3, t);
    assert s4 == Put(s, t, ReplaceBuild(op, entry)).(holder := Some(t));
    ReplaceMoves(s4, t);
    RunFive(s, seq(5, _ => Move(t)));
  }

  lemma StoreMoves(s: State, t: nat)
    requires t < |s.threads|
    ensures s.threads[t].ReplaceStore? ==>
              var op := s.threads[t].op;
              Happen(s, Move(t)) == Put(s, t, ReplaceUnlock(op)).(cache := Some(s.threads[t].next),
                                                                  settled := Edit(s.settled, op.k, Lookup(s.table, op.k)))
    ensures s.threads[t].ReplaceUnlock? ==> Happen(s, Move(t)) == Put(s, t, Idle).(holder := None)
  {
    hide Edit, Lookup;
  }

  lemma StoreAlone(s: State, t: nat)
    requires t < |s.threads| && s.threads[t].ReplaceStore?
    ensures var op := s.threads[t].op;
            Run(s, seq(2, _ => Move(t)))
            == Put(s, t, Idle).(cache := Some(s.threads[t].next), holder := None,
                                settled := Edit(s.settled, op.k, Lookup(s.table, op.k)))
  {
    hide Run, Edit, Lookup, Happen;
    var s1 := Happen(s, Move(t));
    StoreMoves(s, t);
    StoreMoves(s1, t);
    RunTwo(s, seq(2, _ => Move(t)));
  }

  lemma RunTwo(s: State, e: seq<Event>)
    requires |e| == 2
    ensures Run(s, e) == Happen(Happen(s, e[0]), e[1])
  {
    hide Happen;
    assert e[1..][1..] == [];
    assert Run(s, e) == Run(Happen(s, e[0]), e[1..]);
  }
}
