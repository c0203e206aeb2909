/** Dead-stream overrides: the table, and the in-memory snapshot every stream
    check reads instead. */
module DeadStreams {
  import opened Text

  const STATUS_ALIVE := 0
  const STATUS_DEAD_MANUAL := 2
  const STATUS_DEAD_AUTO := 3
  const NO_ORDER := -1

  const NUL := 0 as char

  /** A channel name never holds the separator of the snapshot's keys. */
  type Channel = c: string | NUL !in c witness ""

  datatype Key = Key(channel: Channel, hash: string)

  datatype Row = Row(status: int, order: int, reason: string)

  type Table = map<Key, Row>

  /** A snapshot entry. */
  datatype Override = Override(hash: string, status: int, order: int, reason: string)

  type Snapshot = map<string, Override>

  function OverrideKey(channel: string, hash: string): string {
    channel + [NUL] + hash
  }

  function KeyText(k: Key): string {
    OverrideKey(k.channel, k.hash)
  }

  lemma KeyTextInjective(k: Key, l: Key)
    ensures KeyText(k) == KeyText(l) <==> k == l
  {
    if KeyText(k) == KeyText(l) {
      UniqueCut(k.channel, l.channel, k.hash, l.hash, NUL);
    }
  }

  lemma KeyTextsDiffer()
    ensures forall k, l :: KeyText(k) == KeyText(l) ==> k == l
  {
    forall k, l | KeyText(k) == KeyText(l)
      ensures k == l
    {
      KeyTextInjective(k, l);
    }
  }

  /** With the separator inside a name two different streams would share a key. */
  lemma SeparatorInNameCollides(a: string, b: string, c: string)
    ensures OverrideKey(a + [NUL] + b, c) == OverrideKey(a, b + [NUL] + c)
  {
    assert OverrideKey(a + [NUL] + b, c) == OverrideKey(a, b + [NUL] + c);
  }

  function Entry(k: Key, row: Row): Override {
    Override(k.hash, row.status, row.order, row.reason)
  }

  // ---- the table ---------------------------------------------------------------------------

  function OrderOf(t: Table, k: Key): int {
    if k in t then t[k].order else NO_ORDER
  }

  predicate DeadStatus(status: int) {
    status == STATUS_DEAD_MANUAL || status == STATUS_DEAD_AUTO
  }

  predicate DeadInTable(t: Table, k: Key) {
    k in t && DeadStatus(t[k].status)
  }

  /** The upsert: status and reason are replaced, a custom order stays. */
  function WithDead(t: Table, k: Key, status: int, reason: string): Table {
    t[k := Row(status, OrderOf(t, k), reason)]
  }

  /** The first statement of a revival: a row without custom order goes. */
  function WithoutPlain(t: Table, k: Key): Table {
    if k in t && t[k].order == NO_ORDER then t - {k} else t
  }

  /** The second: a row that is still there is cleared. */
  function WithAlive(t: Table, k: Key): Table {
    if k in t then t[k := Row(STATUS_ALIVE, t[k].order, "")] else t
  }

  function Revived(t: Table, k: Key): Table {
    WithAlive(WithoutPlain(t, k), k)
  }

  // ---- the snapshot ----------------------------------------------------------------------------

  /** What a complete read of the table gives. */
  ghost function MirrorOf(t: Table): Snapshot {
    KeyTextsDiffer();
    map k | k in t :: KeyText(k) := Entry(k, t[k])
  }

  lemma MirrorLookup(t: Table, k: Key)
    ensures KeyText(k) in MirrorOf(t) <==> k in t
    ensures k in t ==> MirrorOf(t)[KeyText(k)] == Entry(k, t[k])
  {
    KeyTextsDiffer();
  }

  lemma MirrorKeys(t: Table, x: string)
    ensures x in MirrorOf(t) <==> exists k: Key :: k in t && KeyText(k) == x
  {
  }

  lemma MirrorSet(t: Table, k: Key, row: Row)
    ensures MirrorOf(t[k := row]) == MirrorOf(t)[KeyText(k) := Entry(k, row)]
  {
    hide MirrorOf, KeyText;
    KeyTextsDiffer();
    var t', m' := t[k := row], MirrorOf(t)[KeyText(k) := Entry(k, row)];
    forall x
      ensures x in MirrorOf(t') <==> x in m'
      ensures x in m' ==> MirrorOf(t')[x] == m'[x]
    {
      MirrorKeys(t, x);
      MirrorKeys(t', x);
      if l: Key :| l in t' && KeyText(l) == x {
        MirrorLookup(t', l);
        MirrorLookup(t, l);
      } else {
        MirrorLookup(t', k);
      }
    }
  }

  lemma MirrorRemove(t: Table, k: Key)
    ensures MirrorOf(t - {k}) == MirrorOf(t) - {KeyText(k)}
  {
    hide MirrorOf, KeyText;
    KeyTextsDiffer();
    var t', m' := t - {k}, MirrorOf(t) - {KeyText(k)};
    forall x
      ensures x in MirrorOf(t') <==> x in m'
      ensures x in m' ==> MirrorOf(t')[x] == m'[x]
    {
      MirrorKeys(t, x);
      MirrorKeys(t', x);
      if l: Key :| l in t && KeyText(l) == x {
        MirrorLookup(t', l);
        MirrorLookup(t, l);
      }
    }
  }

  /** A snapshot mirrors at most one table. */
  lemma MirrorInjective(t: Table, u: Table)
    ensures MirrorOf(t) == MirrorOf(u) <==> t == u
  {
    if MirrorOf(t) == MirrorOf(u) {
      forall k
        ensures k in t <==> k in u
        ensures k in t ==> t[k] == u[k]
      {
        MirrorLookup(t, k);
        MirrorLookup(u, k);
      }
      assert t == u;
    }
  }

  lemma EmptyMirror()
    ensures MirrorOf(map[]) == map[]
  {
    assert forall x :: x !in MirrorOf(map[]);
  }

  predicate DeadInSnapshot(m: Snapshot, k: Key) {
    KeyText(k) in m && DeadStatus(m[KeyText(k)].status)
  }

  function ReasonInSnapshot(m: Snapshot, k: Key): string {
    if KeyText(k) in m then m[KeyText(k)].reason else ""
  }

  function ReasonInTable(t: Table, k: Key): string {
    if k in t then t[k].reason else ""
  }

  // ---- the calls as functions of table and snapshot -----------------------------------------------

  /** What a reader sees: the snapshot, the table on a first load, nothing when
      that load fails. */
  ghost function View(c: Option<Snapshot>, t: Table, load: bool): Snapshot {
    if c.Some? then c.value else if load then MirrorOf(t) else map[]
  }

  ghost function Kept(c: Option<Snapshot>, t: Table, load: bool): Option<Snapshot> {
    if c.Some? || load then Some(View(c, t, load)) else None
  }

  function Edited(m: Snapshot, key: string, o: Option<Override>): Snapshot {
    if o.Some? then m[key := o.value] else m - {key}
  }

  function StatusFor(reason: string): int {
    if reason == "manual" then STATUS_DEAD_MANUAL else STATUS_DEAD_AUTO
  }

  /** The entry a mark publishes, built from what it sees of the old one. */
  function MarkEntry(m: Snapshot, k: Key, reason: string): Override {
    var o := if KeyText(k) in m then m[KeyText(k)] else Override(k.hash, 0, NO_ORDER, "");
    o.(status := StatusFor(reason), reason := reason)
  }

  function ReviveEntry(m: Snapshot, k: Key): Option<Override> {
    if KeyText(k) in m && m[KeyText(k)].order != NO_ORDER
    then Some(m[KeyText(k)].(status := STATUS_ALIVE, reason := ""))
    else None
  }

  datatype Op = Mark(k: Key, reason: string) | Revive(k: Key) | Ask(k: Key)

  /** Which of the database calls behind one operation succeed. */
  datatype Faults = Faults(firstWrite: bool, secondWrite: bool, firstLoad: bool, secondLoad: bool)

  const NO_FAULTS := Faults(true, true, true, true)

  datatype Store = Store(table: Table, cache: Option<Snapshot>)

  /** Publishing after a write: the entry is built from one view and set in
      another, each with a load of its own when there is no snapshot yet. */
  ghost function Published(c: Option<Snapshot>, t: Table, op: Op, faults: Faults): Snapshot
    requires !op.Ask?
  {
    var m := View(c, t, faults.firstLoad);
    var o := if op.Mark? then Some(MarkEntry(m, op.k, op.reason)) else ReviveEntry(m, op.k);
    Edited(View(Kept(c, t, faults.firstLoad), t, faults.secondLoad), KeyText(op.k), o)
  }

  /** The table once the operation's own writes are done. */
  function Written(t: Table, op: Op, faults: Faults): Table {
    match op
    case Mark(k, reason) => if faults.firstWrite then WithDead(t, k, StatusFor(reason), reason) else t
    case Revive(k) => if !faults.firstWrite then t else if !faults.secondWrite then WithoutPlain(t, k) else Revived(t, k)
    case Ask(_) => t
  }

  predicate Completes(op: Op, faults: Faults) {
    op.Ask? || (faults.firstWrite && (op.Revive? ==> faults.secondWrite))
  }

  ghost function Step(s: Store, op: Op, faults: Faults): Store {
    var t := Written(s.table, op, faults);
    if !Completes(op, faults) then Store(t, s.cache)
    else if op.Ask? then Store(t, Kept(s.cache, t, faults.firstLoad))
    else Store(t, Some(Published(s.cache, t, op, faults)))
  }

  class Overrides {
    var table: Table
    var cache: Option<Snapshot>

    constructor (table: Table)
      ensures this.table == table && cache == None
    {
      this.table, cache := table, None;
    }

    ghost function Value(): Store
      reads this
    {
      Store(table, cache)
    }

    method GetAllStreamOverrides() returns (m: Snapshot)
      ensures m == MirrorOf(table)
    {
      hide MirrorOf, KeyText;
      m := map[];
      var rest := table;
      ghost var done: Table := map[];
      EmptyMirror();
      while rest != map[]
        invariant rest.Keys !! done.Keys && done + rest == table
        invariant m == MirrorOf(done)
        decreases rest.Keys
      {
        assert rest.Keys != {};
        var k :| k in rest.Keys;
        MirrorSet(done, k, rest[k]);
        m := m[KeyText(k) := Entry(k, rest[k])];
        done := done[k := rest[k]];
        rest := rest - {k};
      }
      assert done == table;
    }

    /** The snapshot, loaded on first use; a failed load answers nothing and is
        not kept. */
    method Load(ok: bool) returns (m: Snapshot)
      modifies this`cache
      ensures m == View(old(cache), table, ok) && cache == Kept(old(cache), table, ok)
    {
      if cache.Some? {
        return cache.value;
      }
      if !ok {
        return map[];
      }
      m := GetAllStreamOverrides();
      cache := Some(m);
    }

    /** Publishes a complete copy with one entry set or removed. */
    method ReplaceOverride(key: string, o: Option<Override>, ok: bool)
      modifies this`cache
      ensures cache == Some(Edited(View(old(cache), table, ok), key, o))
    {
      hide MirrorOf;
      var cur := Load(ok);
      if cache.Some? {
        cur := cache.value;
      }
      var next: Snapshot := map[];
      var rest := cur;
      while rest != map[]
        invariant rest.Keys !! next.Keys && next + rest == cur
        decreases rest.Keys
      {
        assert rest.Keys != {};
        var x :| x in rest.Keys;
        next := next[x := rest[x]];
        rest := rest - {x};
      }
      assert next == cur;
      if o.Some? {
        next := next[key := o.value];
      } else {
        next := next - {key};
      }
      cache := Some(next);
    }

    method IsStreamDead(k: Key, ok: bool) returns (dead: bool)
      modifies this`cache
      ensures Value() == Step(old(Value()), Ask(k), NO_FAULTS.(firstLoad := ok))
      ensures dead == DeadInSnapshot(View(old(cache), table, ok), k)
    {
      var m := Load(ok);
      if KeyText(k) !in m {
        return false;
      }
      var o := m[KeyText(k)];
      return o.status == STATUS_DEAD_MANUAL || o.status == STATUS_DEAD_AUTO;
    }

    method GetDeadStreamReason(k: Key, ok: bool) returns (reason: string)
      modifies this`cache
      ensures Value() == Step(old(Value()), Ask(k), NO_FAULTS.(firstLoad := ok))
      ensures reason == ReasonInSnapshot(View(old(cache), table, ok), k)
    {
      var m := Load(ok);
      var o := Override("", 0, 0, "");
      if KeyText(k) in m {
        o := m[KeyText(k)];
      }
      reason := o.reason;
    }

    method SetStreamDead(k: Key, reason: string, status: int, ok: bool)
      modifies this`table
      ensures table == if ok then WithDead(old(table), k, status, reason) else old(table)
    {
      if ok {
        if k in table {
          table := table[k := table[k].(status := status, reason := reason)];
        } else {
          table := table[k := Row(status, NO_ORDER, reason)];
        }
      }
    }

    /** Two statements, not one transaction. */
    method SetStreamAlive(k: Key, firstOk: bool, secondOk: bool) returns (ok: bool)
      modifies this`table
      ensures ok == (firstOk && secondOk)
      ensures table == Written(old(table), Revive(k), Faults(firstOk, secondOk, true, true))
    {
      if !firstOk {
        return false;
      }
      if k in table && table[k].order == -1 {
        table := table - {k};
      }
      if !secondOk {
        return false;
      }
      if k in table {
        table := table[k := table[k].(status := 0, reason := "")];
      }
      return true;
    }

    method MarkStreamDeadByHash(k: Key, reason: string, faults: Faults) returns (ok: bool)
      modifies this
      ensures ok == faults.firstWrite
      ensures Value() == Step(old(Value()), Mark(k, reason), faults)
    {
      hide MirrorOf, KeyText;
      var status := STATUS_DEAD_AUTO;
      if reason == "manual" {
        status := STATUS_DEAD_MANUAL;
      }
      SetStreamDead(k, reason, status, faults.firstWrite);
      if !faults.firstWrite {
        return false;
      }
      var m := Load(faults.firstLoad);
      var o := Override(k.hash, 0, NO_ORDER, "");
      if KeyText(k) in m {
        o := m[KeyText(k)];
      }
      o := o.(status := status);
      o := o.(reason := reason);
      ReplaceOverride(KeyText(k), Some(o), faults.secondLoad);
      return true;
    }

    method ReviveStream(k: Key, faults: Faults) returns (ok: bool)
      modifies this
      ensures ok == (faults.firstWrite && faults.secondWrite)
      ensures Value() == Step(old(Value()), Revive(k), faults)
    {
      hide MirrorOf, KeyText;
      ok := SetStreamAlive(k, faults.firstWrite, faults.secondWrite);
      if !ok {
        return;
      }
      var m := Load(faults.firstLoad);
      if KeyText(k) in m && m[KeyText(k)].order != NO_ORDER {
        var o := m[KeyText(k)].(status := STATUS_ALIVE);
        o := o.(reason := "");
        ReplaceOverride(KeyText(k), Some(o), faults.secondLoad);
      } else {
        ReplaceOverride(KeyText(k), None, faults.secondLoad);
      }
    }
  }

  // ---- agreement -------------------------------------------------------------------------------------

  /** What has been loaded says what the table says. */
  ghost predicate Agrees(s: Store) {
    s.cache.Some? ==> s.cache.value == MirrorOf(s.table)
  }

  /** When one operation leaves snapshot and table in agreement. A write that
      never happened is harmless; a revival that stopped half way needs a
      snapshot that was not there or a row that was not touched; a completed
      write needs a snapshot or a working first load, or else a row with no
      custom order to lose and nothing else that the published copy misses. */
  predicate Harmless(s: Store, op: Op, faults: Faults) {
    if op.Ask? || !faults.firstWrite then true
    else if op.Revive? && !faults.secondWrite then s.cache.None? || op.k !in s.table || s.table[op.k].order != NO_ORDER
    else s.cache.Some? || faults.firstLoad
         || (OrderOf(s.table, op.k) == NO_ORDER && (faults.secondLoad || s.table.Keys <= {op.k}))
  }

  lemma HalfRevival(t: Table, k: Key)
    ensures MirrorOf(t) == MirrorOf(WithoutPlain(t, k)) <==> k !in t || t[k].order != NO_ORDER
  {
    MirrorInjective(t, WithoutPlain(t, k));
  }

  /** A copy of the table's mirror with the operation's own entry edited from a
      faithful view of that entry is the mirror of the written table. */
  lemma EditFollowsWrite(t: Table, op: Op)
    requires !op.Ask?
    ensures Published(Some(MirrorOf(t)), Written(t, op, NO_FAULTS), op, NO_FAULTS) == MirrorOf(Written(t, op, NO_FAULTS))
  {
    hide MirrorOf, KeyText;
    MirrorLookup(t, op.k);
    match op
    case Mark(k, reason) =>
      MirrorSet(t, k, Row(StatusFor(reason), OrderOf(t, k), reason));
    case Revive(k) =>
      if OrderOf(t, k) != NO_ORDER {
        MirrorSet(t, k, Row(STATUS_ALIVE, t[k].order, ""));
      } else {
        MirrorRemove(t, k);
        assert Written(t, op, NO_FAULTS) == t - {k};
      }
  }

  /** Editing a mirror loaded after the write changes nothing: the entry is
      already the written one. */
  lemma EditAfterLoad(t: Table, op: Op)
    requires !op.Ask?
    ensures var t' := Written(t, op, NO_FAULTS);
            Edited(MirrorOf(t'), KeyText(op.k),
                   if op.Mark? then Some(MarkEntry(MirrorOf(t'), op.k, op.reason)) else ReviveEntry(MirrorOf(t'), op.k))
            == MirrorOf(t')
  {
    hide MirrorOf, KeyText;
    var t' := Written(t, op, NO_FAULTS);
    MirrorLookup(t', op.k);
    match op
    case Mark(k, reason) =>
      assert Edited(MirrorOf(t'), KeyText(k), Some(MarkEntry(MirrorOf(t'), k, reason))) == MirrorOf(t');
    case Revive(k) =>
      assert Edited(MirrorOf(t'), KeyText(k), ReviveEntry(MirrorOf(t'), k)) == MirrorOf(t');
  }

  /** Editing blindly, after a failed first load: right when there was no custom
      order to lose. */
  lemma BlindEdit(t: Table, op: Op, second: bool)
    requires !op.Ask?
    ensures var t' := Written(t, op, NO_FAULTS);
            Published(None, t', op, Faults(true, true, false, second)) == MirrorOf(t')
            <==> OrderOf(t, op.k) == NO_ORDER && (second || t.Keys <= {op.k})
  {
    hide MirrorOf, KeyText;
    var t' := Written(t, op, NO_FAULTS);
    var base: Table := if second then t' else map[];
    var edited := if op.Mark? then base[op.k := Row(StatusFor(op.reason), NO_ORDER, op.reason)] else base - {op.k};
    EmptyMirror();
    if op.Mark? {
      MirrorSet(base, op.k, Row(StatusFor(op.reason), NO_ORDER, op.reason));
    } else {
      MirrorRemove(base, op.k);
    }
    assert Published(None, t', op, Faults(true, true, false, second)) == MirrorOf(edited);
    MirrorInjective(edited, t');
    BlindTable(t, op, second);
  }

  lemma BlindTable(t: Table, op: Op, second: bool)
    requires !op.Ask?
    ensures var t' := Written(t, op, NO_FAULTS);
            var base: Table := if second then t' else map[];
            (if op.Mark? then base[op.k := Row(StatusFor(op.reason), NO_ORDER, op.reason)] else base - {op.k}) == t'
            <==> OrderOf(t, op.k) == NO_ORDER && (second || t.Keys <= {op.k})
  {
    var t' := Written(t, op, NO_FAULTS);
    assert op.Mark? ==> t'.Keys == t.Keys + {op.k};
    assert op.Revive? && OrderOf(t, op.k) == NO_ORDER ==> t'.Keys == t.Keys - {op.k};
    assert op.Revive? && OrderOf(t, op.k) != NO_ORDER ==> op.k in t';
    var base: Table := if second then t' else map[];
    var edited := if op.Mark? then base[op.k := Row(StatusFor(op.reason), NO_ORDER, op.reason)] else base - {op.k};
    if OrderOf(t, op.k) == NO_ORDER && (second || t.Keys <= {op.k}) {
      assert edited.Keys == t'.Keys;
      assert edited == t';
    }
    if edited == t' && !second {
      assert t'.Keys <= {op.k};
    }
  }

  /** The exact condition, for every operation, every table and every pattern of
      database failures. */
  lemma AgreementExactly(s: Store, op: Op, faults: Faults)
    requires Agrees(s)
    ensures Agrees(Step(s, op, faults)) <==> Harmless(s, op, faults)
  {
    hide MirrorOf, KeyText, Edited, MarkEntry, ReviveEntry, WithDead, WithoutPlain, WithAlive, Revived;
    if op.Ask? || !faults.firstWrite {
    } else if op.Revive? && !faults.secondWrite {
      HalfRevival(s.table, op.k);
    } else {
      WrittenFully(s.table, op, faults);
      if s.cache.Some? {
        EditFollowsWrite(s.table, op);
      } else if faults.firstLoad {
        EditAfterLoad(s.table, op);
      } else {
        BlindEdit(s.table, op, faults.secondLoad);
      }
    }
  }

  const BLIND := Faults(true, true, false, false)
  const HALF := Faults(true, false, true, true)

  /** With no snapshot yet and neither load working, marking one stream publishes
      a snapshot that has lost another that is dead in the table. */
  lemma BlindMarkForgets(k: Key, l: Key)
    requires k != l
    ensures var s := Store(map[l := Row(STATUS_DEAD_AUTO, NO_ORDER, "timeout")], None);
            var t := Step(s, Mark(k, "manual"), BLIND);
            && Agrees(s) && !Agrees(t) && !Harmless(s, Mark(k, "manual"), BLIND)
            && DeadInTable(t.table, l) && t.cache.Some? && !DeadInSnapshot(t.cache.value, l)
            && DeadInSnapshot(t.cache.value, k)
  {
    var s := Store(map[l := Row(STATUS_DEAD_AUTO, NO_ORDER, "timeout")], None);
    KeyTextInjective(k, l);
    AgreementExactly(s, Mark(k, "manual"), BLIND);
    hide KeyText, MirrorOf;
    assert l in s.table.Keys;
  }

  /** And a custom order is lost although the second load works. */
  lemma BlindMarkLosesOrder(k: Key, order: int)
    requires order != NO_ORDER
    ensures var s := Store(map[k := Row(STATUS_ALIVE, order, "")], None);
            var t := Step(s, Mark(k, "manual"), BLIND.(secondLoad := true));
            && t.table[k].order == order && t.cache.Some? && KeyText(k) in t.cache.value
            && t.cache.value[KeyText(k)].order == NO_ORDER
  {
    hide KeyText, MirrorOf;
  }

  /** A revival whose second statement fails: the row is gone from the table and
      the snapshot still says dead. */
  lemma HalfRevivalLeftBehind(k: Key)
    ensures var dead: Table := map[k := Row(STATUS_DEAD_AUTO, NO_ORDER, "timeout")];
            var s := Store(dead, Some(MirrorOf(dead)));
            var t := Step(s, Revive(k), HALF);
            && Agrees(s) && !Agrees(t) && !Harmless(s, Revive(k), HALF)
            && !DeadInTable(t.table, k) && DeadInSnapshot(t.cache.value, k)
  {
    var dead: Table := map[k := Row(STATUS_DEAD_AUTO, NO_ORDER, "timeout")];
    MirrorLookup(dead, k);
    AgreementExactly(Store(dead, Some(MirrorOf(dead))), Revive(k), HALF);
    hide KeyText, MirrorOf;
  }

  lemma WrittenFully(t: Table, op: Op, faults: Faults)
    requires !op.Ask? && Completes(op, faults)
    ensures Written(t, op, faults) == Written(t, op, NO_FAULTS)
  {
  }

  // ---- runs -------------------------------------------------------------------------------------------

  datatype Call = Call(op: Op, faults: Faults)

  ghost function Run(s: Store, calls: seq<Call>): Store
    decreases |calls|
  {
    if calls == [] then s else Run(Step(s, calls[0].op, calls[0].faults), calls[1..])
  }

  ghost predicate AllHarmless(s: Store, calls: seq<Call>)
    decreases |calls|
  {
    calls != [] ==> Harmless(s, calls[0].op, calls[0].faults)
                    && AllHarmless(Step(s, calls[0].op, calls[0].faults), calls[1..])
  }

  /** The table alone, without any snapshot. */
  function TableRun(t: Table, calls: seq<Call>): Table
    decreases |calls|
  {
    if calls == [] then t else TableRun(Written(t, calls[0].op, calls[0].faults), calls[1..])
  }

  /** What a check sees when its own load works or fails answers as the table does
      exactly when a snapshot is there, the load works, or the answer is the one
      given for no row. */
  lemma AnswersExactly(s: Store, k: Key, load: bool)
    requires Agrees(s)
    ensures var m := View(s.cache, s.table, load);
            && ((DeadInSnapshot(m, k) <==> DeadInTable(s.table, k)) <==> s.cache.Some? || load || !DeadInTable(s.table, k))
            && (ReasonInSnapshot(m, k) == ReasonInTable(s.table, k)
                <==> s.cache.Some? || load || ReasonInTable(s.table, k) == "")
  {
    hide MirrorOf, KeyText;
    MirrorLookup(s.table, k);
  }

  /** From any table, after any calls that stayed harmless, snapshot and table
      agree, and a check answers, reason included, as the table does: exactly when
      a snapshot is there, its own load works, or there is nothing to tell. */
  lemma {:induction false} EveryRunAgrees(s: Store, calls: seq<Call>, k: Key, load: bool)
    requires Agrees(s) && AllHarmless(s, calls)
    ensures Agrees(Run(s, calls))
    ensures Run(s, calls).table == TableRun(s.table, calls)
    ensures var c, t := Run(s, calls).cache, TableRun(s.table, calls);
            && ((DeadInSnapshot(View(c, t, load), k) <==> DeadInTable(t, k)) <==> c.Some? || load || !DeadInTable(t, k))
            && (ReasonInSnapshot(View(c, t, load), k) == ReasonInTable(t, k)
                <==> c.Some? || load || ReasonInTable(t, k) == "")
    decreases |calls|
  {
    hide MirrorOf, KeyText, Harmless, Written, Published, DeadInSnapshot, DeadInTable, ReasonInSnapshot, ReasonInTable;
    if calls == [] {
      AnswersExactly(s, k, load);
    } else {
      AgreementExactly(s, calls[0].op, calls[0].faults);
      EveryRunAgrees(Step(s, calls[0].op, calls[0].faults), calls[1..], k, load);
    }
  }

  /** Without database failures every call is harmless, so every run from a
      freshly started process agrees. */
  lemma {:induction false} FaultlessRunsAreHarmless(s: Store, calls: seq<Call>)
    requires forall i :: 0 <= i < |calls| ==> calls[i].faults == NO_FAULTS
    ensures AllHarmless(s, calls)
    decreases |calls|
  {
    if calls != [] {
      assert calls[0].faults == NO_FAULTS;
      FaultlessRunsAreHarmless(Step(s, calls[0].op, calls[0].faults), calls[1..]);
    }
  }

  lemma FaultlessRunsAgree(t: Table, calls: seq<Call>, k: Key)
    requires forall i :: 0 <= i < |calls| ==> calls[i].faults == NO_FAULTS
    ensures var s := Run(Store(t, None), calls);
            && Agrees(s) && s.table == TableRun(t, calls)
            && (DeadInSnapshot(View(s.cache, s.table, true), k) <==> DeadInTable(s.table, k))
            && ReasonInSnapshot(View(s.cache, s.table, true), k) == ReasonInTable(s.table, k)
  {
    FaultlessRunsAreHarmless(Store(t, None), calls);
    EveryRunAgrees(Store(t, None), calls, k, true);
  }

  /** A revival undoes a mark as far as the table can tell: the stream is alive,
      its custom order is the old one, and every other row is untouched. */
  lemma ReviveUndoesMark(t: Table, k: Key, reason: string)
    ensures var t' := Revived(WithDead(t, k, StatusFor(reason), reason), k);
            && DeadInTable(WithDead(t, k, StatusFor(reason), reason), k)
            && !DeadInTable(t', k) && OrderOf(t', k) == OrderOf(t, k)
            && t' - {k} == t - {k}
            && (k in t' <==> OrderOf(t, k) != NO_ORDER)
  {
    var dead := WithDead(t, k, StatusFor(reason), reason);
    assert dead - {k} == t - {k};
    assert Revived(dead, k) - {k} == dead - {k};
  }
}
