/** What marks and revivals mean for one stream, whatever else was called. */
module DeadLaws {
  import opened Text
  import opened DeadStreams

  /** The custom order a stream has, -1 for none. */
  function CustomOrder(t: Table, k: Key): int {
    if k in t then t[k].order else -1
  }

  /** The call changed the stream's row: a mark whose statement worked, a revival
      whose statements worked, or the first of them where it removes the row. */
  predicate Counts(t: Table, call: Call, k: Key) {
    match call.op
    case Mark(l, _) => l == k && call.faults.firstWrite
    case Revive(l) => l == k && call.faults.firstWrite && (call.faults.secondWrite || CustomOrder(t, k) == -1)
    case Ask(_) => false
  }

  /** The row a mark leaves, and the one a revival leaves, if any. */
  predicate LeftBy(t: Table, call: Call, k: Key, row: Option<Row>) {
    match call.op
    case Mark(_, reason) =>
      row == Some(Row(if reason == "manual" then 2 else 3, CustomOrder(t, k), reason))
    case Revive(_) => row == if CustomOrder(t, k) == -1 then None else Some(Row(0, CustomOrder(t, k), ""))
    case Ask(_) => false
  }

  function RowOf(t: Table, k: Key): Option<Row> {
    if k in t then Some(t[k]) else None
  }

  lemma OneWrite(t: Table, call: Call, k: Key)
    ensures var t' := Written(t, call.op, call.faults);
            && CustomOrder(t', k) == CustomOrder(t, k)
            && (if Counts(t, call, k) then LeftBy(t, call, k, RowOf(t', k))
                else RowOf(t', k) == RowOf(t, k))
  {
  }

  /** The last call of the run that changed the stream's row. */
  ghost predicate LastCount(t: Table, calls: seq<Call>, k: Key, i: nat) {
    && i < |calls| && Counts(t, calls[i], k)
    && forall j :: i < j < |calls| ==> !Counts(t, calls[j], k)
  }

  /** The row is what the last call that changed it left, with the custom order the
      stream had at the start; the row from the start when no call did. */
  ghost predicate Decided(t: Table, calls: seq<Call>, k: Key, row: Option<Row>) {
    && (forall i: nat :: LastCount(t, calls, k, i) ==> LeftBy(t, calls[i], k, row))
    && ((forall i :: 0 <= i < |calls| ==> !Counts(t, calls[i], k)) ==> row == RowOf(t, k))
  }

  lemma {:induction false} LastWriteDecides(t: Table, calls: seq<Call>, k: Key)
    ensures Decided(t, calls, k, RowOf(TableRun(t, calls), k))
    ensures CustomOrder(TableRun(t, calls), k) == CustomOrder(t, k)
    decreases |calls|
  {
    if calls != [] {
      var t' := Written(t, calls[0].op, calls[0].faults);
      hide Written, LeftBy, Counts, CustomOrder, RowOf;
      OneWrite(t, calls[0], k);
      LastWriteDecides(t', calls[1..], k);
      var rest := calls[1..];
      assert forall j :: 0 < j < |calls| ==> calls[j] == rest[j - 1];
      forall call: Call, row: Option<Row>
        ensures Counts(t', call, k) <==> Counts(t, call, k)
        ensures LeftBy(t', call, k, row) <==> LeftBy(t, call, k, row)
      {
        SameOrderSame(t, t', call, k, row);
      }
      var last := RowOf(TableRun(t, calls), k);
      forall i: nat | LastCount(t, calls, k, i)
        ensures LeftBy(t, calls[i], k, last)
      {
        if i == 0 {
          assert forall j :: 0 <= j < |rest| ==> rest[j] == calls[j + 1];
        } else {
          assert LastCount(t', rest, k, i - 1);
        }
      }
      if forall i :: 0 <= i < |calls| ==> !Counts(t, calls[i], k) {
        assert forall j :: 0 <= j < |rest| ==> rest[j] == calls[j + 1];
      }
    }
  }

  lemma SameOrderSame(t: Table, t': Table, call: Call, k: Key, row: Option<Row>)
    requires CustomOrder(t', k) == CustomOrder(t, k)
    ensures Counts(t', call, k) <==> Counts(t, call, k)
    ensures LeftBy(t', call, k, row) <==> LeftBy(t, call, k, row)
  {
  }

  /** Whatever was called, faults included, as long as every call was harmless: with
      a snapshot, or a load that works, a check says dead exactly when the deciding
      row has one of the two dead statuses, and tells its reason. */
  lemma ChecksTellTheLastWrite(s: Store, calls: seq<Call>, k: Key, load: bool) returns (row: Option<Row>)
    requires Agrees(s) && AllHarmless(s, calls)
    ensures Decided(s.table, calls, k, row)
    ensures var now := Run(s, calls);
            var seen := View(now.cache, now.table, load);
            now.cache.Some? || load ==>
              && (DeadInSnapshot(seen, k) <==> row.Some? && (row.value.status == 2 || row.value.status == 3))
              && ReasonInSnapshot(seen, k) == if row.Some? then row.value.reason else ""
  {
    hide MirrorOf, KeyText, Harmless, Decided, AllHarmless, Agrees, Run, DeadInSnapshot, ReasonInSnapshot;
    LastWriteDecides(s.table, calls, k);
    EveryRunAgrees(s, calls, k, load);
    row := RowOf(TableRun(s.table, calls), k);
    hide TableRun;
  }
}
