/** Interleaved marks, revivals and checks as an onlooker sees them, who knows which
    calls began and which are over, and nothing of the steps. */
module DeadWatch {
  import opened Text
  import D = DeadStreams
  import opened DeadStreamsProtocol

  /** The call each thread is in or ended last, and the table the finished calls
      would have made one after the other. */
  datatype Watch = Watch(calls: map<nat, D.Op>, told: D.Table)

  /** A mark sets status and reason and keeps the custom order; a revival clears a
      row with a custom order and removes one without. */
  function Applied(t: D.Table, op: D.Op): D.Table {
    match op
    case Mark(k, reason) => t[k := D.Row(if reason == "manual" then 2 else 3, if k in t then t[k].order else -1, reason)]
    case Revive(k) => if k in t && t[k].order != -1 then t[k := D.Row(0, t[k].order, "")] else t - {k}
    case Ask(_) => t
  }

  function Watched(w: Watch, before: State, ev: Event, after: State): Watch {
    match ev
    case Begin(t, op) =>
      if t < |before.threads| && Between(before.threads[t]) then w.(calls := w.calls[t := op]) else w
    case Move(t) =>
      if t < |before.threads| && t < |after.threads| && !Between(before.threads[t]) && Between(after.threads[t]) && t in w.calls
      then w.(told := Applied(w.told, w.calls[t])) else w
  }

  function WatchOf(s: State, events: seq<Event>): Watch {
    if events == [] then Watch(map[], s.table)
    else
      var n := |events| - 1;
      Watched(WatchOf(s, events[..n]), Run(s, events[..n]), events[n], Run(s, events))
  }

  // ---- what ties the steps to the calls ----------------------------------------------------------

  /** What the table says of a thread's stream at its place. */
  predicate Tells(table: D.Table, told: D.Table, calls: map<nat, D.Op>, t: nat, l: Local) {
    Between(l)
    || (&& t in calls && calls[t] == l.op
        && (l.op.Ask? || Lookup(table, l.op.k) == Lookup(if l.Start? then told
                                                        else if l.Cleared? then D.WithoutPlain(told, l.op.k)
                                                        else Applied(told, l.op), l.op.k))
        && (l.Cleared? ==> l.op.Revive?))
  }

  /** A mark or a revival of the stream is in progress. */
  ghost predicate InFlight(s: State, k: D.Key) {
    exists t :: 0 <= t < |s.threads| && Writes(s.threads[t], k)
  }

  ghost predicate Told(s: State, w: Watch) {
    && (forall t :: 0 <= t < |s.threads| ==> Tells(s.table, w.told, w.calls, t, s.threads[t]))
    && (forall k :: !InFlight(s, k) ==> Lookup(s.table, k) == Lookup(w.told, k))
  }

  lemma AppliedElsewhere(t: D.Table, op: D.Op, k: D.Key)
    ensures k != op.k || op.Ask? ==> Lookup(Applied(t, op), k) == Lookup(t, k)
  {
  }

  /** Which rows a step may change. */
  lemma StepEffect(s: State, t: nat)
    requires t < |s.threads| && !Between(s.threads[t])
    ensures var s', l := Step(s, t), s.threads[t];
            && |s'.threads| == |s.threads| && s'.threads == s.threads[t := s'.threads[t]]
            && (if l.Cleared? then s'.table == D.WithAlive(s.table, l.op.k)
                else if l.Start? && l.op.Mark? then s'.table == D.WithDead(s.table, l.op.k, D.StatusFor(l.op.reason), l.op.reason)
                else if l.Start? && l.op.Revive? then s'.table == D.WithoutPlain(s.table, l.op.k)
                else s'.table == s.table)
  {
    hide D.WithDead, D.WithAlive, D.WithoutPlain, Edit, Lookup, StepQuiet;
    QuietFrame(s, t);
  }

  /** Where a step leads: when a call is over, and that it stays the same call. */
  predicate Leads(l: Local, l': Local) {
    && (!l'.Idle? ==> !l.Idle? && l'.op == l.op)
    && (l'.Idle? <==> l.ReplaceUnlock?) && (l'.Answered? ==> l.Decide? && l.op.Ask?)
    && (l'.Cleared? <==> l.Start? && l.op.Revive?) && !l'.Start?
  }

  lemma LookLeads(s: State, t: nat)
    requires t < |s.threads| && var l := s.threads[t]; l.Look? || l.LoadLock? || l.LoadCheck? || l.LoadRead? || l.LoadUnlock?
    ensures |StepQuiet(s, t).threads| == |s.threads| && Leads(s.threads[t], StepQuiet(s, t).threads[t])
  {
    hide Now, Lookup, EntryFor, Edit, D.OrderOf;
  }

  lemma ReplaceLeads(s: State, t: nat)
    requires t < |s.threads|
    requires var l := s.threads[t]; l.Decide? || l.ReplaceLook? || l.ReplaceLock? || l.ReplaceBuild? || l.ReplaceUnlock?
    ensures |StepQuiet(s, t).threads| == |s.threads| && Leads(s.threads[t], StepQuiet(s, t).threads[t])
  {
    hide Now, Lookup, EntryFor, Edit, D.OrderOf;
  }

  lemma StepPlace(s: State, t: nat)
    requires t < |s.threads| && !Between(s.threads[t])
    ensures |Step(s, t).threads| == |s.threads| && Leads(s.threads[t], Step(s, t).threads[t])
  {
    hide D.WithDead, D.WithAlive, D.WithoutPlain, Edit, Lookup, StepQuiet;
    var l := s.threads[t];
    if l.Look? || l.LoadLock? || l.LoadCheck? || l.LoadRead? || l.LoadUnlock? {
      LookLeads(s, t);
    } else if l.Decide? || l.ReplaceLook? || l.ReplaceLock? || l.ReplaceBuild? || l.ReplaceUnlock? {
      ReplaceLeads(s, t);
    }
  }

  lemma RowAfter(table: D.Table, told: D.Table, op: D.Op)
    requires !op.Ask?
    ensures op.Mark? && Lookup(table, op.k) == Lookup(told, op.k) ==>
              Lookup(D.WithDead(table, op.k, D.StatusFor(op.reason), op.reason), op.k) == Lookup(Applied(told, op), op.k)
    ensures op.Revive? && Lookup(table, op.k) == Lookup(told, op.k) ==>
              Lookup(D.WithoutPlain(table, op.k), op.k) == Lookup(D.WithoutPlain(told, op.k), op.k)
    ensures op.Revive? && Lookup(table, op.k) == Lookup(D.WithoutPlain(told, op.k), op.k) ==>
              Lookup(D.WithAlive(table, op.k), op.k) == Lookup(Applied(told, op), op.k)
  {
  }

  /** What a thread tells depends on its own stream's rows only. */
  lemma OthersTell(table: D.Table, table': D.Table, told: D.Table, told': D.Table, calls: map<nat, D.Op>, t: nat, l: Local)
    requires Tells(table, told, calls, t, l)
    requires !Between(l) && !l.op.Ask? ==>
               Lookup(table', l.op.k) == Lookup(table, l.op.k) && Lookup(told', l.op.k) == Lookup(told, l.op.k)
    ensures Tells(table', told', calls, t, l)
  {
    if !Between(l) && !l.op.Ask? {
      assert Lookup(Applied(told', l.op), l.op.k) == Lookup(Applied(told, l.op), l.op.k);
      assert Lookup(D.WithoutPlain(told', l.op.k), l.op.k) == Lookup(D.WithoutPlain(told, l.op.k), l.op.k);
    }
  }

  lemma OwnTells(s: State, w: Watch, t: nat)
    requires Told(s, w) && t < |s.threads| && !Between(s.threads[t])
    ensures var s', l := Step(s, t), s.threads[t];
            && |s'.threads| == |s.threads|
            && t in w.calls && w.calls[t] == l.op
            && (!Between(s'.threads[t]) ==> Tells(s'.table, w.told, w.calls, t, s'.threads[t]))
            && (s'.threads[t].Idle? && !l.op.Ask? ==> Lookup(s'.table, l.op.k) == Lookup(Applied(w.told, l.op), l.op.k))
            && (s'.threads[t].Answered? ==> l.op.Ask?)
            && (forall k :: k != l.op.k || l.op.Ask? ==> Lookup(s'.table, k) == Lookup(s.table, k))
  {
    assert Tells(s.table, w.told, w.calls, t, s.threads[t]);
    StepEffect(s, t);
    StepPlace(s, t);
    var op := s.threads[t].op;
    if !op.Ask? {
      RowAfter(s.table, w.told, op);
    }
    hide Step, Applied, InFlight;
  }

  lemma ApartThreads(s: State, t: nat, u: nat)
    requires Apart(s) && t < |s.threads| && u < |s.threads| && t != u && !Between(s.threads[t]) && !s.threads[t].op.Ask?
    ensures !Between(s.threads[u]) && !s.threads[u].op.Ask? ==> s.threads[u].op.k != s.threads[t].op.k
  {
    assert Writes(s.threads[t], s.threads[t].op.k);
  }

  lemma StepTells(s: State, w: Watch, t: nat)
    requires Told(s, w) && Apart(s) && t < |s.threads| && !Between(s.threads[t])
    ensures Told(Step(s, t), Watched(w, s, Move(t), Step(s, t)))
  {
    hide Apart, Tells, Applied, Step, Lookup, InFlight;
    var s', op := Step(s, t), s.threads[t].op;
    var w' := Watched(w, s, Move(t), s');
    StepEffect(s, t);
    OwnTells(s, w, t);
    forall k
      ensures k != op.k || op.Ask? ==> Lookup(w'.told, k) == Lookup(w.told, k)
    {
      AppliedElsewhere(w.told, op, k);
    }
    forall u | 0 <= u < |s'.threads|
      ensures Tells(s'.table, w'.told, w'.calls, u, s'.threads[u])
    {
      if u != t {
        assert Tells(s.table, w.told, w.calls, u, s.threads[u]);
        if !op.Ask? {
          ApartThreads(s, t, u);
        }
        OthersTell(s.table, s'.table, w.told, w'.told, w.calls, u, s.threads[u]);
      } else if Between(s'.threads[t]) {
        OverTells(s'.table, w'.told, w'.calls, t, s'.threads[t]);
      }
    }
    forall k | !InFlight(s', k)
      ensures Lookup(s'.table, k) == Lookup(w'.told, k)
    {
      FreeAfter(s, t, k);
      if k == op.k && !op.Ask? {
        OwnIsOver(s, t);
      }
    }
  }

  lemma OverTells(table: D.Table, told: D.Table, calls: map<nat, D.Op>, t: nat, l: Local)
    requires Between(l)
    ensures Tells(table, told, calls, t, l)
  {
  }

  lemma FreeAfter(s: State, t: nat, k: D.Key)
    requires t < |s.threads| && !Between(s.threads[t]) && !InFlight(Step(s, t), k)
    ensures k != s.threads[t].op.k || s.threads[t].op.Ask? ==> !InFlight(s, k)
  {
    StepEffect(s, t);
    hide Step;
    var s' := Step(s, t);
    assert forall u :: 0 <= u < |s.threads| && u != t ==> (Writes(s.threads[u], k) <==> Writes(s'.threads[u], k));
  }

  lemma OwnIsOver(s: State, t: nat)
    requires t < |s.threads| && !Between(s.threads[t]) && !s.threads[t].op.Ask? && !InFlight(Step(s, t), s.threads[t].op.k)
    ensures |Step(s, t).threads| == |s.threads| && Step(s, t).threads[t].Idle?
  {
    StepEffect(s, t);
    StepPlace(s, t);
    hide Step;
    assert !Writes(Step(s, t).threads[t], s.threads[t].op.k);
  }

  lemma BeginTells(s: State, w: Watch, t: nat, op: D.Op)
    requires Told(s, w) && t < |s.threads| && Between(s.threads[t]) && Apart(Put(s, t, Start(op)))
    ensures Told(Put(s, t, Start(op)), Watched(w, s, Begin(t, op), Put(s, t, Start(op))))
  {
    hide Lookup, Applied, D.WithoutPlain;
    var s' := Put(s, t, Start(op));
    var w' := w.(calls := w.calls[t := op]);
    assert Watched(w, s, Begin(t, op), s') == w';
    if !op.Ask? {
      FreshStream(s, t, op);
    }
    forall u | 0 <= u < |s'.threads|
      ensures Tells(s'.table, w'.told, w'.calls, u, s'.threads[u])
    {
      assert Tells(s.table, w.told, w.calls, u, s.threads[u]);
    }
    forall k | !InFlight(s', k)
      ensures Lookup(s'.table, k) == Lookup(w'.told, k)
    {
      assert !Writes(s.threads[t], k);
      assert forall u :: 0 <= u < |s.threads| && u != t ==> (Writes(s.threads[u], k) <==> Writes(s'.threads[u], k));
    }
  }

  lemma FreshStream(s: State, t: nat, op: D.Op)
    requires t < |s.threads| && Between(s.threads[t]) && !op.Ask? && Apart(Put(s, t, Start(op)))
    ensures !InFlight(s, op.k)
  {
    var s' := Put(s, t, Start(op));
    assert Writes(s'.threads[t], op.k) && !Writes(s.threads[t], op.k);
    assert forall u :: 0 <= u < |s.threads| && u != t ==> (Writes(s.threads[u], op.k) <==> Writes(s'.threads[u], op.k));
  }

  // ---- every run ------------------------------------------------------------------------------------

  lemma HappenTells(s: State, w: Watch, ev: Event)
    requires Told(s, w) && Apart(s) && Apart(Happen(s, ev))
    ensures Told(Happen(s, ev), Watched(w, s, ev, Happen(s, ev)))
  {
    hide Told, Apart, Step, Applied;
    match ev
    case Begin(t, op) =>
      if t < |s.threads| && Between(s.threads[t]) {
        BeginTells(s, w, t, op);
      }
    case Move(t) =>
      if t < |s.threads| {
        if Between(s.threads[t]) {
          RestingStays(s, t);
        } else {
          StepTells(s, w, t);
        }
      }
  }

  lemma RestingStays(s: State, t: nat)
    requires t < |s.threads| && Between(s.threads[t])
    ensures Step(s, t) == s
  {
  }

  lemma LastHappens(s: State, events: seq<Event>)
    requires events != []
    ensures var n := |events| - 1;
            Run(s, events) == Happen(Run(s, events[..n]), events[n])
  {
    var n := |events| - 1;
    hide Happen;
    RunConcat(s, events[..n], [events[n]]);
    assert events[..n] + [events[n]] == events;
    assert [events[n]][1..] == [];
    assert Run(Run(s, events[..n]), [events[n]]) == Run(Happen(Run(s, events[..n]), events[n]), []);
  }

  lemma {:induction false} ApartAtEnd(s: State, events: seq<Event>)
    requires ApartRun(s, events)
    ensures Apart(Run(s, events))
    decreases |events|
  {
    hide Apart, Happen;
    if events != [] {
      ApartAtEnd(Happen(s, events[0]), events[1..]);
    }
  }

  lemma {:induction false} EveryRunTells(table: D.Table, cache: Option<Image>, n: nat, events: seq<Event>)
    requires ApartRun(Initial(table, cache, n), events)
    ensures var s0 := Initial(table, cache, n);
            Told(Run(s0, events), WatchOf(s0, events))
    decreases |events|
  {
    var s0 := Initial(table, cache, n);
    if events == [] {
      assert Told(s0, WatchOf(s0, []));
    } else {
      hide Told, Apart, Happen, Watched, Initial;
      var m := |events| - 1;
      ApartPrefix(s0, events, m);
      EveryRunTells(table, cache, n, events[..m]);
      LastHappens(s0, events);
      ApartAtEnd(s0, events);
      ApartAtEnd(s0, events[..m]);
      HappenTells(Run(s0, events[..m]), WatchOf(s0, events[..m]), events[m]);
    }
  }

  /** In every interleaving, without overlap on one stream: a stream no mark or
      revival of which is in progress has the row that the finished ones left, in
      the order they ended; and when nothing is in progress, table and snapshot
      are what they left. */
  lemma EveryRunDoesWhatWasCalled(table: D.Table, cache: Option<Image>, n: nat, events: seq<Event>, k: D.Key)
    requires cache.None? || cache.value == table
    requires ApartRun(Initial(table, cache, n), events)
    ensures var s0 := Initial(table, cache, n);
            var s, told := Run(s0, events), WatchOf(s0, events).told;
            && (!InFlight(s, k) ==>
                  && Lookup(s.table, k) == Lookup(told, k)
                  && (s.cache.Some? ==> Lookup(s.cache.value, k) == Lookup(told, k)))
            && (Quiet(s) ==> s.table == told && (s.cache.Some? ==> s.cache.value == told))
  {
    var s0 := Initial(table, cache, n);
    EveryRunTells(table, cache, n, events);
    InterleavedRunsAgree(table, cache, n, events, k);
    var s, told := Run(s0, events), WatchOf(s0, events).told;
    hide Run, WatchOf, ApartRun;
    FreeIsClean(s, k);
    if Quiet(s) {
      SameRows(s, told);
    }
  }

  lemma FreeIsClean(s: State, k: D.Key)
    ensures !InFlight(s, k) ==> !Dirty(s, k)
  {
    if t :| 0 <= t < |s.threads| && Pending(s.threads[t], k) {
      assert Writes(s.threads[t], k);
    }
  }

  lemma SameRows(s: State, told: D.Table)
    requires Quiet(s) && forall k :: !InFlight(s, k) ==> Lookup(s.table, k) == Lookup(told, k)
    ensures s.table == told
  {
    forall k
      ensures k in s.table <==> k in told
      ensures k in told ==> s.table[k] == told[k]
    {
      assert !InFlight(s, k);
      assert Lookup(s.table, k) == Lookup(told, k);
    }
  }

  // ---- a call left alone ------------------------------------------------------------------------------

  /** How many moves a call still needs when nothing stands in its way. */
  function Ahead(l: Local): nat {
    match l
    case Idle => 0
    case Answered(_, _, _) => 0
    case ReplaceUnlock(_) => 1
    case ReplaceStore(_, _) => 2
    case ReplaceBuild(_, _) => 3
    case ReplaceLock(_, _) => 4
    case ReplaceLook(_, _) => 5
    case Decide(_, _, _) => 6
    case LoadUnlock(_, _, _) => 7
    case LoadPublish(_, _, _) => 8
    case LoadRead(_) => 9
    case LoadCheck(_) => 10
    case LoadLock(_) => 11
    case Look(_) => 12
    case Cleared(_) => 13
    case Start(_) => 14
  }

  /** No other thread has the lock, and a snapshot is there where the call has seen
      one. */
  predicate Alone(s: State, t: nat)
    requires t < |s.threads|
  {
    var l := s.threads[t];
    && s.holder == (if Holding(l) then Some(t) else None)
    && (l.LoadUnlock? || l.Decide? || l.ReplaceLook? || l.ReplaceLock? || l.ReplaceBuild? ==> s.cache.Some?)
  }

  lemma LookAlone(s: State, t: nat)
    requires t < |s.threads| && Alone(s, t)
    requires var l := s.threads[t]; l.Look? || l.LoadLock? || l.LoadCheck? || l.LoadRead? || l.LoadUnlock?
    ensures var s' := StepQuiet(s, t);
            |s'.threads| == |s.threads| && Alone(s', t) && Ahead(s'.threads[t]) < Ahead(s.threads[t])
  {
    hide Now, Edit, EntryFor, Lookup, D.OrderOf;
  }

  lemma ReplaceAlone(s: State, t: nat)
    requires t < |s.threads| && Alone(s, t)
    requires var l := s.threads[t]; l.Decide? || l.ReplaceLook? || l.ReplaceLock? || l.ReplaceBuild? || l.ReplaceUnlock?
    ensures var s' := StepQuiet(s, t);
            |s'.threads| == |s.threads| && Alone(s', t) && Ahead(s'.threads[t]) < Ahead(s.threads[t])
  {
    hide Now, Edit, EntryFor, Lookup, D.OrderOf;
  }

  lemma AloneStep(s: State, t: nat)
    requires t < |s.threads| && Alone(s, t) && !Between(s.threads[t])
    ensures var s' := Step(s, t);
            |s'.threads| == |s.threads| && Alone(s', t) && Ahead(s'.threads[t]) < Ahead(s.threads[t])
  {
    hide D.WithDead, D.WithAlive, D.WithoutPlain, Edit, Lookup, StepQuiet;
    var l := s.threads[t];
    if l.Look? || l.LoadLock? || l.LoadCheck? || l.LoadRead? || l.LoadUnlock? {
      LookAlone(s, t);
    } else if l.Decide? || l.ReplaceLook? || l.ReplaceLock? || l.ReplaceBuild? || l.ReplaceUnlock? {
      ReplaceAlone(s, t);
    }
  }

  lemma ApartStays(s: State, t: nat)
    requires Apart(s) && t < |s.threads| && !Between(s.threads[t])
    ensures Apart(Step(s, t))
  {
    StepEffect(s, t);
    StepPlace(s, t);
    hide Step;
    var s' := Step(s, t);
    assert forall u, k :: 0 <= u < |s.threads| && Writes(s'.threads[u], k) ==> Writes(s.threads[u], k);
  }

  /** A call left alone with the lock free is over after fourteen moves at most. */
  lemma {:induction false} AloneEnds(s: State, t: nat, k: nat)
    requires t < |s.threads| && Alone(s, t) && Ahead(s.threads[t]) <= k
    ensures var s' := Run(s, seq(k, _ => Move(t)));
            |s'.threads| == |s.threads| && Between(s'.threads[t])
    decreases k
  {
    var moves := seq(k, _ => Move(t));
    if k > 0 {
      assert moves[0] == Move(t) && moves[1..] == seq(k - 1, _ => Move(t));
      hide Step, Alone, Ahead;
      if Between(s.threads[t]) {
        RestingStays(s, t);
        RestsAhead(s.threads[t]);
      } else {
        AloneStep(s, t);
      }
      AloneEnds(Happen(s, Move(t)), t, k - 1);
    } else {
      assert Ahead(s.threads[t]) == 0;
    }
  }

  lemma {:induction false} RestingMoves(s: State, t: nat, k: nat)
    requires t < |s.threads| && Between(s.threads[t])
    ensures Run(s, seq(k, _ => Move(t))) == s
    decreases k
  {
    var moves := seq(k, _ => Move(t));
    if k > 0 {
      assert moves[0] == Move(t) && moves[1..] == seq(k - 1, _ => Move(t));
      hide Step;
      RestingStays(s, t);
      RestingMoves(s, t, k - 1);
    }
  }

  /** And then its stream has the row the call was to leave. */
  lemma {:induction false} AloneDoes(s: State, w: Watch, t: nat, k: nat)
    requires Told(s, w) && Apart(s) && t < |s.threads| && Alone(s, t) && !Between(s.threads[t]) && Ahead(s.threads[t]) <= k
    ensures var s', op := Run(s, seq(k, _ => Move(t))), s.threads[t].op;
            && |s'.threads| == |s.threads| && Between(s'.threads[t])
            && (!op.Ask? ==> s'.threads[t].Idle? && Lookup(s'.table, op.k) == Lookup(Applied(w.told, op), op.k))
    decreases k
  {
    var moves := seq(k, _ => Move(t));
    hide Step, Alone, Ahead, Told, Apart, Lookup, Applied;
    AloneStep(s, t);
    assert moves[0] == Move(t) && moves[1..] == seq(k - 1, _ => Move(t));
    var s' := Step(s, t);
    OwnTells(s, w, t);
    if Between(s'.threads[t]) {
      RestingMoves(s', t, k - 1);
    } else {
      StepTells(s, w, t);
      ApartStays(s, t);
      StepPlace(s, t);
      AloneDoes(s', w, t, k - 1);
    }
  }

  /** Whatever ran before, a mark or revival that then runs alone is over after
      fourteen moves, and the table's row of its stream is the one it was to leave
      on the row that was there. */
  lemma WholeCall(table: D.Table, cache: Option<Image>, n: nat, before: seq<Event>, t: nat, op: D.Op)
    requires var s0 := Initial(table, cache, n);
             && ApartRun(s0, before) && t < |Run(s0, before).threads| && Between(Run(s0, before).threads[t])
             && Run(s0, before).holder.None? && Apart(Put(Run(s0, before), t, Start(op))) && !op.Ask?
    ensures var s := Run(Initial(table, cache, n), before);
            var s' := Run(Put(s, t, Start(op)), seq(14, _ => Move(t)));
            && |s'.threads| == |s.threads| && s'.threads[t].Idle?
            && Lookup(s'.table, op.k) == Lookup(Applied(s.table, op), op.k)
  {
    var s0 := Initial(table, cache, n);
    var s := Run(s0, before);
    EveryRunTells(table, cache, n, before);
    FreshStream(s, t, op);
    var w := WatchOf(s0, before);
    assert Lookup(s.table, op.k) == Lookup(w.told, op.k);
    hide Run, WatchOf, ApartRun, Told, Apart, Initial;
    BeginTells(s, w, t, op);
    AloneDoes(Put(s, t, Start(op)), w.(calls := w.calls[t := op]), t, 14);
    AppliedAlike(s.table, w.told, op);
  }

  lemma AppliedAlike(t: D.Table, u: D.Table, op: D.Op)
    requires !op.Ask? && Lookup(t, op.k) == Lookup(u, op.k)
    ensures Lookup(Applied(t, op), op.k) == Lookup(Applied(u, op), op.k)
  {
  }

  lemma RestsAhead(l: Local)
    ensures Between(l) <==> Ahead(l) == 0
  {
  }
}
