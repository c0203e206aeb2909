/** The ring buffer's calls interleaved: every load, lock, copy and store that
    another thread could come between is a step of its own. */
module RingProtocol {
  import opened Text
  import opened RingBuffers

  /** Where a thread is inside a call, and what it carries. */
  datatype Local =
    | Idle
    // Write
    | WriteCheck(d: seq<byte>)
    | WriteLock(d: seq<byte>)
    | WriteRecheck(d: seq<byte>)
    | WriteNilCheck(d: seq<byte>)
    | WriteFirst(d: seq<byte>)
    | WriteSecond(d: seq<byte>, was: seq<byte>)
    | WriteAdvance(d: seq<byte>, was: seq<byte>)
    // PeekRecentData
    | PeekCheck(n: nat)
    | PeekNilCheck(n: nat)
    | PeekLock(n: nat)
    | PeekRecheck(n: nat)
    | PeekLoad(n: nat)
    | PeekFirst(n: nat, pos: nat)
    | PeekSecond(n: nat, pos: nat, chunk: seq<byte>)
    // seen is the history as of the locked section, None when a peek left before
    | PeekUnlock(n: nat, result: Option<seq<byte>>, seen: Option<seq<byte>>)
    | Peeked(n: nat, result: Option<seq<byte>>, seen: Option<seq<byte>>)
    // Reset
    | ResetCheck
    | ResetLock
    | ResetRecheck
    | ResetStore
    // Destroy
    | DestroySwap
    | DestroyLock
    | DestroyRelease
    | DestroyStore
    // leaving an exclusive section
    | Unlock

  /** The shared fields, the lock, the threads, and two records of the past: the
      bytes written since the last reset and how often the array was released. */
  datatype State = State(
    size: nat,
    data: Option<seq<byte>>,
    writePos: nat,
    destroyed: bool,
    writer: Option<nat>,
    readers: set<nat>,
    threads: seq<Local>,
    destroyer: Option<nat>,
    history: seq<byte>,
    releases: nat)

  datatype Call = CallWrite(d: seq<byte>) | CallPeek(n: nat) | CallReset | CallDestroy

  datatype Event = Begin(t: nat, call: Call) | Move(t: nat)

  function Initial(size: nat, n: nat): State {
    State(size, Some(seq(size, _ => 0)), 0, false, None, {}, seq(n, _ => Idle), None, [], 0)
  }

  function Put(s: State, t: nat, l: Local): State
    requires t < |s.threads|
  {
    s.(threads := s.threads[t := l])
  }

  function Entry(call: Call): Local {
    match call
    case CallWrite(d) => WriteCheck(d)
    case CallPeek(n) => PeekCheck(n)
    case CallReset => ResetCheck
    case CallDestroy => DestroySwap
  }

  predicate Between(l: Local) {
    l.Idle? || l.Peeked?
  }

  predicate LockFree(s: State) {
    s.writer == None && s.readers == {}
  }

  // ---- one step of each call ----------------------------------------------------------------

  function StepWrite(s: State, t: nat): State
    requires t < |s.threads|
  {
    match s.threads[t]
    case WriteCheck(d) => Put(s, t, if s.destroyed then Idle else WriteLock(d))
    case WriteLock(d) => if LockFree(s) then Put(s, t, WriteRecheck(d)).(writer := Some(t)) else s
    case WriteRecheck(d) => Put(s, t, if s.destroyed then Unlock else WriteNilCheck(d))
    case WriteNilCheck(d) => Put(s, t, if s.data.None? then Unlock else WriteFirst(d))
    case WriteFirst(d) =>
      // the first copy, to the end of the array at most
      if s.data.Some? && s.size > 0 && |s.data.value| == s.size then
        var tail := Tail(d, s.size);
        var at := Cell(s.writePos + |d| - |tail|, s.size);
        Put(s, t, WriteSecond(d, s.data.value)).(data := Some(Copied(s.data.value, at, tail)))
      else s
    case WriteSecond(d, was) =>
      // the second copy, from the start, when the first did not take it all
      if s.data.Some? && s.size > 0 && |s.data.value| == s.size then
        var tail := Tail(d, s.size);
        var n := Min(s.size - Cell(s.writePos + |d| - |tail|, s.size), |tail|);
        Put(s, t, WriteAdvance(d, was)).(data := if n < |tail| then Some(Copied(s.data.value, 0, tail[n..])) else s.data)
      else s
    case WriteAdvance(d, was) => Put(s, t, Unlock).(writePos := s.writePos + |d|, history := s.history + d)
    case _ => s
  }

  function StepPeek(s: State, t: nat): State
    requires t < |s.threads|
  {
    match s.threads[t]
    case PeekCheck(n) => Put(s, t, if s.destroyed then Peeked(n, None, None) else PeekNilCheck(n))
    case PeekNilCheck(n) => Put(s, t, if s.data.None? then Peeked(n, None, None) else PeekLock(n))
    case PeekLock(n) => if s.writer.None? then Put(s, t, PeekRecheck(n)).(readers := s.readers + {t}) else s
    case PeekRecheck(n) => Put(s, t, if s.destroyed then PeekUnlock(n, None, None) else PeekLoad(n))
    case PeekLoad(n) => Put(s, t, if s.writePos == 0 then PeekUnlock(n, None, Some(s.history)) else PeekFirst(n, s.writePos))
    case PeekFirst(n, pos) =>
      if s.data.Some? && s.size > 0 && |s.data.value| == s.size then
        var size := Min(Min(n, pos), s.size);
        var start := Cell(pos - size, s.size);
        Put(s, t, PeekSecond(n, pos, s.data.value[start..start + Min(s.size - start, size)]))
      else s
    case PeekSecond(n, pos, chunk) =>
      if s.data.Some? && s.size > 0 && |s.data.value| == s.size then
        var size := Min(Min(n, pos), s.size);
        var rest := size - Min(s.size - Cell(pos - size, s.size), size);
        Put(s, t, PeekUnlock(n, Some(chunk + s.data.value[..rest]), Some(s.history)))
      else s
    case PeekUnlock(n, result, seen) => Put(s, t, Peeked(n, result, seen)).(readers := s.readers - {t})
    case _ => s
  }

  function StepReset(s: State, t: nat): State
    requires t < |s.threads|
  {
    match s.threads[t]
    case ResetCheck => Put(s, t, if s.destroyed then Idle else ResetLock)
    case ResetLock => if LockFree(s) then Put(s, t, ResetRecheck).(writer := Some(t)) else s
    case ResetRecheck => Put(s, t, if s.destroyed then Unlock else ResetStore)
    case ResetStore => Put(s, t, Unlock).(writePos := 0, history := [])
    case _ => s
  }

  function StepDestroy(s: State, t: nat): State
    requires t < |s.threads|
  {
    match s.threads[t]
    case DestroySwap => if s.destroyed then Put(s, t, Idle) else Put(s, t, DestroyLock).(destroyed := true, destroyer := Some(t))
    case DestroyLock => if LockFree(s) then Put(s, t, DestroyRelease).(writer := Some(t)) else s
    case DestroyRelease =>
      if s.data.Some? then Put(s, t, DestroyStore).(data := None, releases := s.releases + 1) else Put(s, t, DestroyStore)
    case DestroyStore => Put(s, t, Unlock).(writePos := 0)
    case _ => s
  }

  function Step(s: State, t: nat): State
    requires t < |s.threads|
  {
    var l := s.threads[t];
    if l.Unlock? then Put(s, t, Idle).(writer := None)
    else if InWrite(l) then StepWrite(s, t)
    else if InPeek(l) then StepPeek(s, t)
    else if InReset(l) then StepReset(s, t)
    else StepDestroy(s, t)
  }

  predicate InWrite(l: Local) {
    l.WriteCheck? || l.WriteLock? || l.WriteRecheck? || l.WriteNilCheck? || l.WriteFirst? || l.WriteSecond? || l.WriteAdvance?
  }

  predicate InPeek(l: Local) {
    || l.PeekCheck? || l.PeekNilCheck? || l.PeekLock? || l.PeekRecheck? || l.PeekLoad? || l.PeekFirst? || l.PeekSecond?
    || l.PeekUnlock?
  }

  predicate InReset(l: Local) {
    l.ResetCheck? || l.ResetLock? || l.ResetRecheck? || l.ResetStore?
  }

  /** One event; a thread that is blocked, or not there, does nothing. */
  function Happen(s: State, ev: Event): State {
    match ev
    case Begin(t, call) => if t < |s.threads| && Between(s.threads[t]) then Put(s, t, Entry(call)) else s
    case Move(t) => if t < |s.threads| then Step(s, t) else s
  }

  function Run(s: State, events: seq<Event>): State {
    if events == [] then s else Happen(Run(s, events[..|events| - 1]), events[|events| - 1])
  }

  // ---- what every reachable state satisfies ---------------------------------------------------

  predicate Exclusive(l: Local) {
    || l.WriteRecheck? || l.WriteNilCheck? || l.WriteFirst? || l.WriteSecond? || l.WriteAdvance?
    || l.ResetRecheck? || l.ResetStore? || l.DestroyRelease? || l.DestroyStore? || l.Unlock?
  }

  predicate Shared(l: Local) {
    l.PeekRecheck? || l.PeekLoad? || l.PeekFirst? || l.PeekSecond? || l.PeekUnlock?
  }

  /** Past the second check, where the array is touched. */
  predicate Touching(l: Local) {
    l.WriteFirst? || l.WriteSecond? || l.WriteAdvance? || l.PeekLoad? || l.PeekFirst? || l.PeekSecond?
  }

  /** The lock is held by exactly the threads inside a section, and a writer is
      alone. */
  ghost predicate Locked(s: State) {
    && (forall t :: 0 <= t < |s.threads| ==> (Exclusive(s.threads[t]) <==> s.writer == Some(t)))
    && (forall t :: 0 <= t < |s.threads| ==> (Shared(s.threads[t]) <==> t in s.readers))
    && (s.writer.Some? ==> s.readers == {} && s.writer.value < |s.threads|)
    && (forall t :: t in s.readers ==> t < |s.threads|)
  }

  /** The array is released once at most, by the one thread that won the swap,
      and only after the swap. */
  ghost predicate Released(s: State) {
    && (s.destroyed <==> s.destroyer.Some?)
    && s.releases == (if s.data.Some? then 0 else 1)
    && (s.data.None? ==> s.destroyed)
    && (s.destroyed ==> s.destroyer.value < |s.threads|)
    && (forall t :: 0 <= t < |s.threads| && (s.threads[t].DestroyLock? || s.threads[t].DestroyRelease?) ==>
          s.destroyer == Some(t) && s.data.Some?)
    && (forall t :: 0 <= t < |s.threads| && s.threads[t].DestroyStore? ==> s.destroyer == Some(t) && s.data.None?)
    && (s.data.None? && !s.threads[s.destroyer.value].DestroyStore? ==> s.writePos == 0)
    && (forall t :: 0 <= t < |s.threads| && Touching(s.threads[t]) ==> s.data.Some?)
  }

  /** The array a write in progress started from. */
  ghost function Base(s: State): seq<byte>
    requires s.data.Some?
  {
    if s.writer.Some? && s.writer.value < |s.threads| then
      match s.threads[s.writer.value]
      case WriteSecond(_, was) => was
      case WriteAdvance(_, was) => was
      case _ => s.data.value
    else s.data.value
  }

  function FirstCopy(was: seq<byte>, pos: nat, d: seq<byte>): seq<byte>
    requires |was| > 0
  {
    var tail := Tail(d, |was|);
    Copied(was, Cell(pos + |d| - |tail|, |was|), tail)
  }

  /** While the array lives it holds the end of the history, a write in progress
      aside. */
  ghost predicate Holds(s: State) {
    && s.size > 0
    && (s.data.Some? ==>
          && |s.data.value| == s.size && |Base(s)| == s.size && s.writePos == |s.history| && Resident(Base(s), s.history)
          && (s.writer.Some? && s.writer.value < |s.threads| ==>
                match s.threads[s.writer.value]
                case WriteSecond(d, was) => s.data.value == FirstCopy(was, s.writePos, d)
                case WriteAdvance(d, was) => s.data.value == Bulk(was, s.writePos, d)
                case _ => true))
  }

  /** What a peek has read so far is what the history ends in. */
  ghost predicate PeekHolds(s: State, l: Local) {
    match l
    case PeekFirst(n, pos) => pos == s.writePos > 0
    case PeekSecond(n, pos, chunk) =>
      && pos == s.writePos > 0 && s.data.Some? && s.size > 0 && |s.data.value| == s.size
      && var size := Min(Min(n, pos), s.size);
         var start := Cell(pos - size, s.size);
         chunk == s.data.value[start..start + Min(s.size - start, size)]
    case PeekUnlock(n, result, seen) => PeekResult(s, n, result, seen)
    case Peeked(n, result, seen) => PeekResult(s, n, result, seen)
    case _ => true
  }

  /** A peek answers the end of the bytes written as of its locked section. It
      answers nothing when it read an empty history there, or when it left before
      reading, which it does in a destroyed buffer only. */
  ghost predicate PeekResult(s: State, n: nat, result: Option<seq<byte>>, seen: Option<seq<byte>>) {
    match seen
    case Some(history) =>
      if history == [] then result == None else result == Some(Last(Min(Min(n, |history|), s.size), history))
    case None => result == None && s.destroyed
  }

  ghost predicate Peeks(s: State) {
    forall t :: 0 <= t < |s.threads| ==> PeekHolds(s, s.threads[t])
  }

  ghost predicate Safe(s: State) {
    Locked(s) && Released(s) && Holds(s) && Peeks(s)
  }

  // ---- every step keeps it ------------------------------------------------------------------------

  /** A writer excludes every reader. */
  lemma WriterAlone(s: State, t: nat, u: nat)
    requires Locked(s) && t < |s.threads| && u < |s.threads| && Exclusive(s.threads[t])
    ensures !Shared(s.threads[u]) && (u != t ==> !Exclusive(s.threads[u]))
  {
  }

  lemma WriteKeepsLocked(s: State, t: nat)
    requires Safe(s) && t < |s.threads| && InWrite(s.threads[t])
    ensures Locked(StepWrite(s, t))
  {
    hide Released, Holds, Peeks, Cell, Tail, Copied;
  }

  lemma WriteKeepsReleased(s: State, t: nat)
    requires Safe(s) && t < |s.threads| && InWrite(s.threads[t])
    ensures Released(StepWrite(s, t))
  {
    hide Locked, Holds, Peeks, Cell, Tail, Copied;
  }

  lemma WriteKeepsHolds(s: State, t: nat)
    requires Safe(s) && t < |s.threads| && InWrite(s.threads[t])
    ensures Holds(StepWrite(s, t))
  {
    hide Released, Peeks, Cell, Tail, Copied, Resident, Bulk;
    if s.threads[t].WriteAdvance? {
      WriteAdvances(s, t);
    } else if s.threads[t].WriteSecond? {
      WriteCompletes(s, t);
    }
  }

  lemma TouchesLive(s: State, t: nat)
    requires Released(s) && t < |s.threads| && Touching(s.threads[t])
    ensures s.data.Some?
  {
  }

  lemma WriteCompletes(s: State, t: nat)
    requires Safe(s) && t < |s.threads| && s.threads[t].WriteSecond?
    ensures StepWrite(s, t).data == Some(Bulk(s.threads[t].was, s.writePos, s.threads[t].d))
    ensures StepWrite(s, t).threads == s.threads[t := WriteAdvance(s.threads[t].d, s.threads[t].was)]
  {
    hide Released, Peeks, Cell, Tail, Copied, Resident;
    TouchesLive(s, t);
  }

  lemma WriteAdvances(s: State, t: nat)
    requires Safe(s) && t < |s.threads| && s.threads[t].WriteAdvance?
    ensures Resident(s.data.value, s.history + s.threads[t].d)
  {
    hide Released, Peeks, Bulk, PutAll, Resident;
    TouchesLive(s, t);
    BulkIsPutAll(s.threads[t].was, s.writePos, s.threads[t].d);
    PutAllResident(s.threads[t].was, s.history, s.threads[t].d);
  }

  lemma WriteKeepsPeeks(s: State, t: nat)
    requires Safe(s) && t < |s.threads| && InWrite(s.threads[t])
    ensures Peeks(StepWrite(s, t))
  {
    hide Released, Holds, Cell, Tail, Copied, Last;
    var s' := StepWrite(s, t);
    forall u | 0 <= u < |s.threads|
      ensures PeekHolds(s', s'.threads[u])
    {
      if Exclusive(s.threads[t]) {
        WriterAlone(s, t, u);
      }
      assert PeekHolds(s, s.threads[u]);
    }
  }

  lemma PeekKeepsLocked(s: State, t: nat)
    requires Safe(s) && t < |s.threads| && InPeek(s.threads[t])
    ensures Locked(StepPeek(s, t))
  {
    hide Released, Holds, Peeks, Cell, Last;
  }

  lemma PeekKeepsReleased(s: State, t: nat)
    requires Safe(s) && t < |s.threads| && InPeek(s.threads[t])
    ensures Released(StepPeek(s, t))
  {
    hide Locked, Holds, Peeks, Cell, Last;
  }

  lemma PeekKeepsHolds(s: State, t: nat)
    requires Safe(s) && t < |s.threads| && InPeek(s.threads[t])
    ensures Holds(StepPeek(s, t))
  {
    hide Released, Peeks, Cell, Tail, Copied, Resident, Bulk;
  }

  /** What a thread holds does not change while the array, the position and the
      flag do not. */
  lemma HeldAlike(s: State, s': State, l: Local)
    requires s'.size == s.size && s'.data == s.data && s'.writePos == s.writePos && (s.destroyed ==> s'.destroyed)
    requires PeekHolds(s, l)
    ensures PeekHolds(s', l)
  {
    hide Cell, Last;
  }

  lemma PeekReads(s: State, t: nat)
    requires Safe(s) && t < |s.threads| && s.threads[t].PeekSecond?
    ensures PeekHolds(StepPeek(s, t), StepPeek(s, t).threads[t])
  {
    hide Released, Resident, Bulk, Cell;
    assert PeekHolds(s, s.threads[t]);
    var n, pos := s.threads[t].n, s.threads[t].pos;
    var size := Min(Min(n, pos), s.size);
    assert s.writer.None?;
    ReadBackIsLast(s.data.value, s.history, size);
  }

  lemma PeekLoads(s: State, t: nat)
    requires Safe(s) && t < |s.threads| && s.threads[t].PeekLoad?
    ensures PeekHolds(StepPeek(s, t), StepPeek(s, t).threads[t])
  {
    hide Locked, Released, Holds, Peeks, Cell, Last;
    EmptyHistory(s, t);
  }

  lemma PeekAdvances(s: State, t: nat)
    requires Safe(s) && t < |s.threads| && InPeek(s.threads[t])
    ensures PeekHolds(StepPeek(s, t), StepPeek(s, t).threads[t])
  {
    hide Locked, Holds, Cell, Last;
    if s.threads[t].PeekSecond? {
      PeekReads(s, t);
    } else if s.threads[t].PeekLoad? {
      PeekLoads(s, t);
    } else {
      assert PeekHolds(s, s.threads[t]);
    }
  }

  lemma PeekKeepsPeeks(s: State, t: nat)
    requires Safe(s) && t < |s.threads| && InPeek(s.threads[t])
    ensures Peeks(StepPeek(s, t))
  {
    hide Locked, Released, Holds, Cell, PeekHolds;
    var s' := StepPeek(s, t);
    PeekAdvances(s, t);
    forall u | 0 <= u < |s.threads|
      ensures PeekHolds(s', s'.threads[u])
    {
      if u != t {
        HeldAlike(s, s', s.threads[u]);
      }
    }
  }

  lemma EmptyHistory(s: State, t: nat)
    requires Safe(s) && t < |s.threads| && s.threads[t].PeekLoad?
    ensures s.data.Some? && (s.writePos == 0 <==> s.history == [])
  {
    hide Peeks, Resident;
  }

  lemma ResetKeepsLocked(s: State, t: nat)
    requires Safe(s) && t < |s.threads| && InReset(s.threads[t])
    ensures Locked(StepReset(s, t))
  {
    hide Released, Holds, Peeks;
  }

  lemma ResetKeepsReleased(s: State, t: nat)
    requires Safe(s) && t < |s.threads| && InReset(s.threads[t])
    ensures Released(StepReset(s, t))
  {
    hide Locked, Holds, Peeks;
  }

  lemma ResetKeepsHolds(s: State, t: nat)
    requires Safe(s) && t < |s.threads| && InReset(s.threads[t])
    ensures Holds(StepReset(s, t))
  {
    hide Released, Peeks, Cell, Tail, Copied, Bulk;
  }

  lemma ResetKeepsPeeks(s: State, t: nat)
    requires Safe(s) && t < |s.threads| && InReset(s.threads[t])
    ensures Peeks(StepReset(s, t))
  {
    hide Released, Holds, Cell, Last;
    var s' := StepReset(s, t);
    forall u | 0 <= u < |s.threads|
      ensures PeekHolds(s', s'.threads[u])
    {
      if Exclusive(s.threads[t]) {
        WriterAlone(s, t, u);
      }
      assert PeekHolds(s, s.threads[u]);
    }
  }

  predicate InDestroy(l: Local) {
    l.DestroySwap? || l.DestroyLock? || l.DestroyRelease? || l.DestroyStore?
  }

  lemma DestroyKeepsLocked(s: State, t: nat)
    requires Safe(s) && t < |s.threads| && InDestroy(s.threads[t])
    ensures Locked(StepDestroy(s, t))
  {
    hide Released, Holds, Peeks;
  }

  lemma DestroyKeepsReleased(s: State, t: nat)
    requires Safe(s) && t < |s.threads| && InDestroy(s.threads[t])
    ensures Released(StepDestroy(s, t))
  {
    hide Holds, Peeks;
    if Exclusive(s.threads[t]) {
      forall u | 0 <= u < |s.threads|
        ensures u != t ==> !Shared(s.threads[u]) && !Exclusive(s.threads[u])
      {
        WriterAlone(s, t, u);
      }
    }
  }

  lemma DestroyKeepsHolds(s: State, t: nat)
    requires Safe(s) && t < |s.threads| && InDestroy(s.threads[t])
    ensures Holds(StepDestroy(s, t))
  {
    hide Peeks, Cell, Tail, Copied, Resident, Bulk;
  }

  lemma DestroyKeepsPeeks(s: State, t: nat)
    requires Safe(s) && t < |s.threads| && InDestroy(s.threads[t])
    ensures Peeks(StepDestroy(s, t))
  {
    hide Released, Holds, Cell, Last;
    var s' := StepDestroy(s, t);
    forall u | 0 <= u < |s.threads|
      ensures PeekHolds(s', s'.threads[u])
    {
      if Exclusive(s.threads[t]) {
        WriterAlone(s, t, u);
      }
      assert PeekHolds(s, s.threads[u]);
    }
  }

  /** Leaving an exclusive section, and starting a call, touch nothing. */
  lemma LeavingKeepsSafe(s: State, t: nat)
    requires Safe(s) && t < |s.threads| && s.threads[t].Unlock?
    ensures Safe(Put(s, t, Idle).(writer := None))
  {
    hide Cell, Tail, Copied, Bulk, Last, Resident;
    var s' := Put(s, t, Idle).(writer := None);
    forall u | 0 <= u < |s.threads|
      ensures PeekHolds(s', s'.threads[u])
    {
      assert PeekHolds(s, s.threads[u]);
    }
  }

  lemma BeginningKeepsSafe(s: State, t: nat, call: Call)
    requires Safe(s) && t < |s.threads| && Between(s.threads[t])
    ensures Safe(Put(s, t, Entry(call)))
  {
    hide Resident, PeekHolds, Bulk, Tail, Copied, Cell;
    var s' := Put(s, t, Entry(call));
    forall u | 0 <= u < |s.threads|
      ensures PeekHolds(s', s'.threads[u])
    {
      if u != t {
        HeldAlike(s, s', s.threads[u]);
      } else {
        EntryHolds(s', call);
      }
    }
  }

  lemma EntryHolds(s: State, call: Call)
    ensures PeekHolds(s, Entry(call))
  {
  }

  lemma StepKeepsSafe(s: State, t: nat)
    requires Safe(s) && t < |s.threads|
    ensures Safe(Step(s, t))
  {
    hide Safe, Locked, Released, Holds, Peeks, StepWrite, StepPeek, StepReset, StepDestroy;
    var l := s.threads[t];
    if l.Unlock? {
      LeavingKeepsSafe(s, t);
    } else if InWrite(l) {
      WriteKeepsLocked(s, t);
      WriteKeepsReleased(s, t);
      WriteKeepsHolds(s, t);
      WriteKeepsPeeks(s, t);
      AllKept(StepWrite(s, t));
    } else if InPeek(l) {
      PeekKeepsLocked(s, t);
      PeekKeepsReleased(s, t);
      PeekKeepsHolds(s, t);
      PeekKeepsPeeks(s, t);
      AllKept(StepPeek(s, t));
    } else if InReset(l) {
      ResetKeepsLocked(s, t);
      ResetKeepsReleased(s, t);
      ResetKeepsHolds(s, t);
      ResetKeepsPeeks(s, t);
      AllKept(StepReset(s, t));
    } else if InDestroy(l) {
      DestroyKeepsLocked(s, t);
      DestroyKeepsReleased(s, t);
      DestroyKeepsHolds(s, t);
      DestroyKeepsPeeks(s, t);
      AllKept(StepDestroy(s, t));
    } else {
      NothingToDo(s, t);
    }
  }

  lemma AllKept(s: State)
    requires Locked(s) && Released(s) && Holds(s) && Peeks(s)
    ensures Safe(s)
  {
  }

  lemma NothingToDo(s: State, t: nat)
    requires t < |s.threads| && !InDestroy(s.threads[t])
    ensures StepDestroy(s, t) == s
  {
  }

  lemma InitialIsSafe(size: nat, n: nat)
    requires size > 0
    ensures Safe(Initial(size, n))
  {
  }

  /** Every interleaving of any calls by any number of threads. */
  lemma {:induction false} EveryRunIsSafe(size: nat, n: nat, events: seq<Event>)
    requires size > 0
    ensures Safe(Run(Initial(size, n), events))
  {
    hide Safe, Step;
    if events == [] {
      InitialIsSafe(size, n);
    } else {
      var k := |events| - 1;
      EveryRunIsSafe(size, n, events[..k]);
      var s := Run(Initial(size, n), events[..k]);
      match events[k]
      case Begin(t, call) =>
        if t < |s.threads| && Between(s.threads[t]) {
          BeginningKeepsSafe(s, t, call);
        }
      case Move(t) =>
        if t < |s.threads| {
          StepKeepsSafe(s, t);
        }
    }
  }

  // ---- what that guarantees --------------------------------------------------------------------------

  /** In every interleaving: no thread past its second check touches a released
      array, the array is released at most once and only after the flag is set,
      the write position is 0 once the release is complete, and every completed
      peek answered the end of the bytes written as of its locked section. */
  lemma EveryRunGuarantees(size: nat, n: nat, events: seq<Event>)
    requires size > 0
    ensures var s := Run(Initial(size, n), events);
            && (forall t :: 0 <= t < |s.threads| && Touching(s.threads[t]) ==> s.data.Some?)
            && s.releases <= 1 && (s.releases == 1 <==> s.data.None?) && (s.data.None? ==> s.destroyed)
            && (s.data.None? && (forall t :: 0 <= t < |s.threads| ==> !s.threads[t].DestroyStore?) ==> s.writePos == 0)
            && (forall t :: 0 <= t < |s.threads| && s.threads[t].Peeked? ==>
                  PeekResult(s, s.threads[t].n, s.threads[t].result, s.threads[t].seen))
  {
    hide Locked, Holds, PeekResult, Step, Run;
    EveryRunIsSafe(size, n, events);
    var s := Run(Initial(size, n), events);
    forall t | 0 <= t < |s.threads| && s.threads[t].Peeked?
      ensures PeekResult(s, s.threads[t].n, s.threads[t].result, s.threads[t].seen)
    {
      assert PeekHolds(s, s.threads[t]);
    }
  }

  /** Once set, the flag is never cleared. */
  lemma DestroyedForGood(s: State, ev: Event)
    requires s.destroyed
    ensures Happen(s, ev).destroyed
  {
    hide Cell, Tail, Copied;
  }

  /** Where a call ends that begins after the flag is set: a peek with nothing,
      any other without a trace. */
  function Turned(call: Call): Local {
    if call.CallPeek? then Peeked(call.n, None, None) else Idle
  }

  /** Its only step changes nothing but the thread's own place: not the history,
      not the array, not the position, not the lock. */
  lemma TurnedAway(s: State, t: nat, call: Call)
    requires s.destroyed && t < |s.threads| && s.threads[t] == Entry(call)
    ensures Happen(s, Move(t)) == Put(s, t, Turned(call))
  {
    hide Cell, Tail, Copied;
  }

  lemma OthersStay(s: State, ev: Event, t: nat)
    requires t < |s.threads| && ev.t != t
    ensures |Happen(s, ev).threads| == |s.threads| && Happen(s, ev).threads[t] == s.threads[t]
  {
    hide StepWrite, StepPeek, StepReset, StepDestroy, Entry;
    if ev.Move? && ev.t < |s.threads| {
      WriterMoves(s, ev.t, t);
      PeekerMoves(s, ev.t, t);
      ResetterMoves(s, ev.t, t);
      DestroyerMoves(s, ev.t, t);
    }
  }

  lemma WriterMoves(s: State, u: nat, t: nat)
    requires u < |s.threads| && t < |s.threads| && u != t
    ensures |StepWrite(s, u).threads| == |s.threads| && StepWrite(s, u).threads[t] == s.threads[t]
  {
    hide Cell, Tail, Copied;
  }

  lemma PeekerMoves(s: State, u: nat, t: nat)
    requires u < |s.threads| && t < |s.threads| && u != t
    ensures |StepPeek(s, u).threads| == |s.threads| && StepPeek(s, u).threads[t] == s.threads[t]
  {
    hide Cell, Tail, Copied;
  }

  lemma ResetterMoves(s: State, u: nat, t: nat)
    requires u < |s.threads| && t < |s.threads| && u != t
    ensures |StepReset(s, u).threads| == |s.threads| && StepReset(s, u).threads[t] == s.threads[t]
  {
  }

  lemma DestroyerMoves(s: State, u: nat, t: nat)
    requires u < |s.threads| && t < |s.threads| && u != t
    ensures |StepDestroy(s, u).threads| == |s.threads| && StepDestroy(s, u).threads[t] == s.threads[t]
  {
  }

  /** In every interleaving such a call gets no further, whatever the others do:
      it is where it began until its thread moves, and turned away from then on. */
  lemma {:induction false} CallAfterDestroy(s: State, t: nat, call: Call, events: seq<Event>)
    requires s.destroyed && t < |s.threads| && s.threads[t] == Entry(call)
    requires forall i :: 0 <= i < |events| && events[i].t == t ==> events[i].Move?
    ensures var s' := Run(s, events);
            && s'.destroyed && |s'.threads| == |s.threads|
            && s'.threads[t] == if Move(t) in events then Turned(call) else Entry(call)
  {
    hide Step, Happen;
    if events != [] {
      var n := |events| - 1;
      CallAfterDestroy(s, t, call, events[..n]);
      var before := Run(s, events[..n]);
      assert events == events[..n] + [events[n]];
      DestroyedForGood(before, events[n]);
      if events[n].t != t {
        OthersStay(before, events[n], t);
      } else if before.threads[t] == Entry(call) {
        TurnedAway(before, t, call);
      } else {
        TurnedStays(before, t, call);
      }
    }
  }

  lemma TurnedStays(s: State, t: nat, call: Call)
    requires t < |s.threads| && s.threads[t] == Turned(call)
    ensures Happen(s, Move(t)) == s
  {
    hide Cell, Tail, Copied;
  }

  /** No interleaving is stuck: while a call is in progress some thread can move. */
  lemma SomeoneCanMove(s: State, t: nat) returns (u: nat)
    requires Safe(s) && t < |s.threads| && !Between(s.threads[t])
    ensures u < |s.threads| && Step(s, u) != s
  {
    hide Peeks, Cell, Copied, Tail, Resident, Bulk;
    if s.writer.Some? {
      u := s.writer.value;
    } else if s.readers != {} {
      u :| u in s.readers;
    } else {
      u := t;
    }
    MovesOn(s, u);
  }

  lemma MovesOn(s: State, u: nat)
    requires Safe(s) && u < |s.threads| && !Between(s.threads[u])
    requires Exclusive(s.threads[u]) || Shared(s.threads[u]) || LockFree(s)
    ensures Step(s, u).threads[u] != s.threads[u]
  {
    hide Peeks, Locked, Cell, Copied, Tail, Resident, Bulk;
    if Touching(s.threads[u]) {
      TouchesLive(s, u);
    }
  }
}
