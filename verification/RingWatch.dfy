/** The ring buffer's interleaved calls as an onlooker sees them, who knows which
    calls began and sees the lock and the flag, and nothing of the steps. */
module RingWatch {
  import opened Text
  import RingBuffers
  import opened RingProtocol

  /** The call each thread is in or ended last; whether the flag was clear when the
      thread in the exclusive section looked, None before it has; what the
      finished writes have put in since the last finished reset; the threads whose
      call has put in or emptied; and what had been put in when a peek took the
      lock. */
  datatype Watch = Watch(
    calls: map<nat, Call>,
    clear: Option<bool>,
    said: seq<RingBuffers.byte>,
    spoke: set<nat>,
    heard: map<nat, seq<RingBuffers.byte>>)

  const NOTHING := Watch(map[], None, [], {}, map[])

  /** A section that found the flag clear counts when its lock is released. */
  function Spoken(w: Watch, t: nat): Watch {
    if w.clear != Some(true) || t !in w.calls then w
    else match w.calls[t]
      case CallWrite(d) => w.(said := w.said + d, spoke := w.spoke + {t})
      case CallReset => w.(said := [], spoke := w.spoke + {t})
      case _ => w
  }

  function Watched(w: Watch, before: State, ev: Event, after: State): Watch {
    match ev
    case Begin(t, call) =>
      if t < |before.threads| && Between(before.threads[t])
      then w.(calls := w.calls[t := call], spoke := w.spoke - {t}, heard := w.heard - {t})
      else w
    case Move(t) =>
      if before.writer != Some(t) && after.writer == Some(t) then w.(clear := None)
      else if before.writer == Some(t) && after.writer != Some(t) then Spoken(w, t)
      else if before.writer == Some(t) && w.clear.None? then w.(clear := Some(!before.destroyed))
      else if t !in before.readers && t in after.readers then w.(heard := w.heard[t := w.said])
      else w
  }

  function WatchOf(s: State, events: seq<Event>): Watch {
    if events == [] then NOTHING
    else
      var n := |events| - 1;
      Watched(WatchOf(s, events[..n]), Run(s, events[..n]), events[n], Run(s, events))
  }

  /** The end of what was heard, as much as was asked for and is still held. */
  function Answer(heard: seq<RingBuffers.byte>, n: nat, size: nat): Option<seq<RingBuffers.byte>> {
    if heard == [] then None
    else
      var k := if n <= |heard| && n <= size then n else if |heard| <= size then |heard| else size;
      Some(heard[|heard| - k..])
  }

  // ---- what ties the steps to the calls -------------------------------------------------------

  /** The call a place in the code belongs to. */
  predicate Belongs(l: Local, call: Call) {
    match call
    case CallWrite(d) => l.Idle? || l.Unlock? || (InWrite(l) && l.d == d)
    case CallPeek(n) => (InPeek(l) || l.Peeked?) && l.n == n
    case CallReset => l.Idle? || l.Unlock? || InReset(l)
    case CallDestroy => l.Idle? || l.Unlock? || InDestroy(l)
  }

  /** Inside the exclusive section: what has been looked at and what is done. */
  predicate Writing(history: seq<RingBuffers.byte>, destroyed: bool, w: Watch, l: Local, call: Call) {
    if l.WriteRecheck? || l.ResetRecheck? then w.clear.None? && history == w.said
    else if l.DestroyRelease? then w.clear.None? && destroyed && history == w.said
    else if l.DestroyStore? then w.clear == Some(false) && destroyed && history == w.said
    else if l.Unlock? then
      && w.clear.Some?
      && (!w.clear.value ==> destroyed && history == w.said)
      && (w.clear.value ==> (call.CallWrite? && history == w.said + call.d) || (call.CallReset? && history == []))
    else w.clear == Some(true) && history == w.said
  }

  /** Outside it: a call that is over has spoken, or found a destroyed buffer. */
  predicate Resting(destroyed: bool, spoke: bool, l: Local, call: Call) {
    && (l.Idle? && (call.CallWrite? || call.CallReset?) ==> spoke || destroyed)
    && ((l.Idle? && call.CallDestroy?) || l.DestroyLock? ==> destroyed)
  }

  /** A reader has heard what is said, and one that has read keeps what it heard. */
  predicate Hearing(history: seq<RingBuffers.byte>, w: Watch, t: nat, l: Local) {
    && (Shared(l) ==> t in w.heard && w.heard[t] == history)
    && ((l.PeekUnlock? || l.Peeked?) && l.seen.Some? ==> t in w.heard && l.seen.value == w.heard[t])
  }

  predicate Tells(history: seq<RingBuffers.byte>, destroyed: bool, w: Watch, t: nat, l: Local) {
    && (t !in w.calls ==> l.Idle?)
    && (t in w.calls ==>
          && Belongs(l, w.calls[t]) && Resting(destroyed, t in w.spoke, l, w.calls[t])
          && (Exclusive(l) ==> Writing(history, destroyed, w, l, w.calls[t])))
    && Hearing(history, w, t, l)
  }

  ghost predicate Told(s: State, w: Watch) {
    && (forall t :: 0 <= t < |s.threads| ==> Tells(s.history, s.destroyed, w, t, s.threads[t]))
    && (forall t :: 0 <= t < |s.threads| && s.threads[t].WriteNilCheck? ==> s.data.Some?)
    && (s.writer.None? ==> s.history == w.said)
  }

  /** What another thread tells stays, as long as what it looks at does. */
  lemma OthersTell(h: seq<RingBuffers.byte>, h': seq<RingBuffers.byte>, d: bool, d': bool, w: Watch, w': Watch, t: nat, l: Local)
    requires Tells(h, d, w, t, l) && (d ==> d')
    requires t in w.calls <==> t in w'.calls
    requires t in w.calls ==> w'.calls[t] == w.calls[t]
    requires t in w.spoke ==> t in w'.spoke
    requires t in w.heard ==> t in w'.heard && w'.heard[t] == w.heard[t]
    requires Exclusive(l) ==> h' == h && w'.said == w.said && w'.clear == w.clear
    requires Shared(l) ==> h' == h
    ensures Tells(h', d', w', t, l)
  {
    hide Belongs;
  }

  // ---- each step ------------------------------------------------------------------------------

  /** What a step does to the lock, the flag and the history, by the place it
      starts from. */
  lemma WriteEffect(s: State, t: nat)
    requires Locked(s) && t < |s.threads| && InWrite(s.threads[t])
    ensures var s', l := StepWrite(s, t), s.threads[t];
            && s'.destroyed == s.destroyed && s'.readers == s.readers && s'.size == s.size
            && s'.writer == (if l.WriteLock? && LockFree(s) then Some(t) else s.writer)
            && s'.history == (if l.WriteAdvance? then s.history + l.d else s.history)
  {
    hide RingBuffers.Cell, RingBuffers.Tail, RingBuffers.Copied;
  }

  lemma WritePlace(s: State, t: nat)
    requires Safe(s) && t < |s.threads| && InWrite(s.threads[t]) && (s.threads[t].WriteNilCheck? ==> s.data.Some?)
    ensures StepWrite(s, t).threads == s.threads[t :=
              var l := s.threads[t];
              match l
              case WriteCheck(d) => if s.destroyed then Idle else WriteLock(d)
              case WriteLock(d) => if LockFree(s) then WriteRecheck(d) else l
              case WriteRecheck(d) => if s.destroyed then Unlock else WriteNilCheck(d)
              case WriteNilCheck(d) => WriteFirst(d)
              case WriteFirst(d) => WriteSecond(d, s.data.value)
              case WriteSecond(d, was) => WriteAdvance(d, was)
              case _ => Unlock]
    ensures StepWrite(s, t).data.Some? == s.data.Some?
  {
    hide Peeks, RingBuffers.Cell, RingBuffers.Tail, RingBuffers.Copied, RingBuffers.Resident, RingBuffers.Bulk, FirstCopy;
    if Touching(s.threads[t]) {
      TouchesLive(s, t);
    }
  }

  lemma PeekEffect(s: State, t: nat)
    requires Locked(s) && t < |s.threads| && InPeek(s.threads[t])
    ensures var s', l := StepPeek(s, t), s.threads[t];
            && s'.destroyed == s.destroyed && s'.writer == s.writer && s'.size == s.size && s'.history == s.history
            && s'.data == s.data
            && s'.readers == (if l.PeekLock? && s.writer.None? then s.readers + {t}
                              else if l.PeekUnlock? then s.readers - {t} else s.readers)
            && |s'.threads| == |s.threads| && s'.threads == s.threads[t := s'.threads[t]]
            && (InPeek(s'.threads[t]) || s'.threads[t].Peeked?) && s'.threads[t].n == l.n
            && (l.PeekLock? && s.writer.None? ==> Shared(s'.threads[t]))
            && (Shared(s'.threads[t]) ==> Shared(l) || (l.PeekLock? && s.writer.None?))
  {
    hide RingBuffers.Cell;
  }

  lemma PeekSees(s: State, t: nat)
    requires t < |s.threads| && InPeek(s.threads[t])
    ensures var l, l' := s.threads[t], StepPeek(s, t).threads[t];
            (l'.PeekUnlock? || l'.Peeked?) && l'.seen.Some? ==>
              if l.PeekUnlock? then l'.seen == l.seen else Shared(l) && l'.seen.value == s.history
  {
    hide RingBuffers.Cell;
  }

  lemma ResetEffect(s: State, t: nat)
    requires t < |s.threads| && InReset(s.threads[t])
    ensures var s', l := StepReset(s, t), s.threads[t];
            && s'.destroyed == s.destroyed && s'.readers == s.readers && s'.size == s.size && s'.data == s.data
            && s'.writer == (if l.ResetLock? && LockFree(s) then Some(t) else s.writer)
            && s'.history == (if l.ResetStore? then [] else s.history)
            && s'.threads == s.threads[t :=
                 match l
                 case ResetCheck => if s.destroyed then Idle else ResetLock
                 case ResetLock => if LockFree(s) then ResetRecheck else l
                 case ResetRecheck => if s.destroyed then Unlock else ResetStore
                 case _ => Unlock]
  {
  }

  lemma DestroyEffect(s: State, t: nat)
    requires t < |s.threads| && InDestroy(s.threads[t])
    ensures var s', l := StepDestroy(s, t), s.threads[t];
            && s'.destroyed == (s.destroyed || l.DestroySwap?) && s'.readers == s.readers && s'.size == s.size
            && s'.writer == (if l.DestroyLock? && LockFree(s) then Some(t) else s.writer)
            && s'.history == s.history && (!l.DestroyRelease? ==> s'.data == s.data)
            && s'.threads == s.threads[t :=
                 match l
                 case DestroySwap => if s.destroyed then Idle else DestroyLock
                 case DestroyLock => if LockFree(s) then DestroyRelease else l
                 case DestroyRelease => DestroyStore
                 case _ => Unlock]
  {
  }

  /** A thread that steps by itself, and what the others tell about it. */
  lemma StepTells(s: State, s': State, w: Watch, w': Watch, t: nat)
    requires Locked(s) && Told(s, w) && t < |s.threads| && |s'.threads| == |s.threads|
    requires s'.threads == s.threads[t := s'.threads[t]] && (s.destroyed ==> s'.destroyed)
    requires w'.calls == w.calls && w.spoke <= w'.spoke
    requires forall u :: u in w.heard && u != t ==> u in w'.heard && w'.heard[u] == w.heard[u]
    requires s.writer == Some(t) || s'.history == s.history
    requires s.writer == Some(t) || LockFree(s) || (w'.said == w.said && w'.clear == w.clear)
    requires Tells(s'.history, s'.destroyed, w', t, s'.threads[t])
    requires s'.writer.None? ==> s'.history == w'.said
    requires s'.threads[t].WriteNilCheck? ==> s'.data.Some?
    requires s.writer == Some(t) || s'.data.Some? == s.data.Some?
    ensures Told(s', w')
  {
    hide Tells, Belongs, LockFree;
    forall u | 0 <= u < |s'.threads|
      ensures Tells(s'.history, s'.destroyed, w', u, s'.threads[u])
    {
      if u != t {
        assert Tells(s.history, s.destroyed, w, u, s.threads[u]);
        if s.writer == Some(t) {
          WriterAlone(s, t, u);
        } else if LockFree(s) {
          NobodyInside(s, u);
        }
        OthersTell(s.history, s'.history, s.destroyed, s'.destroyed, w, w', u, s.threads[u]);
      }
    }
    forall u | 0 <= u < |s'.threads| && s'.threads[u].WriteNilCheck?
      ensures s'.data.Some?
    {
      if u != t && s.writer == Some(t) {
        WriterAlone(s, t, u);
      }
    }
  }

  lemma NobodyInside(s: State, u: nat)
    requires Locked(s) && LockFree(s) && u < |s.threads|
    ensures !Exclusive(s.threads[u]) && !Shared(s.threads[u])
  {
  }

  lemma OwnTelling(s: State, w: Watch, t: nat)
    requires Told(s, w) && t < |s.threads|
    ensures Tells(s.history, s.destroyed, w, t, s.threads[t])
    ensures s.threads[t].WriteNilCheck? ==> s.data.Some?
    ensures s.writer.None? ==> s.history == w.said
  {
  }

  lemma HoldsLock(s: State, t: nat)
    requires Locked(s) && t < |s.threads|
    ensures Exclusive(s.threads[t]) <==> s.writer == Some(t)
    ensures Shared(s.threads[t]) <==> t in s.readers
    ensures s.readers != {} ==> s.writer.None?
  {
  }

  lemma ClearMeansData(s: State)
    requires Safe(s) && !s.destroyed
    ensures s.data.Some?
  {
    hide Locked, Holds, Peeks;
  }

  lemma WriteTells(s: State, w: Watch, t: nat)
    requires Safe(s) && Told(s, w) && t < |s.threads| && InWrite(s.threads[t])
    ensures Told(StepWrite(s, t), Watched(w, s, Move(t), StepWrite(s, t)))
  {
    hide Locked, Released, Holds, Peeks, StepWrite, Told, Spoken;
    var s' := StepWrite(s, t);
    OwnTelling(s, w, t);
    WriteEffect(s, t);
    WritePlace(s, t);
    HoldsLock(s, t);
    if !s.destroyed {
      ClearMeansData(s);
    }
    StepTells(s, s', w, Watched(w, s, Move(t), s'), t);
  }

  lemma PeekTells(s: State, w: Watch, t: nat)
    requires Safe(s) && Told(s, w) && t < |s.threads| && InPeek(s.threads[t])
    ensures Told(StepPeek(s, t), Watched(w, s, Move(t), StepPeek(s, t)))
  {
    hide Locked, Released, Holds, Peeks, StepPeek, Told, Spoken;
    var s' := StepPeek(s, t);
    OwnTelling(s, w, t);
    PeekEffect(s, t);
    PeekSees(s, t);
    HoldsLock(s, t);
    StepTells(s, s', w, Watched(w, s, Move(t), s'), t);
  }

  lemma ResetWatched(s: State, w: Watch, t: nat)
    requires Safe(s) && t < |s.threads| && InReset(s.threads[t])
    ensures Watched(w, s, Move(t), StepReset(s, t))
            == if s.threads[t].ResetLock? && LockFree(s) then w.(clear := None)
               else if Exclusive(s.threads[t]) && w.clear.None? then w.(clear := Some(!s.destroyed))
               else w
  {
    hide Locked, Released, Holds, Peeks, Spoken, StepReset;
    ResetEffect(s, t);
    HoldsLock(s, t);
  }

  /** A reset's own places, one by one. */
  lemma ResetPlaces(h: seq<RingBuffers.byte>, d: bool, w: Watch, t: nat, l: Local)
    requires InReset(l) && Tells(h, d, w, t, l)
    ensures l.ResetCheck? ==> Tells(h, d, w, t, if d then Idle else ResetLock)
    ensures l.ResetLock? && h == w.said ==> Tells(h, d, w.(clear := None), t, ResetRecheck)
    ensures l.ResetRecheck? ==> w.clear.None? && Tells(h, d, w.(clear := Some(!d)), t, if d then Unlock else ResetStore)
    ensures l.ResetStore? ==> w.clear.Some? && Tells([], d, w, t, Unlock)
  {
    assert t in w.calls && w.calls[t] == CallReset;
  }

  lemma ResetOwn(s: State, w: Watch, t: nat)
    requires t < |s.threads| && InReset(s.threads[t]) && Tells(s.history, s.destroyed, w, t, s.threads[t])
    requires s.threads[t].ResetLock? && LockFree(s) ==> s.history == w.said
    ensures var w' := if s.threads[t].ResetLock? && LockFree(s) then w.(clear := None)
                      else if Exclusive(s.threads[t]) && w.clear.None? then w.(clear := Some(!s.destroyed))
                      else w;
            Tells(StepReset(s, t).history, StepReset(s, t).destroyed, w', t, StepReset(s, t).threads[t])
  {
    hide StepReset, LockFree, Tells;
    ResetEffect(s, t);
    ResetPlaces(s.history, s.destroyed, w, t, s.threads[t]);
  }

  lemma ResetTells(s: State, w: Watch, t: nat)
    requires Safe(s) && Told(s, w) && t < |s.threads| && InReset(s.threads[t])
    ensures Told(StepReset(s, t), Watched(w, s, Move(t), StepReset(s, t)))
  {
    hide Locked, Released, Holds, Peeks, StepReset, Told, Tells, Watched;
    OwnTelling(s, w, t);
    ResetEffect(s, t);
    HoldsLock(s, t);
    ResetWatched(s, w, t);
    ResetOwn(s, w, t);
    StepTells(s, StepReset(s, t), w, Watched(w, s, Move(t), StepReset(s, t)), t);
  }

  lemma DestroyTells(s: State, w: Watch, t: nat)
    requires Safe(s) && Told(s, w) && t < |s.threads| && InDestroy(s.threads[t])
    ensures Told(StepDestroy(s, t), Watched(w, s, Move(t), StepDestroy(s, t)))
  {
    hide Locked, Released, Holds, Peeks, StepDestroy, Told, Spoken;
    var s' := StepDestroy(s, t);
    OwnTelling(s, w, t);
    DestroyEffect(s, t);
    HoldsLock(s, t);
    StepTells(s, s', w, Watched(w, s, Move(t), s'), t);
  }

  /** The lock is released: what the section did is said. */
  lemma UnlockTells(s: State, w: Watch, t: nat)
    requires Safe(s) && Told(s, w) && t < |s.threads| && s.threads[t].Unlock?
    ensures Told(Put(s, t, Idle).(writer := None), Watched(w, s, Move(t), Put(s, t, Idle).(writer := None)))
  {
    hide Locked, Released, Holds, Peeks, Told;
    var s' := Put(s, t, Idle).(writer := None);
    OwnTelling(s, w, t);
    HoldsLock(s, t);
    StepTells(s, s', w, Watched(w, s, Move(t), s'), t);
  }

  lemma BeginTells(s: State, w: Watch, t: nat, call: Call)
    requires Safe(s) && Told(s, w) && t < |s.threads| && Between(s.threads[t])
    ensures Told(Put(s, t, Entry(call)), Watched(w, s, Begin(t, call), Put(s, t, Entry(call))))
  {
    var s', w' := Put(s, t, Entry(call)), Watched(w, s, Begin(t, call), Put(s, t, Entry(call)));
    EntryTells(s, w', t, call);
    assert !Entry(call).WriteNilCheck?;
    hide Safe, Tells, Entry;
    forall u | 0 <= u < |s'.threads|
      ensures Tells(s'.history, s'.destroyed, w', u, s'.threads[u])
    {
      assert Tells(s.history, s.destroyed, w, u, s.threads[u]);
      if u != t {
        OthersTell(s.history, s.history, s.destroyed, s.destroyed, w, w', u, s.threads[u]);
      }
    }
  }

  lemma EntryTells(s: State, w: Watch, t: nat, call: Call)
    requires t in w.calls && w.calls[t] == call
    ensures Tells(s.history, s.destroyed, w, t, Entry(call))
  {
  }

  lemma IdleTells(s: State, w: Watch, t: nat)
    requires Safe(s) && Told(s, w) && t < |s.threads| && Between(s.threads[t])
    ensures Watched(w, s, Move(t), s) == w
  {
    HoldsLock(s, t);
    hide Released, Holds, Peeks, Told;
  }

  lemma HappenTells(s: State, w: Watch, ev: Event)
    requires Safe(s) && Told(s, w)
    ensures Told(Happen(s, ev), Watched(w, s, ev, Happen(s, ev)))
  {
    hide Safe, Told, Watched, StepWrite, StepPeek, StepReset, StepDestroy, Entry;
    match ev
    case Begin(t, call) =>
      if t < |s.threads| && Between(s.threads[t]) {
        BeginTells(s, w, t, call);
      } else {
        NoBegin(s, w, t, call);
      }
    case Move(t) =>
      if t >= |s.threads| {
        NoMove(s, w, t);
      } else if s.threads[t].Unlock? {
        UnlockTells(s, w, t);
      } else if InWrite(s.threads[t]) {
        WriteTells(s, w, t);
      } else if InPeek(s.threads[t]) {
        PeekTells(s, w, t);
      } else if InReset(s.threads[t]) {
        ResetTells(s, w, t);
      } else if InDestroy(s.threads[t]) {
        DestroyTells(s, w, t);
      } else {
        NothingToDo(s, t);
        IdleTells(s, w, t);
      }
  }

  lemma NoBegin(s: State, w: Watch, t: nat, call: Call)
    requires !(t < |s.threads| && Between(s.threads[t]))
    ensures Watched(w, s, Begin(t, call), s) == w
  {
  }

  lemma NoMove(s: State, w: Watch, t: nat)
    requires Safe(s) && t >= |s.threads|
    ensures Watched(w, s, Move(t), s) == w
  {
    hide Released, Holds, Peeks;
  }

  // ---- every run ----------------------------------------------------------------------------------

  lemma {:induction false} EveryRunTells(size: nat, n: nat, events: seq<Event>)
    requires size > 0
    ensures Told(Run(Initial(size, n), events), WatchOf(Initial(size, n), events))
    ensures Run(Initial(size, n), events).size == size
  {
    hide Safe, Told, Happen, Watched;
    var s0 := Initial(size, n);
    if events == [] {
      InitialTells(size, n);
    } else {
      var k := |events| - 1;
      EveryRunTells(size, n, events[..k]);
      EveryRunIsSafe(size, n, events[..k]);
      HappenTells(Run(s0, events[..k]), WatchOf(s0, events[..k]), events[k]);
      SizeStays(Run(s0, events[..k]), events[k]);
    }
  }

  lemma InitialTells(size: nat, n: nat)
    ensures Told(Initial(size, n), NOTHING)
  {
  }

  lemma SizeStays(s: State, ev: Event)
    ensures Happen(s, ev).size == s.size
  {
    hide RingBuffers.Cell, RingBuffers.Tail, RingBuffers.Copied, LockFree, Entry, InWrite, InPeek, InReset;
  }

  /** A call that is over did its part. */
  predicate OverWell(s: State, w: Watch, t: nat, size: nat)
    requires t < |s.threads| && t in w.calls
  {
    match w.calls[t]
    case CallWrite(_) => t in w.spoke || s.destroyed
    case CallReset => t in w.spoke || s.destroyed
    case CallDestroy => s.destroyed
    case CallPeek(m) =>
      && s.threads[t].Peeked?
      && (|| (s.threads[t].result == None && s.destroyed)
          || (t in w.heard && s.threads[t].result == Answer(w.heard[t], m, size)))
  }

  lemma CallIsOver(s: State, w: Watch, t: nat, size: nat)
    requires t < |s.threads| && Between(s.threads[t]) && t in w.calls && s.size == size
    requires Tells(s.history, s.destroyed, w, t, s.threads[t]) && PeekHolds(s, s.threads[t])
    ensures OverWell(s, w, t, size)
  {
  }

  /** In every interleaving of any calls: with no exclusive section open, the
      history is exactly what the finished writes put in since the last finished
      reset. A call that is over did its part: a write put in and a reset emptied
      unless the buffer was destroyed, a destroy destroyed, and a peek answered the
      end of what had been put in when it took the lock, or nothing in a destroyed
      buffer. */
  lemma EveryRunDoesWhatWasCalled(size: nat, n: nat, events: seq<Event>)
    requires size > 0
    ensures var s, w := Run(Initial(size, n), events), WatchOf(Initial(size, n), events);
            && (s.writer.None? ==> s.history == w.said)
            && forall t :: 0 <= t < |s.threads| && Between(s.threads[t]) && t in w.calls ==> OverWell(s, w, t, size)
  {
    hide Locked, Released, Holds, PeekResult, Step, Run, WatchOf, Resting, Belongs, Hearing;
    EveryRunTells(size, n, events);
    EveryRunIsSafe(size, n, events);
    var s, w := Run(Initial(size, n), events), WatchOf(Initial(size, n), events);
    forall t | 0 <= t < |s.threads| && Between(s.threads[t]) && t in w.calls
      ensures OverWell(s, w, t, size)
    {
      OwnTelling(s, w, t);
      assert PeekHolds(s, s.threads[t]);
      CallIsOver(s, w, t, size);
    }
  }

  // ---- one thread by itself --------------------------------------------------------------------------

  function Moves(t: nat, k: nat): seq<Event> {
    if k == 0 then [] else [Move(t)] + Moves(t, k - 1)
  }

  lemma {:induction false} RunConcat(s: State, a: seq<Event>, b: seq<Event>)
    ensures Run(s, a + b) == Run(Run(s, a), b)
  {
    hide Happen;
    if b == [] {
      assert a + b == a;
    } else {
      var n := |b| - 1;
      assert (a + b)[..|a + b| - 1] == a + b[..n];
      RunConcat(s, a, b[..n]);
    }
  }

  lemma RunOne(s: State, ev: Event)
    ensures Run(s, [ev]) == Happen(s, ev)
  {
    hide Happen;
    assert [ev][..0] == [];
    assert Run(s, [ev][..0]) == s;
  }

  /** The steps a call still has to make when nothing is in its way. */
  function Ahead(l: Local): nat {
    match l
    case WriteCheck(_) => 8
    case WriteLock(_) => 7
    case WriteRecheck(_) => 6
    case WriteNilCheck(_) => 5
    case WriteFirst(_) => 4
    case WriteSecond(_, _) => 3
    case WriteAdvance(_, _) => 2
    case ResetCheck => 5
    case ResetLock => 4
    case ResetRecheck => 3
    case ResetStore => 2
    case DestroySwap => 5
    case DestroyLock => 4
    case DestroyRelease => 3
    case DestroyStore => 2
    case PeekCheck(_) => 8
    case PeekNilCheck(_) => 7
    case PeekLock(_) => 6
    case PeekRecheck(_) => 5
    case PeekLoad(_) => 4
    case PeekFirst(_, _) => 3
    case PeekSecond(_, _, _) => 2
    case Unlock => 1
    case PeekUnlock(_, _, _) => 1
    case _ => 0
  }

  /** The lock is free or this thread's. */
  predicate Unhindered(s: State, t: nat)
    requires t < |s.threads|
  {
    if Exclusive(s.threads[t]) then s.writer == Some(t) && s.readers == {}
    else if Shared(s.threads[t]) then s.writer.None? && s.readers == {t}
    else LockFree(s)
  }

  /** What the history will be. */
  function Outcome(l: Local, history: seq<RingBuffers.byte>): seq<RingBuffers.byte> {
    if InWrite(l) then history + l.d else if InReset(l) then [] else history
  }

  ghost predicate SameButOne(s: State, s': State, t: nat)
    requires t < |s.threads|
  {
    && |s'.threads| == |s.threads| && s'.threads == s.threads[t := s'.threads[t]]
    && s'.size == s.size && s'.destroyed == s.destroyed
  }

  lemma WriteAlone(s: State, t: nat)
    requires Safe(s) && t < |s.threads| && Unhindered(s, t) && !s.destroyed && InWrite(s.threads[t])
    ensures var s', l := Step(s, t), s.threads[t];
            && SameButOne(s, s', t) && Unhindered(s', t) && (InWrite(s'.threads[t]) || s'.threads[t].Unlock?)
            && Ahead(s'.threads[t]) < Ahead(l) && Outcome(s'.threads[t], s'.history) == Outcome(l, s.history)
  {
    ClearMeansData(s);
    hide Safe, StepWrite;
    AllOf(s);
    WriteEffect(s, t);
    WritePlace(s, t);
    hide Locked;
  }

  lemma AllOf(s: State)
    requires Safe(s)
    ensures Locked(s)
  {
  }

  lemma ResetAlone(s: State, t: nat)
    requires Safe(s) && t < |s.threads| && Unhindered(s, t) && !s.destroyed && InReset(s.threads[t])
    ensures var s', l := Step(s, t), s.threads[t];
            && SameButOne(s, s', t) && Unhindered(s', t) && (InReset(s'.threads[t]) || s'.threads[t].Unlock?)
            && Ahead(s'.threads[t]) < Ahead(l) && Outcome(s'.threads[t], s'.history) == Outcome(l, s.history)
  {
    hide Safe, StepReset;
    ResetEffect(s, t);
  }

  lemma UnlockAlone(s: State, t: nat)
    requires t < |s.threads| && Unhindered(s, t) && s.threads[t].Unlock?
    ensures var s' := Step(s, t);
            && SameButOne(s, s', t) && Unhindered(s', t) && s'.threads[t].Idle? && s'.history == s.history
  {
  }

  /** A write or a reset that nothing hinders ends after at most its steps, with
      its bytes behind the history or the history empty. */
  lemma {:induction false} AloneEnds(s: State, t: nat, k: nat)
    requires Safe(s) && t < |s.threads| && Unhindered(s, t) && !s.destroyed && Ahead(s.threads[t]) <= k
    requires var l := s.threads[t]; InWrite(l) || InReset(l) || l.Unlock? || l.Idle?
    ensures var s' := Run(s, Moves(t, k));
            && Safe(s') && SameButOne(s, s', t) && s'.threads[t].Idle? && LockFree(s')
            && s'.history == Outcome(s.threads[t], s.history)
    decreases k
  {
    hide Safe, Step, Run, Unhindered, Outcome, SameButOne, LockFree;
    if s.threads[t].Idle? {
      IdleStays(s, t, k);
    } else {
      var s' := Step(s, t);
      StepKeepsSafe(s, t);
      if InWrite(s.threads[t]) {
        WriteAlone(s, t);
      } else if InReset(s.threads[t]) {
        ResetAlone(s, t);
      } else {
        UnlockAlone(s, t);
        NoOutcome(s.threads[t], s.history);
        NoOutcome(s'.threads[t], s'.history);
      }
      OneThenMore(s, t, k);
      SameThrough(s, s', t);
      AloneEnds(s', t, k - 1);
      SameTwice(s, s', Run(s', Moves(t, k - 1)), t);
    }
  }

  lemma NoOutcome(l: Local, h: seq<RingBuffers.byte>)
    requires l.Unlock? || l.Idle?
    ensures Outcome(l, h) == h
  {
  }

  lemma OneThenMore(s: State, t: nat, k: nat)
    requires t < |s.threads| && k > 0
    ensures Run(s, Moves(t, k)) == Run(Step(s, t), Moves(t, k - 1))
  {
    hide Step, Run;
    RunConcat(s, [Move(t)], Moves(t, k - 1));
    RunOne(s, Move(t));
  }

  lemma SameThrough(s: State, s': State, t: nat)
    requires t < |s.threads| && SameButOne(s, s', t)
    ensures |s'.threads| == |s.threads| && s'.destroyed == s.destroyed && s'.size == s.size
  {
  }

  lemma SameTwice(s: State, s': State, s'': State, t: nat)
    requires t < |s.threads| && SameButOne(s, s', t) && SameButOne(s', s'', t)
    ensures SameButOne(s, s'', t)
  {
  }

  lemma {:induction false} IdleStays(s: State, t: nat, k: nat)
    requires Safe(s) && t < |s.threads| && s.threads[t].Idle? && Unhindered(s, t)
    ensures Run(s, Moves(t, k)) == s && SameButOne(s, s, t) && LockFree(s) && s.history == Outcome(s.threads[t], s.history)
  {
    hide Safe, Run;
    if k == 0 {
      NothingRuns(s, t);
    } else {
      OneThenMore(s, t, k);
      IdleStays(s, t, k - 1);
    }
  }

  lemma NothingRuns(s: State, t: nat)
    ensures Run(s, Moves(t, 0)) == s
  {
  }

  // ---- a peek by itself --------------------------------------------------------------------------

  /** Nothing has been read yet, or what was read is the history. */
  predicate ReadsHistory(l: Local, history: seq<RingBuffers.byte>) {
    l.PeekUnlock? || l.Peeked? ==> l.seen == Some(history)
  }

  lemma PeekAlone(s: State, t: nat)
    requires Safe(s) && t < |s.threads| && Unhindered(s, t) && !s.destroyed && InPeek(s.threads[t])
    requires ReadsHistory(s.threads[t], s.history)
    ensures var s', l := Step(s, t), s.threads[t];
            && SameButOne(s, s', t) && Unhindered(s', t) && (InPeek(s'.threads[t]) || s'.threads[t].Peeked?)
            && s'.threads[t].n == l.n && s'.history == s.history
            && Ahead(s'.threads[t]) < Ahead(l) && ReadsHistory(s'.threads[t], s'.history)
  {
    ClearMeansData(s);
    if Touching(s.threads[t]) {
      TouchesLive(s, t);
    }
    AllOf(s);
    PeekEffect(s, t);
    PeekSees(s, t);
    hide Locked, Released, Peeks, RingBuffers.Cell, RingBuffers.Resident, RingBuffers.Bulk, FirstCopy;
  }

  lemma {:induction false} PeekEnds(s: State, t: nat, k: nat)
    requires Safe(s) && t < |s.threads| && Unhindered(s, t) && !s.destroyed && Ahead(s.threads[t]) <= k
    requires var l := s.threads[t]; (InPeek(l) || l.Peeked?) && ReadsHistory(l, s.history)
    ensures var s' := Run(s, Moves(t, k));
            && Safe(s') && SameButOne(s, s', t) && LockFree(s') && s'.history == s.history
            && s'.threads[t].Peeked? && s'.threads[t].n == s.threads[t].n && s'.threads[t].seen == Some(s.history)
    decreases k
  {
    hide Safe, Step, Run, Unhindered, SameButOne, LockFree;
    if s.threads[t].Peeked? {
      PeekedStays(s, t, k);
    } else {
      var s' := Step(s, t);
      StepKeepsSafe(s, t);
      PeekAlone(s, t);
      OneThenMore(s, t, k);
      SameThrough(s, s', t);
      PeekEnds(s', t, k - 1);
      SameTwice(s, s', Run(s', Moves(t, k - 1)), t);
    }
  }

  lemma {:induction false} PeekedStays(s: State, t: nat, k: nat)
    requires t < |s.threads| && s.threads[t].Peeked? && Unhindered(s, t)
    ensures Run(s, Moves(t, k)) == s && SameButOne(s, s, t) && LockFree(s)
  {
    hide Run;
    if k == 0 {
      NothingRuns(s, t);
    } else {
      OneThenMore(s, t, k);
      PeekedStays(s, t, k - 1);
    }
  }

  // ---- whole calls ---------------------------------------------------------------------------------

  /** One call from beginning to end, eight steps at most. */
  function Whole(t: nat, call: Call): seq<Event> {
    [Begin(t, call)] + Moves(t, 8)
  }

  /** A thread that can begin a call nothing hinders. */
  ghost predicate Ready(s: State, t: nat) {
    Safe(s) && t < |s.threads| && Between(s.threads[t]) && LockFree(s) && !s.destroyed
  }

  lemma WholeRuns(s: State, t: nat, call: Call)
    requires Ready(s, t)
    ensures Run(s, Whole(t, call)) == Run(Put(s, t, Entry(call)), Moves(t, 8))
    ensures Safe(Put(s, t, Entry(call))) && Unhindered(Put(s, t, Entry(call)), t) && Ahead(Entry(call)) <= 8
  {
    BeginningKeepsSafe(s, t, call);
    hide Safe, Run;
    RunConcat(s, [Begin(t, call)], Moves(t, 8));
    RunOne(s, Begin(t, call));
  }

  /** A write that nothing hinders puts its bytes behind what was there. */
  lemma WholeWrite(s: State, t: nat, d: seq<RingBuffers.byte>)
    requires Ready(s, t)
    ensures var s' := Run(s, Whole(t, CallWrite(d)));
            Ready(s', t) && s'.size == s.size && |s'.threads| == |s.threads| && s'.history == s.history + d
  {
    hide Safe, Run, Unhindered, Whole, LockFree;
    WholeRuns(s, t, CallWrite(d));
    AloneEnds(Put(s, t, WriteCheck(d)), t, 8);
  }

  lemma WholeReset(s: State, t: nat)
    requires Ready(s, t)
    ensures var s' := Run(s, Whole(t, CallReset));
            Ready(s', t) && s'.size == s.size && |s'.threads| == |s.threads| && s'.history == []
  {
    hide Safe, Run, Unhindered, Whole, LockFree;
    WholeRuns(s, t, CallReset);
    AloneEnds(Put(s, t, ResetCheck), t, 8);
  }

  lemma WholePeek(s: State, t: nat, n: nat)
    requires Ready(s, t)
    ensures var s' := Run(s, Whole(t, CallPeek(n)));
            && Ready(s', t) && s'.history == s.history && s'.threads[t].Peeked?
            && s'.threads[t].result == Answer(s.history, n, s.size)
  {
    hide Safe, Run, Unhindered, Whole, LockFree;
    WholeRuns(s, t, CallPeek(n));
    PeekEnds(Put(s, t, PeekCheck(n)), t, 8);
    PeekAnswers(Run(s, Whole(t, CallPeek(n))), t);
  }

  lemma PeekAnswers(s: State, t: nat)
    requires Safe(s) && t < |s.threads| && s.threads[t].Peeked? && s.threads[t].seen.Some?
    ensures s.threads[t].result == Answer(s.threads[t].seen.value, s.threads[t].n, s.size)
  {
    hide Locked, Released, Holds;
    assert PeekHolds(s, s.threads[t]);
  }

  /** What a peek answers after a write, and after a reset. */
  lemma PeekAfterWrite(s: State, t: nat, d: seq<RingBuffers.byte>, u: nat, n: nat)
    requires Ready(s, t) && u < |s.threads| && (u != t ==> Between(s.threads[u]))
    ensures var s' := Run(s, Whole(t, CallWrite(d)) + Whole(u, CallPeek(n)));
            u < |s'.threads| && s'.threads[u].Peeked? && s'.threads[u].result == Answer(s.history + d, n, s.size)
  {
    hide Safe, Run, Unhindered, Whole, LockFree, Answer;
    WholeRuns(s, t, CallWrite(d));
    AloneEnds(Put(s, t, WriteCheck(d)), t, 8);
    RunConcat(s, Whole(t, CallWrite(d)), Whole(u, CallPeek(n)));
    WholePeek(Run(s, Whole(t, CallWrite(d))), u, n);
  }

  lemma PeekAfterReset(s: State, t: nat, u: nat, n: nat)
    requires Ready(s, t) && u < |s.threads| && (u != t ==> Between(s.threads[u]))
    ensures var s' := Run(s, Whole(t, CallReset) + Whole(u, CallPeek(n)));
            u < |s'.threads| && s'.threads[u].Peeked? && s'.threads[u].result == None
  {
    hide Safe, Run, Unhindered, Whole, LockFree;
    WholeRuns(s, t, CallReset);
    AloneEnds(Put(s, t, ResetCheck), t, 8);
    RunConcat(s, Whole(t, CallReset), Whole(u, CallPeek(n)));
    WholePeek(Run(s, Whole(t, CallReset)), u, n);
  }

  lemma DestroyAlone(s: State, t: nat)
    requires Safe(s) && t < |s.threads| && Unhindered(s, t) && InDestroy(s.threads[t])
    requires s.threads[t].DestroySwap? ==> !s.destroyed
    ensures var s', l := Step(s, t), s.threads[t];
            && |s'.threads| == |s.threads| && Unhindered(s', t) && s'.destroyed && Ahead(s'.threads[t]) == Ahead(l) - 1
            && (InDestroy(s'.threads[t]) || s'.threads[t].Unlock?) && !s'.threads[t].DestroySwap?
            && (l.DestroyStore? ==> s'.data.None?)
  {
    hide Locked, Holds, Peeks;
  }

  /** A destroy that nothing hinders releases the array and zeroes the position. */
  lemma WholeDestroy(s: State, t: nat)
    requires Ready(s, t)
    ensures var s' := Run(s, [Begin(t, CallDestroy)] + Moves(t, 5));
            s'.destroyed && s'.data.None? && s'.writePos == 0 && s'.releases == 1 && LockFree(s')
  {
    hide Safe, Run, Step, LockFree, Unhindered;
    BeginningKeepsSafe(s, t, CallDestroy);
    DestroyBegins(s, t);
    RunConcat(s, [Begin(t, CallDestroy)], Moves(t, 5));
    RunOne(s, Begin(t, CallDestroy));
    var s0 := Put(s, t, DestroySwap);
    DestroyAlone(s0, t);
    StepKeepsSafe(s0, t);
    var s1 := Step(s0, t);
    DestroyAlone(s1, t);
    StepKeepsSafe(s1, t);
    var s2 := Step(s1, t);
    DestroyAlone(s2, t);
    StepKeepsSafe(s2, t);
    var s3 := Step(s2, t);
    DestroyAlone(s3, t);
    StepKeepsSafe(s3, t);
    var s4 := Step(s3, t);
    OneThenMore(s0, t, 5);
    OneThenMore(s1, t, 4);
    OneThenMore(s2, t, 3);
    OneThenMore(s3, t, 2);
    OneThenMore(s4, t, 1);
    NothingRuns(Step(s4, t), t);
    DestroyDone(s4, t);
  }

  lemma DestroyBegins(s: State, t: nat)
    requires Ready(s, t)
    ensures Unhindered(Put(s, t, DestroySwap), t) && !s.destroyed
  {
  }

  lemma DestroyDone(s: State, t: nat)
    requires Safe(s) && t < |s.threads| && s.threads[t].Unlock? && Unhindered(s, t) && s.data.None?
    ensures var s' := Step(s, t); s'.destroyed && s'.data.None? && s'.writePos == 0 && s'.releases == 1 && LockFree(s')
  {
    hide Holds, Peeks;
    forall u | 0 <= u < |s.threads|
      ensures !s.threads[u].DestroyStore?
    {
      WriterAlone(s, t, u);
    }
  }
}
