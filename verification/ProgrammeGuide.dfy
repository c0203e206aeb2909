/** The programme guide: collecting parsed entries, publishing them in start
    order, and asking what is on. */
module ProgrammeGuide {
  import opened Text
  import opened Sorting

  /** Times are instants on one line. */
  datatype Programme = Programme(start: int, stop: int, title: string, desc: string)

  /** What one guide element held; a missing attribute or an unreadable time is None. */
  datatype Fragment = Fragment(channel: Option<string>, start: Option<int>, stop: Option<int>, title: string, desc: string)

  type Listing = map<string, seq<Programme>>

  function On(l: Listing, id: string): seq<Programme> {
    if id in l then l[id] else []
  }

  predicate Complete(a: Alphabet, f: Fragment) {
    f.channel.Some? && a.Trim(f.channel.value) != "" && f.start.Some? && f.stop.Some?
  }

  function Entry(f: Fragment): Programme
    requires f.start.Some? && f.stop.Some?
  {
    Programme(f.start.value, f.stop.value, f.title, f.desc)
  }

  function Appended(l: Listing, id: string, p: Programme): Listing {
    l[id := On(l, id) + [p]]
  }

  predicate StartsNoLater(p: Programme, q: Programme) {
    p.start <= q.start
  }

  ghost predicate InStartOrder(ps: seq<Programme>) {
    Sorted(ps, StartsNoLater)
  }

  /** The same entries in start order; entries that start together may come in
      any order, as the library's sort is not stable. */
  ghost predicate Arranged(ps: seq<Programme>, qs: seq<Programme>) {
    InStartOrder(qs) && multiset(qs) == multiset(ps)
  }

  method SortByStart(ps: seq<Programme>) returns (qs: seq<Programme>)
    ensures Arranged(ps, qs)
  {
    SortSorts(ps, StartsNoLater);
    SortPermutes(ps, StartsNoLater);
    qs := SortBy(ps, StartsNoLater);
  }

  // ---- what a window holds -----------------------------------------------------------------------

  function Unexpired(ps: seq<Programme>, after: int): (r: seq<Programme>)
    ensures forall p :: p in r <==> p in ps && after <= p.stop
  {
    if ps == [] then [] else (if ps[0].stop < after then [] else [ps[0]]) + Unexpired(ps[1..], after)
  }

  function Window(ps: seq<Programme>, after: int, limit: int): seq<Programme> {
    var all := Unexpired(ps, after);
    if 0 < limit < |all| then all[..limit] else all
  }

  lemma {:induction false} UnexpiredConcat(ps: seq<Programme>, qs: seq<Programme>, after: int)
    ensures Unexpired(ps + qs, after) == Unexpired(ps, after) + Unexpired(qs, after)
  {
    if ps == [] {
      assert ps + qs == qs;
    } else {
      assert (ps + qs)[1..] == ps[1..] + qs;
      UnexpiredConcat(ps[1..], qs, after);
    }
  }

  lemma NothingUnexpired(ps: seq<Programme>, after: int)
    ensures Unexpired(ps[..0], after) == []
  {
  }

  lemma UnexpiredStep(ps: seq<Programme>, i: nat, after: int)
    requires i < |ps|
    ensures Unexpired(ps[..i + 1], after) == Unexpired(ps[..i], after) + if ps[i].stop < after then [] else [ps[i]]
  {
    assert ps[..i + 1] == ps[..i] + [ps[i]];
    UnexpiredConcat(ps[..i], [ps[i]], after);
  }

  /** The unexpired entries of a front part are a front part of them all. */
  lemma UnexpiredSplit(ps: seq<Programme>, i: nat, after: int)
    requires i <= |ps|
    ensures Unexpired(ps[..i], after) <= Unexpired(ps, after)
  {
    assert ps == ps[..i] + ps[i..];
    UnexpiredConcat(ps[..i], ps[i..], after);
  }

  lemma {:induction false} UnexpiredInOrder(ps: seq<Programme>, after: int)
    requires InStartOrder(ps)
    ensures InStartOrder(Unexpired(ps, after))
  {
    if ps != [] {
      assert InStartOrder(ps[1..]);
      UnexpiredInOrder(ps[1..], after);
      var rest := Unexpired(ps[1..], after);
      forall i | 0 <= i < |rest|
        ensures ps[0].start <= rest[i].start
      {
        assert rest[i] in ps[1..];
      }
    }
  }

  /** A window is in start order, holds only entries that have not stopped, and
      leaves out such an entry only when it is full, of entries that start no
      later. */
  lemma WindowIsEarliest(ps: seq<Programme>, after: int, limit: int)
    requires InStartOrder(ps)
    ensures var out := Window(ps, after, limit);
            && InStartOrder(out)
            && (forall p :: p in out ==> p in ps && after <= p.stop)
            && (limit > 0 ==> |out| <= limit)
            && exists left :: multiset(Unexpired(ps, after)) == multiset(out) + multiset(left)
                              && (left != [] ==> limit > 0 && |out| == limit)
                              && forall p, q :: p in left && q in out ==> q.start <= p.start
  {
    UnexpiredInOrder(ps, after);
    var all, out := Unexpired(ps, after), Window(ps, after, limit);
    assert InStartOrder(out);
    forall p | p in out
      ensures p in all
    {
    }
    var left := all[|out|..];
    assert all == out + left;
    assert multiset(all) == multiset(out) + multiset(left);
    forall p, q | p in left && q in out
      ensures q.start <= p.start
    {
      var i :| 0 <= i < |out| && out[i] == q;
      var j :| 0 <= j < |left| && left[j] == p;
      assert all[i] == q && all[|out| + j] == p;
    }
  }

  predicate Airing(p: Programme, now: int) {
    p.start <= now <= p.stop
  }

  /** The first entry that has not stopped is on exactly when anything is,
      overlapping entries or not, and then nothing that is on began before it. */
  lemma OnNowIsFound(ps: seq<Programme>, now: int)
    requires InStartOrder(ps)
    ensures var out := Window(ps, now, 1);
            && (out != [] && out[0].start <= now <==> exists p :: p in ps && Airing(p, now))
            && (out != [] && out[0].start <= now ==>
                  out[0] in ps && Airing(out[0], now) && forall q :: q in ps && Airing(q, now) ==> out[0].start <= q.start)
  {
    UnexpiredInOrder(ps, now);
    var all, out := Unexpired(ps, now), Window(ps, now, 1);
    forall q | q in ps && Airing(q, now)
      ensures out != [] && out[0].start <= q.start
    {
      assert q in all;
      var i :| 0 <= i < |all| && all[i] == q;
      assert out[0] == all[0];
    }
    if out != [] {
      assert out[0] == all[0] && out[0] in all;
    }
  }

  /** The order matters: the same two entries the other way round hide the one
      that is on. */
  lemma OutOfOrderHides(now: int, later: Programme, current: Programme)
    requires Airing(current, now) && now < later.start && now <= later.stop
    ensures var out := Window([later, current], now, 1);
            out == [later] && !(out[0].start <= now)
  {
    assert Unexpired([later, current], now) == [later] + Unexpired([current], now);
  }

  /** What is collected and committed can be asked for: every accepted entry of a
      batch that has not stopped is in the unlimited window, as often as it was
      accepted. */
  lemma CommittedIsListed(collected: seq<Programme>, published: seq<Programme>, after: int)
    requires Arranged(collected, published)
    ensures multiset(Window(published, after, 0)) == multiset(Unexpired(collected, after))
  {
    forall p
      ensures multiset(Unexpired(published, after))[p] == multiset(Unexpired(collected, after))[p]
    {
      UnexpiredCount(published, after, p);
      UnexpiredCount(collected, after, p);
    }
  }

  lemma {:induction false} UnexpiredCount(ps: seq<Programme>, after: int, p: Programme)
    ensures multiset(Unexpired(ps, after))[p] == if p.stop < after then 0 else multiset(ps)[p]
  {
    if ps != [] {
      assert ps == [ps[0]] + ps[1..];
      UnexpiredCount(ps[1..], after, p);
    }
  }

  // ---- collecting and publishing ---------------------------------------------------------------

  /** What the batches hold of one channel, counted with repetitions. */
  ghost function Committed(batches: seq<Listing>, id: string): multiset<Programme> {
    if batches == [] then multiset{}
    else Committed(batches[..|batches| - 1], id) + multiset(On(batches[|batches| - 1], id))
  }

  /** Every accepted entry is pending or in exactly one batch. */
  ghost predicate Conserved(accepted: Listing, pending: Listing, batches: seq<Listing>) {
    forall id :: multiset(On(accepted, id)) == multiset(On(pending, id)) + Committed(batches, id)
  }

  lemma OnAppended(l: Listing, id: string, p: Programme, x: string)
    ensures multiset(On(Appended(l, id, p), x)) == multiset(On(l, x)) + if x == id then multiset{p} else multiset{}
  {
  }

  lemma AcceptingConserves(accepted: Listing, pending: Listing, batches: seq<Listing>, id: string, p: Programme)
    requires Conserved(accepted, pending, batches)
    ensures Conserved(Appended(accepted, id, p), Appended(pending, id, p), batches)
  {
    hide On, Appended, Committed;
    forall x
      ensures multiset(On(Appended(accepted, id, p), x)) == multiset(On(Appended(pending, id, p), x)) + Committed(batches, x)
    {
      OnAppended(accepted, id, p, x);
      OnAppended(pending, id, p, x);
      assert multiset(On(accepted, x)) == multiset(On(pending, x)) + Committed(batches, x);
    }
  }

  lemma CommittingConserves(accepted: Listing, pending: Listing, batches: seq<Listing>, batch: Listing)
    requires Conserved(accepted, pending, batches)
    requires batch.Keys == pending.Keys && forall id :: id in pending ==> Arranged(pending[id], batch[id])
    ensures Conserved(accepted, map[], batches + [batch])
  {
    var more := batches + [batch];
    assert more[..|more| - 1] == batches;
    forall id
      ensures multiset(On(accepted, id)) == multiset(On(map[], id)) + Committed(more, id)
    {
      assert multiset(On(accepted, id)) == multiset(On(pending, id)) + Committed(batches, id);
      assert multiset(On(batch, id)) == multiset(On(pending, id));
    }
  }

  /** The published index. */
  class Guide {
    var index: Listing

    constructor ()
      ensures index == map[] && Valid()
    {
      index := map[];
    }

    ghost predicate Valid()
      reads this
    {
      forall id :: id in index ==> InStartOrder(index[id])
    }

    method Programmes(id: string, after: int, limit: int) returns (out: seq<Programme>)
      ensures out == Window(On(index, id), after, limit)
    {
      hide On, Unexpired;
      var ps := On(index, id);
      out := [];
      var i := 0;
      NothingUnexpired(ps, after);
      while i < |ps|
        invariant 0 <= i <= |ps|
        invariant out == Unexpired(ps[..i], after)
        invariant limit > 0 ==> |out| < limit
      {
        UnexpiredStep(ps, i, after);
        var p := ps[i];
        i := i + 1;
        if p.stop < after {
          continue;
        }
        out := out + [p];
        if limit > 0 && |out| >= limit {
          UnexpiredSplit(ps, i, after);
          return;
        }
      }
      assert ps[..i] == ps;
    }

    /** The title of what is on, and nothing exactly when nothing is. */
    method NowTitle(id: string, now: int) returns (title: string)
      requires Valid()
      ensures (forall p :: p in On(index, id) ==> !Airing(p, now)) ==> title == ""
      ensures (exists p :: p in On(index, id) && Airing(p, now)) ==>
                exists p :: p in On(index, id) && Airing(p, now) && p.title == title
                            && forall q :: q in On(index, id) && Airing(q, now) ==> p.start <= q.start
    {
      var ps := Programmes(id, now, 1);
      assert InStartOrder(On(index, id));
      OnNowIsFound(On(index, id), now);
      if ps != [] && ps[0].start <= now {
        return ps[0].title;
      }
      title := "";
    }
  }

  lemma ArrangedIsOrdered(l: Listing, m: Listing)
    requires l.Keys == m.Keys && forall id :: id in l ==> Arranged(l[id], m[id])
    ensures forall id :: id in m ==> InStartOrder(m[id])
  {
    forall id | id in m
      ensures InStartOrder(m[id])
    {
      assert id in l;
    }
  }

  class ProgrammeBuilder {
    const alphabet: Alphabet
    var progs: Listing
    /** Everything ever accepted, and everything ever published. */
    ghost var accepted: Listing
    ghost var batches: seq<Listing>

    constructor (alphabet: Alphabet)
      ensures this.alphabet == alphabet
      ensures progs == map[] && accepted == map[] && batches == [] && Valid()
    {
      this.alphabet := alphabet;
      progs, accepted, batches := map[], map[], [];
    }

    ghost predicate Valid()
      reads this
    {
      Conserved(accepted, progs, batches)
    }

    method Add(f: Fragment)
      requires Valid()
      modifies this`progs, this`accepted
      ensures Valid()
      ensures Complete(alphabet, f) ==>
                && progs == Appended(old(progs), f.channel.value, Entry(f))
                && accepted == Appended(old(accepted), f.channel.value, Entry(f))
      ensures !Complete(alphabet, f) ==> progs == old(progs) && accepted == old(accepted)
    {
      if f.channel.None? || alphabet.Trim(f.channel.value) == "" {
        return;
      }
      if f.start.None? || f.stop.None? {
        return;
      }
      var p := Programme(f.start.value, f.stop.value, f.title, f.desc);
      AcceptingConserves(accepted, progs, batches, f.channel.value, p);
      progs := progs[f.channel.value := On(progs, f.channel.value) + [p]];
      accepted := Appended(accepted, f.channel.value, p);
    }

    /** Publishes everything collected so far, channel by channel in start order,
        and starts over. */
    method Commit(guide: Guide)
      requires Valid()
      modifies this`progs, this`batches, guide
      ensures Valid() && guide.Valid()
      ensures progs == map[] && batches == old(batches) + [guide.index]
      ensures guide.index.Keys == old(progs).Keys
      ensures forall id :: id in old(progs) ==> Arranged(old(progs)[id], guide.index[id])
    {
      hide Conserved, Arranged;
      var collected := progs;
      progs := map[];
      var next := collected;
      var rest := collected.Keys;
      while rest != {}
        invariant progs == map[] && accepted == old(accepted) && batches == old(batches)
        invariant rest <= collected.Keys && next.Keys == collected.Keys
        invariant forall id :: id in collected && id !in rest ==> Arranged(collected[id], next[id])
        invariant forall id :: id in rest ==> next[id] == collected[id]
        decreases rest
      {
        var id :| id in rest;
        var qs := SortByStart(next[id]);
        next := next[id := qs];
        rest := rest - {id};
      }
      guide.index := next;
      batches := batches + [next];
      CommittingConserves(accepted, collected, old(batches), next);
      ArrangedIsOrdered(collected, next);
    }
  }
}
