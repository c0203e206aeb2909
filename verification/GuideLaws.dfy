/** From the fragments of a guide to what is on. */
module GuideLaws {
  import opened Text
  import opened Sorting
  import opened ProgrammeGuide

  /** The fragment is an entry of the channel: it names it, has both times, and holds
      that title and description. */
  predicate Tells(a: Alphabet, f: Fragment, id: string, p: Programme) {
    && f.channel == Some(id) && a.Trim(id) != ""
    && f.start == Some(p.start) && f.stop == Some(p.stop)
    && f.title == p.title && f.desc == p.desc
  }

  function Told(a: Alphabet, fs: seq<Fragment>, id: string, p: Programme): set<int> {
    set i | 0 <= i < |fs| && Tells(a, fs[i], id, p)
  }

  /** What a builder holds after these fragments. */
  function Gathered(a: Alphabet, fs: seq<Fragment>): Listing {
    if fs == [] then map[]
    else
      var n := |fs| - 1;
      var before := Gathered(a, fs[..n]);
      if Complete(a, fs[n]) then Appended(before, fs[n].channel.value, Entry(fs[n])) else before
  }

  lemma OneMore(a: Alphabet, l: Listing, f: Fragment, id: string, p: Programme)
    ensures multiset(On(if Complete(a, f) then Appended(l, f.channel.value, Entry(f)) else l, id))[p]
            == multiset(On(l, id))[p] + if Tells(a, f, id, p) then 1 else 0
  {
    hide Alphabet.Trim;
    if Complete(a, f) {
      OnAppended(l, f.channel.value, Entry(f), id);
    }
  }

  /** An entry is held as often as a fragment tells it. */
  lemma {:induction false} GatheredIsTold(a: Alphabet, fs: seq<Fragment>, id: string, p: Programme)
    ensures multiset(On(Gathered(a, fs), id))[p] == |Told(a, fs, id, p)|
  {
    hide Tells, On, Complete, Appended;
    if fs == [] {
      NothingHeld(id, p);
    } else {
      var n := |fs| - 1;
      GatheredIsTold(a, fs[..n], id, p);
      OneMore(a, Gathered(a, fs[..n]), fs[n], id, p);
      var now, before := Told(a, fs, id, p), Told(a, fs[..n], id, p);
      if Tells(a, fs[n], id, p) {
        assert now == before + {n};
      } else {
        assert now == before;
      }
    }
  }

  lemma NothingHeld(id: string, p: Programme)
    ensures multiset(On(map[], id))[p] == 0
  {
  }

  /** A refresh: every fragment is added, and what they tell is published. */
  method Refresh(a: Alphabet, fs: seq<Fragment>, guide: Guide)
    modifies guide
    ensures guide.Valid()
    ensures forall id, p {:trigger Told(a, fs, id, p)} :: multiset(On(guide.index, id))[p] == |Told(a, fs, id, p)|
  {
    hide Conserved, Tells, Arranged, Complete, Guide.Valid;
    var builder := new ProgrammeBuilder(a);
    for i := 0 to |fs|
      invariant builder.alphabet == a && builder.Valid() && fresh(builder)
      invariant builder.progs == Gathered(a, fs[..i])
    {
      assert fs[..i + 1][..i] == fs[..i];
      builder.Add(fs[i]);
    }
    assert fs[..|fs|] == fs;
    builder.Commit(guide);
    forall id, p
      ensures multiset(On(guide.index, id))[p] == |Told(a, fs, id, p)|
    {
      GatheredIsTold(a, fs, id, p);
      PublishedHolds(Gathered(a, fs), guide.index, id);
    }
  }

  lemma PublishedHolds(l: Listing, m: Listing, id: string)
    requires l.Keys == m.Keys && (id in l ==> Arranged(l[id], m[id]))
    ensures multiset(On(m, id)) == multiset(On(l, id))
  {
  }

  predicate OnAir(f: Fragment, now: int) {
    f.start.Some? && f.stop.Some? && f.start.value <= now <= f.stop.value
  }

  predicate Names(a: Alphabet, f: Fragment, id: string) {
    f.channel == Some(id) && a.Trim(id) != ""
  }

  /** After a refresh, what is on a channel is the title of a fragment that names it
      and whose time it is, none of which began before; nothing when there is none. */
  method TitleAfterRefresh(a: Alphabet, fs: seq<Fragment>, guide: Guide, id: string, now: int) returns (title: string)
    modifies guide
    ensures (forall f :: f in fs && Names(a, f, id) ==> !OnAir(f, now)) ==> title == ""
    ensures (exists f :: f in fs && Names(a, f, id) && OnAir(f, now)) ==>
              exists f :: f in fs && Names(a, f, id) && OnAir(f, now) && title == f.title
                          && forall g :: g in fs && Names(a, g, id) && OnAir(g, now) ==> f.start.value <= g.start.value
  {
    hide Alphabet.Trim, Tells, Told, Names, OnAir, Airing;
    Refresh(a, fs, guide);
    title := guide.NowTitle(id, now);
    forall p
      ensures p in On(guide.index, id) <==> exists f :: f in fs && Tells(a, f, id, p)
    {
      InToldFragment(a, fs, id, p);
    }
    AirsAsTold(a, fs, On(guide.index, id), id, now);
    if f :| f in fs && Names(a, f, id) && OnAir(f, now) {
      var p :| p in On(guide.index, id) && Airing(p, now) && p.title == title
        && forall q :: q in On(guide.index, id) && Airing(q, now) ==> p.start <= q.start;
      EarliestAsTold(a, fs, On(guide.index, id), id, now, p);
    }
  }

  lemma InToldFragment(a: Alphabet, fs: seq<Fragment>, id: string, p: Programme)
    ensures |Told(a, fs, id, p)| > 0 <==> exists f :: f in fs && Tells(a, f, id, p)
  {
    hide Tells;
    if f :| f in fs && Tells(a, f, id, p) {
      var i :| 0 <= i < |fs| && fs[i] == f;
      assert i in Told(a, fs, id, p);
    }
    if |Told(a, fs, id, p)| > 0 {
      var i :| i in Told(a, fs, id, p);
      assert fs[i] in fs;
    }
  }

  lemma AirsAsTold(a: Alphabet, fs: seq<Fragment>, ps: seq<Programme>, id: string, now: int)
    requires forall p :: p in ps <==> exists f :: f in fs && Tells(a, f, id, p)
    ensures (exists p :: p in ps && Airing(p, now)) <==> exists f :: f in fs && Names(a, f, id) && OnAir(f, now)
  {
    hide Alphabet.Trim;
    if f :| f in fs && Names(a, f, id) && OnAir(f, now) {
      var q := Programme(f.start.value, f.stop.value, f.title, f.desc);
      assert Tells(a, f, id, q);
      assert q in ps && Airing(q, now);
    }
    if p :| p in ps && Airing(p, now) {
      var f :| f in fs && Tells(a, f, id, p);
      assert Names(a, f, id) && OnAir(f, now);
    }
  }

  lemma EarliestAsTold(a: Alphabet, fs: seq<Fragment>, ps: seq<Programme>, id: string, now: int, p: Programme)
    requires forall q :: q in ps <==> exists f :: f in fs && Tells(a, f, id, q)
    requires p in ps && Airing(p, now) && forall q :: q in ps && Airing(q, now) ==> p.start <= q.start
    ensures exists f :: f in fs && Names(a, f, id) && OnAir(f, now) && p.title == f.title
                        && forall g :: g in fs && Names(a, g, id) && OnAir(g, now) ==> f.start.value <= g.start.value
  {
    hide Alphabet.Trim;
    var f :| f in fs && Tells(a, f, id, p);
    forall g | g in fs && Names(a, g, id) && OnAir(g, now)
      ensures f.start.value <= g.start.value
    {
      var q := Programme(g.start.value, g.stop.value, g.title, g.desc);
      assert Tells(a, g, id, q);
      assert q in ps && Airing(q, now);
    }
  }
}
