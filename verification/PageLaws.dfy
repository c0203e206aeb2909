/** What a page of a preview shows, counted on the verdicts. */
module PageLaws {
  import opened Text
  import opened Reports
  import opened PreviewPages

  /** The text holds the word somewhere. */
  predicate Holds(text: string, word: string) {
    exists i {:trigger text[i..]} :: 0 <= i <= |text| - |word| && text[i..][..|word|] == word
  }

  lemma HoldsIsContains(text: string, word: string)
    ensures Holds(text, word) <==> Contains(text, word)
  {
    if Holds(text, word) {
      var i :| 0 <= i <= |text| - |word| && text[i..][..|word|] == word;
      assert word <= text[i..];
    }
    if Contains(text, word) {
      var i :| 0 <= i <= |text| && word <= text[i..];
      assert text[i..][..|word|] == word;
    }
  }

  /** The stream is of the type asked for, if any, and its name or its group holds the
      text asked for, if any, in whatever case. */
  predicate Found(a: Alphabet, req: Request, v: Verdict) {
    var t, query := a.Lower(a.Trim(req.contentType)), a.Lower(a.Trim(req.query));
    && (t == "" || v.contentType == t)
    && (query == "" || Holds(a.Lower(v.name), query) || Holds(a.Lower(v.group), query))
  }

  /** Of those found: the dropped ones, all, or, whatever else is asked, the kept. */
  predicate Shown(a: Alphabet, req: Request, v: Verdict) {
    && Found(a, req, v)
    && (match v.kept
        case true => a.Lower(req.verdict) != "dropped"
        case false => a.Lower(req.verdict) == "dropped" || a.Lower(req.verdict) == "all")
  }

  ghost predicate Meant(a: Alphabet, req: Request, c: Choice, v: Verdict) {
    match c
    case AllListed => Shown(a, req, v)
    case AllKept => Found(a, req, v) && v.kept
    case AllDropped => Found(a, req, v) && !v.kept
  }

  lemma ChosenIsMeant(a: Alphabet, req: Request, c: Choice, v: Verdict)
    ensures Chosen(a, req, c, v) <==> Meant(a, req, c, v)
  {
    hide Contains, Holds, Alphabet.Lower, Alphabet.Trim;
    HoldsIsContains(a.Lower(v.name), a.Lower(a.Trim(req.query)));
    HoldsIsContains(a.Lower(v.group), a.Lower(a.Trim(req.query)));
  }

  ghost function MeantIn(a: Alphabet, vs: seq<Verdict>, req: Request, c: Choice): set<int> {
    set i | 0 <= i < |vs| && Meant(a, req, c, vs[i])
  }

  lemma OneMoreMeant(a: Alphabet, vs: seq<Verdict>, req: Request, c: Choice)
    requires vs != []
    ensures var n := |vs| - 1;
            |MeantIn(a, vs, req, c)| == |MeantIn(a, vs[..n], req, c)| + if Meant(a, req, c, vs[n]) then 1 else 0
  {
    hide Meant;
    var n := |vs| - 1;
    var now, before := MeantIn(a, vs, req, c), MeantIn(a, vs[..n], req, c);
    if Meant(a, req, c, vs[n]) {
      assert now == before + {n};
    } else {
      assert now == before;
    }
  }

  lemma {:induction false} ChoiceCount(a: Alphabet, vs: seq<Verdict>, req: Request, c: Choice)
    ensures |Choose(a, vs, req, c)| == |MeantIn(a, vs, req, c)|
  {
    if vs != [] {
      hide Chosen, Meant, MeantIn;
      var n := |vs| - 1;
      ChoiceCount(a, vs[..n], req, c);
      ChosenIsMeant(a, req, c, vs[n]);
      OneMoreMeant(a, vs, req, c);
    }
  }

  /** Rows stand in the order of the catalog. */
  lemma {:induction false} ChoiceAt(a: Alphabet, vs: seq<Verdict>, req: Request, c: Choice, i: nat)
    requires i < |vs| && Meant(a, req, c, vs[i])
    ensures var k := |MeantIn(a, vs[..i], req, c)|;
            k < |Choose(a, vs, req, c)| && Choose(a, vs, req, c)[k] == vs[i]
  {
    hide Chosen, Meant;
    var n := |vs| - 1;
    ChosenIsMeant(a, req, c, vs[n]);
    if i < n {
      ChoiceAt(a, vs[..n], req, c, i);
      assert vs[..n][..i] == vs[..i];
    } else {
      ChoiceCount(a, vs[..n], req, c);
    }
  }

  /** The number of pages: no more than are needed. */
  ghost predicate EnoughPages(total: nat, size: nat, last: nat) {
    total <= last * size && forall fewer: nat :: fewer < last ==> fewer * size < total
  }

  lemma LastIsEnough(total: nat, size: nat)
    requires size >= 1
    ensures EnoughPages(total, size, LastPage(total, size))
  {
    hide LastPage;
    LastPageHoldsTheLastRow(total, size);
    var last := LastPage(total, size);
    forall fewer: nat | fewer < last
      ensures fewer * size < total
    {
      Grows(fewer, last - 1, size);
    }
  }

  /** A page holds at most a thousand rows; a number below the first means the first
      and one past the last, when there is a row at all, the last. The counts are
      of what the search found. The row of a stream is on the page when the rows
      before it fill the pages before, and stands where they leave it. */
  lemma PageShows(a: Alphabet, vs: seq<Verdict>, req: Request, last: nat)
    requires |vs| + PAGE_SIZE < TWO_63
    requires EnoughPages(|MeantIn(a, vs, req, AllListed)|, if 1 <= req.size <= 1000 then req.size else 1000, last)
    ensures var p, total := PageFor(a, vs, req), |MeantIn(a, vs, req, AllListed)|;
            && p.total == total
            && p.kept == |MeantIn(a, vs, req, AllKept)| && p.dropped == |MeantIn(a, vs, req, AllDropped)|
            && p.size == (if 1 <= req.size <= 1000 then req.size else 1000)
            && p.page == (if req.page < 1 then 1 else if total > 0 && req.page > last then last else req.page)
            && var start := (p.page - 1) * p.size;
               && |p.items| == (if start >= total then 0 else if total - start < p.size then total - start else p.size)
               && forall i :: 0 <= i < |vs| && Shown(a, req, vs[i]) ==>
                    var k := |MeantIn(a, vs[..i], req, AllListed)| - start;
                    0 <= k < p.size ==> k < |p.items| && p.items[k] == vs[i]
  {
    hide Shown, Found, Choose, MeantIn, LastPage, EnoughPages;
    var size, total := SizeOf(req), |MeantIn(a, vs, req, AllListed)|;
    ChoiceCount(a, vs, req, AllListed);
    ChoiceCount(a, vs, req, AllKept);
    ChoiceCount(a, vs, req, AllDropped);
    LastIsEnough(total, size);
    OneNumberOfPages(total, size, last, LastPage(total, size));
    LastPageHoldsTheLastRow(total, size);
    PageStart(total, req.page, size);
    var p := PageFor(a, vs, req);
    Grows(0, p.page - 1, size);
    forall i | 0 <= i < |vs| && Shown(a, req, vs[i])
      ensures var k := |MeantIn(a, vs[..i], req, AllListed)| - (p.page - 1) * p.size;
              0 <= k < p.size ==> k < |p.items| && p.items[k] == vs[i]
    {
      ChoiceAt(a, vs, req, AllListed, i);
    }
  }

  lemma OneNumberOfPages(total: nat, size: nat, x: nat, y: nat)
    requires EnoughPages(total, size, x) && EnoughPages(total, size, y)
    ensures x == y
  {
    assert x < y ==> x * size < total;
    assert y < x ==> y * size < total;
  }
}
