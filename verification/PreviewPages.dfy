/** One page of a preview's verdicts. */
module PreviewPages {
  import opened Text
  import opened Reports

  const PAGE_SIZE := 1000

  const TWO_63 := 0x8000_0000_0000_0000
  const TWO_64 := 0x1_0000_0000_0000_0000

  /** The machine's int. */
  type Int = x: int | -TWO_63 <= x < TWO_63

  function Wrapped(x: int): Int {
    (x + TWO_63) % TWO_64 - TWO_63
  }

  datatype Request = Request(verdict: string, query: string, contentType: string, page: Int, size: Int)

  datatype Page = Page(total: nat, kept: nat, dropped: nat, page: Int, size: Int, items: seq<Verdict>)

  /** A slice expression with a negative bound stops the call. */
  datatype Answer = Answered(page: Page) | OutOfRange

  // ---- which verdicts ---------------------------------------------------------------------------

  /** The search: type and text, whatever the outcome. */
  predicate Searched(a: Alphabet, req: Request, v: Verdict) {
    && (a.Lower(a.Trim(req.contentType)) == "" || v.contentType == a.Lower(a.Trim(req.contentType)))
    && (a.Lower(a.Trim(req.query)) == "" || Contains(a.Lower(v.name), a.Lower(a.Trim(req.query)))
        || Contains(a.Lower(v.group), a.Lower(a.Trim(req.query))))
  }

  /** Anything but "dropped" and "all" lists what was kept. */
  predicate Listed(a: Alphabet, req: Request, v: Verdict) {
    && Searched(a, req, v)
    && var which := a.Lower(req.verdict);
       if v.kept then which != "dropped" else which == "dropped" || which == "all"
  }

  datatype Choice = AllListed | AllKept | AllDropped

  predicate Chosen(a: Alphabet, req: Request, c: Choice, v: Verdict) {
    match c
    case AllListed => Listed(a, req, v)
    case AllKept => Searched(a, req, v) && v.kept
    case AllDropped => Searched(a, req, v) && !v.kept
  }

  function Choose(a: Alphabet, vs: seq<Verdict>, req: Request, c: Choice): (r: seq<Verdict>)
    ensures |r| <= |vs|
    ensures forall v :: v in r <==> v in vs && Chosen(a, req, c, v)
  {
    if vs == [] then []
    else
      var n := |vs| - 1;
      assert vs == vs[..n] + [vs[n]];
      Choose(a, vs[..n], req, c) + if Chosen(a, req, c, vs[n]) then [vs[n]] else []
  }

  lemma ChooseStep(a: Alphabet, vs: seq<Verdict>, i: nat, req: Request, c: Choice)
    requires i < |vs|
    ensures Choose(a, vs[..i + 1], req, c) == Choose(a, vs[..i], req, c) + if Chosen(a, req, c, vs[i]) then [vs[i]] else []
  {
    assert vs[..i + 1][..i] == vs[..i];
  }

  // ---- which page -------------------------------------------------------------------------------

  function SizeOf(req: Request): (r: Int)
    ensures 1 <= r <= PAGE_SIZE
  {
    if req.size < 1 || req.size > PAGE_SIZE then PAGE_SIZE else req.size
  }

  function LastPage(total: nat, size: int): nat
    requires size >= 1
  {
    (total + size - 1) / size
  }

  /** The last page is the one the last row is on. */
  lemma LastPageHoldsTheLastRow(total: nat, size: int)
    requires size >= 1
    ensures total > 0 ==> 0 < LastPage(total, size) <= total
    ensures total > 0 ==> (LastPage(total, size) - 1) * size < total <= LastPage(total, size) * size
    ensures total == 0 ==> LastPage(total, size) == 0
  {
    var q, r := (total + size - 1) / size, (total + size - 1) % size;
    assert q * size + r == total + size - 1;
    assert (q - 1) * size == q * size - size;
    if total > 0 {
      if q <= 0 { Negative(q, size); assert false; }
      if q > total { TooFar(q, total, size); assert false; }
    } else if q > 0 {
      Grows(1, q, size);
    }
  }

  lemma Negative(x: int, y: int)
    requires x <= 0 && y >= 1
    ensures x * y <= 0
  {
  }

  lemma TooFar(q: int, total: int, size: int)
    requires q > total >= 0 && size >= 1
    ensures q * size >= total + size
  {
    Grows(total + 1, q, size);
    Grows(1, size, total);
    assert (total + 1) * size == total * size + size;
  }

  lemma Grows(x: int, y: int, z: int)
    requires x <= y && z >= 0
    ensures x * z <= y * z && z * x <= z * y
  {
  }

  /** A page below 1 is the first, one past the end the last; an empty list has no
      last page, so nothing bounds the number there. */
  function PageNumber(page: int, total: nat, size: int): int
    requires size >= 1
  {
    var p := if page < 1 then 1 else page;
    var last := LastPage(total, size);
    if last > 0 && p > last then last else p
  }

  function Clip(i: int, n: nat): nat {
    if i < 0 then 0 else if i > n then n else i
  }

  lemma ClipGrows(i: int, j: int, n: nat)
    requires i <= j
    ensures Clip(i, n) <= Clip(j, n) <= n
  {
  }

  function RowsFrom(xs: seq<Verdict>, at: int, size: nat): seq<Verdict> {
    ClipGrows(at, at + size, |xs|);
    xs[Clip(at, |xs|)..Clip(at + size, |xs|)]
  }

  /** The rows of one page, none past the end. */
  function Rows(xs: seq<Verdict>, page: int, size: nat): seq<Verdict> {
    RowsFrom(xs, (page - 1) * size, size)
  }

  lemma RowsFollow(xs: seq<Verdict>, at: nat, size: nat)
    ensures xs[..Clip(at, |xs|)] + RowsFrom(xs, at, size) == xs[..Clip(at + size, |xs|)]
  {
  }

  function PageFor(a: Alphabet, vs: seq<Verdict>, req: Request): Page
    requires |vs| + PAGE_SIZE < TWO_63
  {
    var matches := Choose(a, vs, req, AllListed);
    LastPageHoldsTheLastRow(|matches|, SizeOf(req));
    var page := PageNumber(req.page, |matches|, SizeOf(req));
    Page(|matches|, |Choose(a, vs, req, AllKept)|, |Choose(a, vs, req, AllDropped)|, page, SizeOf(req),
         Rows(matches, page, SizeOf(req)))
  }

  /** Where the machine's product comes out negative, on an empty list only. */
  predicate Overflows(a: Alphabet, vs: seq<Verdict>, req: Request) {
    var n := |Choose(a, vs, req, AllListed)|;
    n == 0 && Wrapped((PageNumber(req.page, n, SizeOf(req)) - 1) * SizeOf(req)) < 0
  }

  lemma PageStart(total: nat, page: int, size: int)
    requires size >= 1
    ensures total > 0 ==> 0 <= (PageNumber(page, total, size) - 1) * size < total
  {
    LastPageHoldsTheLastRow(total, size);
    if total > 0 {
      var p, last := PageNumber(page, total, size), LastPage(total, size);
      Grows(0, p - 1, size);
      Grows(p - 1, last - 1, size);
    }
  }

  lemma WrappedIsSame(x: int)
    requires -TWO_63 <= x < TWO_63
    ensures Wrapped(x) == x
  {
  }

  method PagePreviewVerdicts(a: Alphabet, verdicts: seq<Verdict>, req: Request) returns (answer: Answer)
    requires |verdicts| + PAGE_SIZE < TWO_63
    ensures answer == if Overflows(a, verdicts, req) then OutOfRange else Answered(PageFor(a, verdicts, req))
  {
    hide Choose, Wrapped, LastPage, PageNumber, Rows, Contains, Alphabet.Lower, Alphabet.Trim;
    var query := a.Lower(a.Trim(req.query));
    var wantType := a.Lower(a.Trim(req.contentType));
    var wantKept, wantDropped := true, false;
    var which := a.Lower(req.verdict);
    if which == "dropped" {
      wantKept, wantDropped := false, true;
    } else if which == "all" {
      wantDropped := true;
    }

    var kept: nat, dropped: nat, matches: seq<Verdict> := 0, 0, [];
    NothingChosen(a, verdicts, req);
    for i := 0 to |verdicts|
      invariant kept == |Choose(a, verdicts[..i], req, AllKept)|
      invariant dropped == |Choose(a, verdicts[..i], req, AllDropped)|
      invariant matches == Choose(a, verdicts[..i], req, AllListed)
    {
      var v := verdicts[i];
      ChooseStep(a, verdicts, i, req, AllKept);
      ChooseStep(a, verdicts, i, req, AllDropped);
      ChooseStep(a, verdicts, i, req, AllListed);
      if wantType != "" && v.contentType != wantType {
        continue;
      }
      if query != "" && !Contains(a.Lower(v.name), query) && !Contains(a.Lower(v.group), query) {
        continue;
      }
      if v.kept {
        kept := kept + 1;
      } else {
        dropped := dropped + 1;
      }
      if (v.kept && wantKept) || (!v.kept && wantDropped) {
        matches := matches + [v];
      }
    }
    assert verdicts[..|verdicts|] == verdicts;
    var page, size := Clamp(|matches|, req);
    var items := Cut(matches, page, size);
    answer := if items.None? then OutOfRange else Answered(Page(|matches|, kept, dropped, page, size, items.value));
  }

  lemma NothingChosen(a: Alphabet, vs: seq<Verdict>, req: Request)
    ensures forall c :: Choose(a, vs[..0], req, c) == []
  {
  }

  method Clamp(total: Int, req: Request) returns (page: Int, size: Int)
    requires 0 <= total < TWO_63 - PAGE_SIZE
    ensures size == SizeOf(req) && page == PageNumber(req.page, total, size)
    ensures 1 <= page && (total > 0 ==> 0 <= (page - 1) * size < total)
  {
    size := req.size;
    if size < 1 || size > PAGE_SIZE {
      size := PAGE_SIZE;
    }
    page := req.page;
    if page < 1 {
      page := 1;
    }
    LastPageHoldsTheLastRow(total, size);
    PageStart(total, req.page, size);
    var last := LastPage(total, size);
    if last > 0 && page > last {
      page := last;
    }
  }

  /** One page's slice, its start computed in machine arithmetic. */
  method Cut(matches: seq<Verdict>, page: Int, size: Int) returns (items: Option<seq<Verdict>>)
    requires |matches| + PAGE_SIZE < TWO_63 && 1 <= page && 1 <= size <= PAGE_SIZE
    requires matches != [] ==> 0 <= (page - 1) * size < |matches|
    ensures items == if matches == [] && Wrapped((page - 1) * size) < 0 then None else Some(Rows(matches, page, size))
  {
    hide Wrapped;
    var total := |matches|;
    ghost var at := (page - 1) * size;
    Grows(0, page - 1, size);
    var start := Wrapped((page - 1) * size);
    if total > 0 { WrappedIsSame(at); }
    assert Rows(matches, page, size) == RowsFrom(matches, at, size);
    items := Some([]);
    if start < total {
      if start < 0 {
        return None;
      }
      var end := start + size;
      if end > total {
        end := total;
      }
      items := Some(matches[start..end]);
    }
  }

  // ---- what paging promises -----------------------------------------------------------------------

  /** Pages 1 to n one after the other. */
  function PagesUpTo(a: Alphabet, vs: seq<Verdict>, req: Request, n: nat): seq<Verdict>
    requires |vs| + PAGE_SIZE < TWO_63 && n <= |vs|
  {
    if n == 0 then [] else PagesUpTo(a, vs, req, n - 1) + PageFor(a, vs, req.(page := n)).items
  }

  lemma {:induction false} PagesAreAPrefix(a: Alphabet, vs: seq<Verdict>, req: Request, n: nat)
    requires |vs| + PAGE_SIZE < TWO_63
    requires n <= LastPage(|Choose(a, vs, req, AllListed)|, SizeOf(req))
    ensures n <= |vs|
    ensures var matches := Choose(a, vs, req, AllListed);
            PagesUpTo(a, vs, req, n) == matches[..Clip(n * SizeOf(req), |matches|)]
  {
    hide Choose, LastPage, Clip, RowsFrom;
    var matches, size := Choose(a, vs, req, AllListed), SizeOf(req);
    LastPageHoldsTheLastRow(|matches|, size);
    if n == 0 {
      ClipZero(|matches|);
    } else {
      PagesAreAPrefix(a, vs, req, n - 1);
      SameSearch(a, vs, req, n);
      NumberInRange(n, |matches|, size);
      var at := (n - 1) * size;
      Grows(0, n - 1, size);
      assert n * size == at + size;
      assert PageFor(a, vs, req.(page := n)).items == RowsFrom(matches, at, size);
      RowsFollow(matches, at, size);
    }
  }

  lemma ClipZero(n: nat)
    ensures Clip(0, n) == 0
  {
  }

  lemma NumberInRange(page: int, total: nat, size: int)
    requires size >= 1 && 1 <= page <= LastPage(total, size)
    ensures PageNumber(page, total, size) == page
  {
  }

  /** The page asked for does not change what is listed. */
  lemma {:induction false} SameSearch(a: Alphabet, vs: seq<Verdict>, req: Request, page: Int)
    ensures forall c :: Choose(a, vs, req.(page := page), c) == Choose(a, vs, req, c)
    ensures SizeOf(req.(page := page)) == SizeOf(req)
  {
    if vs != [] {
      SameSearch(a, vs[..|vs| - 1], req, page);
    }
  }

  /** Pages 1 to the last are the listed verdicts, all of them, in order. */
  lemma PagesPartition(a: Alphabet, vs: seq<Verdict>, req: Request)
    requires |vs| + PAGE_SIZE < TWO_63
    ensures var matches := Choose(a, vs, req, AllListed);
            var last := LastPage(|matches|, SizeOf(req));
            last <= |vs| && PagesUpTo(a, vs, req, last) == matches
  {
    hide Choose, LastPage, PagesUpTo;
    var matches, size := Choose(a, vs, req, AllListed), SizeOf(req);
    LastPageHoldsTheLastRow(|matches|, size);
    PagesAreAPrefix(a, vs, req, LastPage(|matches|, size));
    assert matches[..|matches|] == matches;
  }

  /** Whatever page is asked for, a list with rows answers with rows, as many as
      fit, and with a page number that exists. */
  lemma PagesNeverStrand(a: Alphabet, vs: seq<Verdict>, req: Request)
    requires |vs| + PAGE_SIZE < TWO_63
    ensures var page := PageFor(a, vs, req);
            page.total > 0 ==>
              && !Overflows(a, vs, req)
              && 1 <= page.page <= LastPage(page.total, page.size)
              && 0 < |page.items| <= page.size
              && (page.page < LastPage(page.total, page.size) ==> |page.items| == page.size)
  {
    hide Choose, LastPage;
    var n, size := |Choose(a, vs, req, AllListed)|, SizeOf(req);
    LastPageHoldsTheLastRow(n, size);
    PageStart(n, req.page, size);
    var p := PageNumber(req.page, n, size);
    if n > 0 && p < LastPage(n, size) {
      Grows(p, LastPage(n, size) - 1, size);
      assert p * size == (p - 1) * size + size;
    }
  }

  /** The total is the kept, the dropped or both, by the verdict asked for. */
  lemma {:induction false} TotalIsCounted(a: Alphabet, vs: seq<Verdict>, req: Request)
    ensures |Choose(a, vs, req, AllListed)| ==
            if a.Lower(req.verdict) == "all" then |Choose(a, vs, req, AllKept)| + |Choose(a, vs, req, AllDropped)|
            else if a.Lower(req.verdict) == "dropped" then |Choose(a, vs, req, AllDropped)|
            else |Choose(a, vs, req, AllKept)|
  {
    hide Contains;
    if vs != [] {
      TotalIsCounted(a, vs[..|vs| - 1], req);
    }
  }

  /** The counts belong to the search, whichever verdict is listed. */
  lemma {:induction false} CountsIgnoreTheVerdict(a: Alphabet, vs: seq<Verdict>, req: Request, verdict: string)
    ensures forall c :: c != AllListed ==> Choose(a, vs, req.(verdict := verdict), c) == Choose(a, vs, req, c)
  {
    if vs != [] {
      CountsIgnoreTheVerdict(a, vs[..|vs| - 1], req, verdict);
    }
  }

  /** With nothing to list, a page is answered, empty and under its own number, as
      long as the start of the page is a machine number. */
  lemma EmptySearchAnswers(a: Alphabet, vs: seq<Verdict>, req: Request)
    requires |vs| + PAGE_SIZE < TWO_63 && Choose(a, vs, req, AllListed) == []
    ensures (req.page - 1) * SizeOf(req) < TWO_63 ==> !Overflows(a, vs, req)
    ensures PageFor(a, vs, req).items == [] && PageFor(a, vs, req).page == if req.page < 1 then 1 else req.page
  {
    hide Choose;
    LastPageHoldsTheLastRow(0, SizeOf(req));
    if (req.page - 1) * SizeOf(req) < TWO_63 && req.page >= 1 {
      Grows(0, req.page - 1, SizeOf(req));
      WrappedIsSame((req.page - 1) * SizeOf(req));
    }
  }

  /** And there are page numbers for which it is not answered. */
  lemma EmptySearchOverflows(a: Alphabet, req: Request)
    requires req.page - 1 == TWO_63 / 2 && req.size == 2
    ensures Overflows(a, [], req)
  {
    LastPageHoldsTheLastRow(0, 2);
    assert (req.page - 1) * 2 == TWO_63;
  }
}
