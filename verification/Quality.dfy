/** The quality stage: of the variants of one channel that survived every
    earlier stage, only those of the best quality present stay. */
module Quality {
  import opened Text
  import opened Config
  import opened Stages

  const STAGE_RULE := "rule"
  const STAGE_DEFAULT := "default"
  const STAGE_GROUP := "group"
  const STAGE_TYPE := "type"
  const STAGE_PATTERN := "pattern"
  const STAGE_QUALITY := "quality"

  const SEPARATORS := " -|[]()/:·"

  /** One stream's verdict while a pass is in flight. */
  datatype Outcome = Outcome(stream: Stream, group: string, groupKey: string, contentType: string,
                             keep: bool, stage: string, rule: nat)

  /** The first tier whose marker the name carries, -1 for none. */
  ghost function TierOf(e: Engine, tiers: seq<string>, name: string): (k: int)
    ensures -1 <= k < |tiers|
    ensures k == -1 ==> forall j :: 0 <= j < |tiers| ==> e.find(tiers[j], name).None?
    ensures k >= 0 ==> e.find(tiers[k], name).Some? && forall j :: 0 <= j < k ==> e.find(tiers[j], name).None?
  {
    TierFrom(e, tiers, name, 0)
  }

  ghost function TierFrom(e: Engine, tiers: seq<string>, name: string, i: nat): (k: int)
    requires i <= |tiers|
    ensures -1 <= k < |tiers|
    ensures k == -1 ==> forall j :: i <= j < |tiers| ==> e.find(tiers[j], name).None?
    ensures k >= 0 ==> i <= k && e.find(tiers[k], name).Some? && forall j :: i <= j < k ==> e.find(tiers[j], name).None?
    decreases |tiers| - i
  {
    if i == |tiers| then -1
    else if e.find(tiers[i], name).Some? then i
    else TierFrom(e, tiers, name, i + 1)
  }

  /** The name without its marker: lower-cased, spacing collapsed, stray
      separators trimmed. */
  function BaseName(a: Alphabet, name: string, lo: nat, hi: nat): string
    requires lo <= hi <= |name|
  {
    TrimSet(Join(a.Fields(a.Lower(name[..lo] + " " + name[hi..])), " "), SEPARATORS)
  }

  ghost predicate Marked(e: Engine, tiers: seq<string>, name: string) {
    TierOf(e, tiers, name) >= 0
  }

  ghost function Base(e: Engine, tiers: seq<string>, name: string): string
    requires e.Lawful() && Marked(e, tiers, name)
  {
    var span := e.find(tiers[TierOf(e, tiers, name)], name).value;
    BaseName(e.alphabet, name, span.0, span.1)
  }

  /** The words of a name without its marker, in lower case. */
  ghost function Remainder(e: Engine, tiers: seq<string>, name: string): string
    requires e.Lawful() && Marked(e, tiers, name)
  {
    var span := e.find(tiers[TierOf(e, tiers, name)], name).value;
    Join(e.alphabet.LowerAll(e.alphabet.Fields(name[..span.0] + " " + name[span.1..])), " ")
  }

  /** The text is the core, separators at its ends aside. */
  ghost predicate HasCore(text: string, core: string) {
    && CleanEnds(core, " -|[]()/:·")
    && exists pre, post {:trigger pre + core + post} ::
         text == pre + core + post && AllIn(pre, " -|[]()/:·") && AllIn(post, " -|[]()/:·")
  }

  /** A base is the core of what remains of the name, and every remainder has one
      core only: case, spacing and separators at the ends are all that two names
      of one base may differ in. */
  lemma BaseIsCore(e: Engine, tiers: seq<string>, name: string, core: string)
    requires e.Lawful() && Marked(e, tiers, name)
    ensures HasCore(Remainder(e, tiers, name), core) <==> Base(e, tiers, name) == core
    ensures forall c :: c in Base(e, tiers, name) ==> c == ' ' || e.alphabet.lower(c) == c
  {
    var a, span := e.alphabet, e.find(tiers[TierOf(e, tiers, name)], name).value;
    var rest := name[..span.0] + " " + name[span.1..];
    FieldsOfLower(a, rest);
    var text := Remainder(e, tiers, name);
    assert Base(e, tiers, name) == TrimSet(text, SEPARATORS);
    var pre, post := TrimSetLeaves(text, SEPARATORS);
    if HasCore(text, core) {
      var p, q :| text == p + core + q && AllIn(p, " -|[]()/:·") && AllIn(q, " -|[]()/:·");
      TrimSetStrips(p, core, q, SEPARATORS);
    }
    LowerWordsAreLower(a, a.Fields(rest));
    forall c | c in TrimSet(text, SEPARATORS)
      ensures c == ' ' || a.lower(c) == c
    {
      assert c in pre + TrimSet(text, SEPARATORS) + post;
    }
  }

  lemma {:induction false} LowerWordsAreLower(a: Alphabet, ws: seq<string>)
    requires a.Lawful()
    ensures forall c :: c in Join(a.LowerAll(ws), " ") ==> c == ' ' || a.lower(c) == c
  {
    if |ws| > 1 {
      assert a.LowerAll(ws)[1..] == a.LowerAll(ws[1..]);
      LowerWordsAreLower(a, ws[1..]);
    }
  }

  method QualityRank(e: Engine, f: CompiledFilter, name: string) returns (rank: int, base: string, ok: bool)
    requires e.Lawful()
    ensures ok == Marked(e, f.qualityTiers, name)
    ensures ok ==> rank == TierOf(e, f.qualityTiers, name) && base == Base(e, f.qualityTiers, name)
  {
    for i := 0 to |f.qualityTiers|
      invariant forall j :: 0 <= j < i ==> e.find(f.qualityTiers[j], name).None?
    {
      var loc := e.find(f.qualityTiers[i], name);
      if loc.Some? {
        return i, BaseName(e.alphabet, name, loc.value.0, loc.value.1), true;
      }
    }
    return 0, "", false;
  }

  // ---- variants ------------------------------------------------------------------

  function VariantKey(contentType: string, base: string): string {
    contentType + [0 as char] + base
  }

  /** The key separates type and base as long as no type holds the separator,
      which none of the three names does. */
  lemma VariantKeyInjective(t: string, u: string, b: string, c: string)
    requires Free(t, 0 as char) && Free(u, 0 as char)
    ensures VariantKey(t, b) == VariantKey(u, c) <==> t == u && b == c
  {
    if VariantKey(t, b) == VariantKey(u, c) {
      UniqueCut(t, u, b, c, 0 as char);
    }
  }

  /** What the stage compares of one stream: whether it is still kept, its
      resolved type and its name. */
  datatype Entrant = Entrant(kept: bool, contentType: string, name: string)

  ghost predicate Contends(e: Engine, tiers: seq<string>, x: Entrant) {
    x.kept && Marked(e, tiers, x.name)
  }

  datatype Mark = Mark(rank: int, key: string)

  /** The mark of one entrant: rank -1 for one that does not contend. */
  ghost function MarkOf(e: Engine, tiers: seq<string>, x: Entrant): Mark
    requires e.Lawful()
  {
    if Contends(e, tiers, x)
    then Mark(TierOf(e, tiers, x.name), VariantKey(x.contentType, Base(e, tiers, x.name)))
    else Mark(-1, "")
  }

  ghost function MarksOf(e: Engine, tiers: seq<string>, xs: seq<Entrant>): (r: seq<Mark>)
    requires e.Lawful()
    ensures |r| == |xs| && forall i :: 0 <= i < |r| ==> r[i] == MarkOf(e, tiers, xs[i])
  {
    seq(|xs|, i requires 0 <= i < |xs| => MarkOf(e, tiers, xs[i]))
  }

  ghost predicate Beats(m: Mark, n: Mark) {
    0 <= m.rank < n.rank && m.key == n.key
  }

  ghost predicate Beaten(marks: seq<Mark>, i: nat)
    requires i < |marks|
  {
    exists j :: 0 <= j < |marks| && Beats(marks[j], marks[i])
  }

  ghost function CountBeaten(marks: seq<Mark>, n: nat): nat
    requires n <= |marks|
  {
    if n == 0 then 0 else CountBeaten(marks, n - 1) + if Beaten(marks, n - 1) then 1 else 0
  }

  /** x outranks y: both are kept variants of one channel of one content type,
      and x carries the marker of a better tier. */
  ghost predicate Outranks(e: Engine, tiers: seq<string>, x: Entrant, y: Entrant)
    requires e.Lawful()
  {
    && Contends(e, tiers, x) && Contends(e, tiers, y)
    && x.contentType == y.contentType
    && Base(e, tiers, x.name) == Base(e, tiers, y.name)
    && TierOf(e, tiers, x.name) < TierOf(e, tiers, y.name)
  }

  lemma BeatsMeansOutranks(e: Engine, tiers: seq<string>, x: Entrant, y: Entrant)
    requires e.Lawful()
    requires Free(x.contentType, 0 as char) && Free(y.contentType, 0 as char)
    ensures Beats(MarkOf(e, tiers, x), MarkOf(e, tiers, y)) <==> Outranks(e, tiers, x, y)
  {
    if Contends(e, tiers, x) && Contends(e, tiers, y) {
      VariantKeyInjective(x.contentType, y.contentType, Base(e, tiers, x.name), Base(e, tiers, y.name));
    }
  }

  /** A beaten stream has a better variant that is itself not beaten. */
  lemma {:induction false} BestSurvives(marks: seq<Mark>, i: nat) returns (j: nat)
    requires i < |marks| && Beaten(marks, i)
    ensures j < |marks| && Beats(marks[j], marks[i]) && !Beaten(marks, j)
    decreases marks[i].rank
  {
    j :| 0 <= j < |marks| && Beats(marks[j], marks[i]);
    if Beaten(marks, j) {
      j := BestSurvives(marks, j);
    }
  }

  /** Every channel with a contending variant keeps one. */
  lemma EveryChannelStays(marks: seq<Mark>, i: nat)
    requires i < |marks| && marks[i].rank >= 0
    ensures exists j :: 0 <= j < |marks| && marks[j].key == marks[i].key && marks[j].rank >= 0 && !Beaten(marks, j)
  {
    if Beaten(marks, i) {
      var j := BestSurvives(marks, i);
    }
  }

  // ---- the stage -------------------------------------------------------------------

  ghost function EntrantOf(o: Outcome): Entrant {
    Entrant(o.keep, o.contentType, o.stream.name)
  }

  ghost function Entrants(os: seq<Outcome>): (r: seq<Entrant>)
    ensures |r| == |os| && forall i :: 0 <= i < |os| ==> r[i] == EntrantOf(os[i])
  {
    seq(|os|, i requires 0 <= i < |os| => EntrantOf(os[i]))
  }

  /** best holds, for each key seen, the lowest rank seen under it. */
  ghost predicate IsBest(best: map<string, int>, marks: seq<Mark>) {
    && (forall j :: 0 <= j < |marks| && marks[j].rank >= 0 ==> marks[j].key in best && best[marks[j].key] <= marks[j].rank)
    && (forall k :: k in best ==> exists j :: 0 <= j < |marks| && marks[j] == Mark(best[k], k) && marks[j].rank >= 0)
  }

  lemma NothingIsBest()
    ensures IsBest(map[], [])
  {
  }

  method MarkAll(e: Engine, f: CompiledFilter, outcomes: array<Outcome>) returns (marks: seq<Mark>, best: map<string, int>)
    requires e.Lawful()
    ensures |marks| == outcomes.Length
    ensures forall j :: 0 <= j < |marks| ==> marks[j] == MarkOf(e, f.qualityTiers, EntrantOf(outcomes[j]))
    ensures IsBest(best, marks)
  {
    hide Base, BaseName, TierOf, TierFrom, VariantKey, IsBest;
    NothingIsBest();
    marks, best := [], map[];
    for i := 0 to outcomes.Length
      invariant |marks| == i
      invariant forall j :: 0 <= j < i ==> marks[j] == MarkOf(e, f.qualityTiers, EntrantOf(outcomes[j]))
      invariant IsBest(best, marks)
    {
      var o := outcomes[i];
      var mark := Mark(-1, "");
      if o.keep {
        var rank, base, ok := QualityRank(e, f, o.stream.name);
        if ok {
          mark := Mark(rank, VariantKey(o.contentType, base));
        }
      }
      best := NoteMark(best, marks, mark);
      marks := marks + [mark];
    }
  }

  method NoteMark(best: map<string, int>, ghost marks: seq<Mark>, mark: Mark) returns (best': map<string, int>)
    requires IsBest(best, marks)
    ensures IsBest(best', marks + [mark])
  {
    best' := best;
    if mark.rank >= 0 && (mark.key !in best || mark.rank < best[mark.key]) {
      best' := best[mark.key := mark.rank];
    }
    ghost var all := marks + [mark];
    forall k | k in best'
      ensures exists j :: 0 <= j < |all| && all[j] == Mark(best'[k], k) && all[j].rank >= 0
    {
      if k in best && best'[k] == best[k] {
        var j :| 0 <= j < |marks| && marks[j] == Mark(best[k], k) && marks[j].rank >= 0;
        assert all[j] == marks[j];
      } else {
        assert all[|marks|] == mark;
      }
    }
  }

  lemma BeatenByBest(marks: seq<Mark>, best: map<string, int>, i: nat)
    requires i < |marks| && IsBest(best, marks)
    ensures marks[i].rank >= 0 ==> marks[i].key in best
    ensures Beaten(marks, i) <==> marks[i].rank >= 0 && best[marks[i].key] < marks[i].rank
  {
    if marks[i].rank >= 0 && best[marks[i].key] < marks[i].rank {
      var k := marks[i].key;
      var j :| 0 <= j < |marks| && marks[j] == Mark(best[k], k) && marks[j].rank >= 0;
      assert Beats(marks[j], marks[i]);
    }
  }

  ghost function Dropped(o: Outcome): Outcome {
    o.(keep := false, stage := STAGE_QUALITY)
  }

  lemma {:induction false} NoContenderNoneBeaten(marks: seq<Mark>, n: nat)
    requires n <= |marks| && forall i :: 0 <= i < |marks| ==> marks[i].rank < 0
    ensures CountBeaten(marks, n) == 0
    ensures forall i :: 0 <= i < n ==> !Beaten(marks, i)
  {
    if n > 0 { NoContenderNoneBeaten(marks, n - 1); }
  }

  /** Drops, among the outcomes still kept, exactly the beaten ones. */
  method ApplyQualityDedupe(e: Engine, f: CompiledFilter, outcomes: array<Outcome>) returns (dropped: nat)
    requires e.Lawful()
    modifies outcomes
    ensures var marks := MarksOf(e, f.qualityTiers, Entrants(old(outcomes[..])));
            && (forall i :: 0 <= i < outcomes.Length ==>
                  outcomes[i] == if Beaten(marks, i) then Dropped(old(outcomes[i])) else old(outcomes[i]))
            && dropped == CountBeaten(marks, outcomes.Length)
  {
    ghost var all := MarksOf(e, f.qualityTiers, Entrants(outcomes[..]));
    if |f.qualityTiers| == 0 {
      NoContenderNoneBeaten(all, outcomes.Length);
      return 0;
    }
    var marks, best := MarkAll(e, f, outcomes);
    assert marks == all;
    dropped := DropBeaten(outcomes, marks, best);
  }

  method DropBeaten(outcomes: array<Outcome>, marks: seq<Mark>, best: map<string, int>) returns (dropped: nat)
    requires |marks| == outcomes.Length && IsBest(best, marks)
    modifies outcomes
    ensures forall i :: 0 <= i < outcomes.Length ==>
              outcomes[i] == if Beaten(marks, i) then Dropped(old(outcomes[i])) else old(outcomes[i])
    ensures dropped == CountBeaten(marks, outcomes.Length)
  {
    dropped := 0;
    for i := 0 to outcomes.Length
      invariant forall j :: 0 <= j < i ==>
                  outcomes[j] == if Beaten(marks, j) then Dropped(old(outcomes[j])) else old(outcomes[j])
      invariant forall j :: i <= j < outcomes.Length ==> outcomes[j] == old(outcomes[j])
      invariant dropped == CountBeaten(marks, i)
    {
      BeatenByBest(marks, best, i);
      var m := marks[i];
      if m.rank >= 0 && m.rank > best[m.key] {
        outcomes[i] := outcomes[i].(keep := false, stage := STAGE_QUALITY);
        dropped := dropped + 1;
      }
    }
  }
}
