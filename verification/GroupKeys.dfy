/** The canonical form of a group label, and the browser's copy of it. */
module GroupKeys {
  import opened Text
  import opened Config

  /** The words of a key are the lower-cased words of the label. */
  lemma KeyWords(a: Alphabet, name: string)
    requires a.Lawful()
    ensures a.Fields(GroupKey(a, name)) == a.Fields(a.Lower(name))
  {
    FieldsAreWords(a, a.Lower(name));
    FieldsOfJoin(a, a.Fields(a.Lower(name)), ' ');
  }

  lemma GroupKeyIdempotent(a: Alphabet, name: string)
    requires a.Lawful()
    ensures GroupKey(a, GroupKey(a, name)) == GroupKey(a, name)
  {
    KeyWords(a, name);
    FieldsOfLower(a, name);
    FieldsOfLower(a, GroupKey(a, name));
    var ws := a.Fields(name);
    forall i | 0 <= i < |ws|
      ensures a.LowerAll(a.LowerAll(ws))[i] == a.LowerAll(ws)[i]
    {
      LowerTwice(a, ws[i]);
    }
    assert a.LowerAll(a.LowerAll(ws)) == a.LowerAll(ws);
  }

  /** Two labels name the same group exactly when their lower-cased words agree. */
  lemma SameKeyIffSameWords(a: Alphabet, x: string, y: string)
    requires a.Lawful()
    ensures GroupKey(a, x) == GroupKey(a, y) <==> a.LowerAll(a.Fields(x)) == a.LowerAll(a.Fields(y))
  {
    KeyWords(a, x);
    KeyWords(a, y);
    FieldsOfLower(a, x);
    FieldsOfLower(a, y);
  }

  lemma {:induction false} FieldsOfTrimLeft(a: Alphabet, s: string)
    ensures a.Fields(a.TrimLeft(s)) == a.Fields(s)
  {
    if s != [] && a.space(s[0]) { FieldsOfTrimLeft(a, s[1..]); }
  }

  lemma {:induction false} FieldsOfSpaceEnd(a: Alphabet, s: string, c: char)
    requires a.space(c)
    ensures a.Fields(s + [c]) == a.Fields(s)
    decreases |s|
  {
    if s == [] {
      assert (s + [c])[1..] == [];
    } else if a.space(s[0]) {
      assert (s + [c])[1..] == s[1..] + [c];
      FieldsOfSpaceEnd(a, s[1..], c);
    } else {
      var n := a.WordLength(s);
      assert forall i :: 0 <= i < |s| ==> (s + [c])[i] == s[i];
      assert a.space((s + [c])[n]);
      assert a.WordLength(s + [c]) == n;
      assert (s + [c])[..n] == s[..n] && (s + [c])[n..] == s[n..] + [c];
      FieldsOfSpaceEnd(a, s[n..], c);
    }
  }

  lemma {:induction false} FieldsOfTrimRight(a: Alphabet, s: string)
    ensures a.Fields(a.TrimRight(s)) == a.Fields(s)
  {
    if s != [] && a.space(s[|s| - 1]) {
      FieldsOfTrimRight(a, s[..|s| - 1]);
      assert s == s[..|s| - 1] + [s[|s| - 1]];
      FieldsOfSpaceEnd(a, s[..|s| - 1], s[|s| - 1]);
    }
  }

  lemma FieldsOfTrim(a: Alphabet, s: string)
    ensures a.Fields(a.Trim(s)) == a.Fields(s)
  {
    FieldsOfTrimLeft(a, s);
    FieldsOfTrimRight(a, a.TrimLeft(s));
  }

  lemma KeyOfTrim(a: Alphabet, s: string)
    requires a.Lawful()
    ensures GroupKey(a, a.Trim(s)) == GroupKey(a, s)
  {
    LowerOfTrim(a, s);
    FieldsOfTrim(a, a.Lower(s));
  }

  // ---- the browser's key -----------------------------------------------------

  /** Splitting at every run of whitespace; a run at either end leaves a blank
      piece there. */
  function SplitRuns(a: Alphabet, s: string): seq<string>
    decreases |s|
  {
    var n := a.WordLength(s);
    if n == |s| then [s] else [s[..n]] + SplitRuns(a, a.TrimLeft(s[n + 1..]))
  }

  /** Lower-case, trim, split, drop blank pieces, join. */
  function BrowserKey(a: Alphabet, name: string): string {
    Join(NonBlank(SplitRuns(a, a.Trim(a.Lower(name)))), " ")
  }

  lemma {:induction false} NonBlankPiecesAreFields(a: Alphabet, s: string)
    ensures NonBlank(SplitRuns(a, s)) == a.Fields(s)
    decreases |s|
  {
    var n := a.WordLength(s);
    if n == |s| {
      assert s[..n] == s && s[n..] == [];
      assert [s][1..] == [];
    } else {
      var rest := a.TrimLeft(s[n + 1..]);
      NonBlankPiecesAreFields(a, rest);
      FieldsOfTrimLeft(a, s[n + 1..]);
      assert s[n..][1..] == s[n + 1..];
      assert ([s[..n]] + SplitRuns(a, rest))[1..] == SplitRuns(a, rest);
    }
  }

  /** Over one alphabet the browser and the server compute the same key. */
  lemma BrowserKeyAgrees(a: Alphabet, name: string)
    ensures BrowserKey(a, name) == GroupKey(a, name)
  {
    NonBlankPiecesAreFields(a, a.Trim(a.Lower(name)));
    FieldsOfTrim(a, a.Lower(name));
  }
}
