/** Strings as the filters read them: a case table, a whitespace table and the
    library operations built from the two. The tables are parameters, so every
    statement holds for any alphabet that satisfies `Lawful`. */
module Text {
  datatype Option<+T> = None | Some(value: T)

  /** The two character tables: simple lower-casing and whitespace. */
  datatype Alphabet = Alphabet(lower: char -> char, space: char -> bool) {
    /** What the tables of Unicode guarantee and the proofs rely on. */
    ghost predicate Lawful() {
      && space(' ')
      && (forall c :: 'a' <= c <= 'z' ==> lower(c) == c && !space(c))
      && (forall c :: lower(lower(c)) == lower(c))
      && (forall c :: space(lower(c)) == space(c))
    }

    function Lower(s: string): (r: string)
      ensures |r| == |s|
      ensures forall i :: 0 <= i < |s| ==> r[i] == lower(s[i])
    {
      seq(|s|, i requires 0 <= i < |s| => lower(s[i]))
    }

    function TrimLeft(s: string): (r: string)
      ensures |r| <= |s|
    {
      if s != [] && space(s[0]) then TrimLeft(s[1..]) else s
    }

    function TrimRight(s: string): string {
      if s != [] && space(s[|s| - 1]) then TrimRight(s[..|s| - 1]) else s
    }

    function Trim(s: string): string {
      TrimRight(TrimLeft(s))
    }

    /** The length of the run of non-space characters s starts with. */
    function WordLength(s: string): (n: nat)
      ensures n <= |s|
      ensures forall i :: 0 <= i < n ==> !space(s[i])
      ensures n < |s| ==> space(s[n])
    {
      if s == [] || space(s[0]) then 0 else 1 + WordLength(s[1..])
    }

    /** The words of s: its maximal runs of non-space characters, in order. */
    function Fields(s: string): seq<string>
      decreases |s|
    {
      if s == [] then []
      else if space(s[0]) then Fields(s[1..])
      else
        var n := WordLength(s);
        [s[..n]] + Fields(s[n..])
    }

    ghost predicate IsWord(s: string) {
      s != [] && forall i :: 0 <= i < |s| ==> !space(s[i])
    }

    ghost predicate AreWords(ws: seq<string>) {
      forall i :: 0 <= i < |ws| ==> IsWord(ws[i])
    }

    function LowerAll(ws: seq<string>): (r: seq<string>)
      ensures |r| == |ws|
      ensures forall i :: 0 <= i < |ws| ==> r[i] == Lower(ws[i])
    {
      seq(|ws|, i requires 0 <= i < |ws| => Lower(ws[i]))
    }
  }

  /** The pieces with sep between each two of them. */
  function Join(ws: seq<string>, sep: string): string {
    if |ws| == 0 then ""
    else if |ws| == 1 then ws[0]
    else ws[0] + sep + Join(ws[1..], sep)
  }

  function NonBlank(ws: seq<string>): seq<string> {
    if ws == [] then [] else (if ws[0] == "" then [] else [ws[0]]) + NonBlank(ws[1..])
  }

  predicate Contains(s: string, sub: string) {
    exists i {:trigger s[i..]} :: 0 <= i <= |s| && sub <= s[i..]
  }

  /** Removes the characters of cutset from both ends of s. */
  function TrimSet(s: string, cutset: string): string
    decreases |s|
  {
    if s != [] && s[0] in cutset then TrimSet(s[1..], cutset)
    else if s != [] && s[|s| - 1] in cutset then TrimSet(s[..|s| - 1], cutset)
    else s
  }

  predicate AllIn(s: string, cutset: string) {
    forall c :: c in s ==> c in cutset
  }

  /** Neither end is a character of cutset. */
  predicate CleanEnds(s: string, cutset: string) {
    s != [] ==> s[0] !in cutset && s[|s| - 1] !in cutset
  }

  /** Trimming takes whatever of cutset stands at the ends, all of it. */
  lemma {:induction false} TrimSetStrips(pre: string, core: string, post: string, cutset: string)
    requires AllIn(pre, cutset) && AllIn(post, cutset) && CleanEnds(core, cutset)
    ensures TrimSet(pre + core + post, cutset) == core
    decreases |pre| + |post|, |post|
  {
    var s := pre + core + post;
    if pre != [] {
      assert s[0] == pre[0] && s[1..] == pre[1..] + core + post;
      TrimSetStrips(pre[1..], core, post, cutset);
    } else if post == [] {
      assert s == core;
    } else if core == [] {
      assert s == post + core + [];
      TrimSetStrips(post, core, [], cutset);
    } else {
      var n := |post| - 1;
      assert s[0] == core[0] && s[|s| - 1] == post[n] && s[..|s| - 1] == pre + core + post[..n];
      TrimSetStrips(pre, core, post[..n], cutset);
    }
  }

  /** And nothing else. */
  lemma {:induction false} TrimSetLeaves(s: string, cutset: string) returns (pre: string, post: string)
    ensures AllIn(pre, cutset) && AllIn(post, cutset) && CleanEnds(TrimSet(s, cutset), cutset)
    ensures s == pre + TrimSet(s, cutset) + post
    decreases |s|
  {
    if s != [] && s[0] in cutset {
      pre, post := TrimSetLeaves(s[1..], cutset);
      assert s == [s[0]] + pre + TrimSet(s[1..], cutset) + post by { assert s == [s[0]] + s[1..]; }
      pre := [s[0]] + pre;
    } else if s != [] && s[|s| - 1] in cutset {
      var n := |s| - 1;
      pre, post := TrimSetLeaves(s[..n], cutset);
      assert s == pre + TrimSet(s[..n], cutset) + (post + [s[n]]) by { assert s == s[..n] + [s[n]]; }
      post := post + [s[n]];
    } else {
      pre, post := [], [];
    }
  }

  // ---- words -------------------------------------------------------------

  lemma {:induction false} FieldsAreWords(a: Alphabet, s: string)
    ensures a.AreWords(a.Fields(s))
    decreases |s|
  {
    if s == [] {
    } else if a.space(s[0]) {
      FieldsAreWords(a, s[1..]);
    } else {
      FieldsAreWords(a, s[a.WordLength(s)..]);
    }
  }

  lemma {:induction false} FieldsOfWordThen(a: Alphabet, w: string, c: char, rest: string)
    requires a.IsWord(w) && a.space(c)
    ensures a.Fields(w + [c] + rest) == [w] + a.Fields(rest)
  {
    var s := w + [c] + rest;
    var n := a.WordLength(s);
    assert s[|w|] == c;
    assert forall i :: 0 <= i < |w| ==> s[i] == w[i];
    assert n == |w|;
    assert s[..n] == w && s[n..] == [c] + rest;
    assert ([c] + rest)[1..] == rest;
  }

  lemma {:induction false} FieldsOfWord(a: Alphabet, w: string)
    requires a.IsWord(w)
    ensures a.Fields(w) == [w]
  {
    assert a.WordLength(w) == |w|;
    assert w[..|w|] == w && w[|w|..] == [];
  }

  /** Splitting the joined words gives the words back. */
  lemma {:induction false} FieldsOfJoin(a: Alphabet, ws: seq<string>, c: char)
    requires a.AreWords(ws) && a.space(c)
    ensures a.Fields(Join(ws, [c])) == ws
  {
    if |ws| == 0 {
    } else if |ws| == 1 {
      FieldsOfWord(a, ws[0]);
    } else {
      FieldsOfJoin(a, ws[1..], c);
      FieldsOfWordThen(a, ws[0], c, Join(ws[1..], [c]));
    }
  }

  lemma {:induction false} WordLengthOfLower(a: Alphabet, s: string)
    requires a.Lawful()
    ensures a.WordLength(a.Lower(s)) == a.WordLength(s)
  {
    if s != [] && !a.space(s[0]) {
      assert a.Lower(s)[1..] == a.Lower(s[1..]);
      WordLengthOfLower(a, s[1..]);
    }
  }

  lemma {:induction false} FieldsOfLower(a: Alphabet, s: string)
    requires a.Lawful()
    ensures a.Fields(a.Lower(s)) == a.LowerAll(a.Fields(s))
    decreases |s|
  {
    if s == [] {
    } else if a.space(s[0]) {
      assert a.Lower(s)[1..] == a.Lower(s[1..]);
      FieldsOfLower(a, s[1..]);
    } else {
      var n := a.WordLength(s);
      WordLengthOfLower(a, s);
      assert a.Lower(s)[..n] == a.Lower(s[..n]);
      assert a.Lower(s)[n..] == a.Lower(s[n..]);
      FieldsOfLower(a, s[n..]);
    }
  }

  lemma LowerTwice(a: Alphabet, s: string)
    requires a.Lawful()
    ensures a.Lower(a.Lower(s)) == a.Lower(s)
  {
  }

  // ---- trimming ----------------------------------------------------------

  /** Trim removes exactly the spaces at the two ends. */
  lemma {:induction false} TrimSpec(a: Alphabet, s: string)
    ensures exists i, j :: 0 <= i <= j <= |s| && a.Trim(s) == s[i..j]
              && (forall k :: 0 <= k < i || j <= k < |s| ==> a.space(s[k]))
              && (i < j ==> !a.space(s[i]) && !a.space(s[j - 1]))
  {
    var i := TrimLeftAt(a, s);
    var t := s[i..];
    var n := TrimRightAt(a, t);
    var j := i + n;
    assert t[..n] == s[i..j];
    forall k | j <= k < |s|
      ensures a.space(s[k])
    {
      assert s[k] == t[k - i];
    }
    if i < j {
      assert t[0] == s[i] && t[n - 1] == s[j - 1];
    }
  }

  lemma {:induction false} TrimLeftAt(a: Alphabet, s: string) returns (i: nat)
    ensures i <= |s| && a.TrimLeft(s) == s[i..]
    ensures forall k :: 0 <= k < i ==> a.space(s[k])
    ensures i < |s| ==> !a.space(s[i])
  {
    if s != [] && a.space(s[0]) {
      var j := TrimLeftAt(a, s[1..]);
      i := j + 1;
      assert s[1..][j..] == s[i..];
      forall k | 0 <= k < i
        ensures a.space(s[k])
      {
        if k > 0 { assert s[k] == s[1..][k - 1]; }
      }
    } else {
      i := 0;
      assert s[0..] == s;
    }
  }

  lemma {:induction false} TrimRightAt(a: Alphabet, s: string) returns (n: nat)
    ensures n <= |s| && a.TrimRight(s) == s[..n]
    ensures forall k :: n <= k < |s| ==> a.space(s[k])
    ensures n > 0 ==> !a.space(s[n - 1])
  {
    if s != [] && a.space(s[|s| - 1]) {
      n := TrimRightAt(a, s[..|s| - 1]);
      assert s[..|s| - 1][..n] == s[..n];
    } else {
      n := |s|;
      assert s[..n] == s;
    }
  }

  predicate Trimmed(a: Alphabet, s: string) {
    s == [] || (!a.space(s[0]) && !a.space(s[|s| - 1]))
  }

  lemma TrimIsTrimmed(a: Alphabet, s: string)
    ensures Trimmed(a, a.Trim(s))
    ensures a.Trim(a.Trim(s)) == a.Trim(s)
  {
    TrimSpec(a, s);
    var i, j :| 0 <= i <= j <= |s| && a.Trim(s) == s[i..j]
        && (i < j ==> !a.space(s[i]) && !a.space(s[j - 1]));
    if i < j {
      assert s[i..j][0] == s[i] && s[i..j][j - i - 1] == s[j - 1];
    }
  }

  /** Lower-casing and trimming commute. */
  lemma {:induction false} LowerOfTrim(a: Alphabet, s: string)
    requires a.Lawful()
    ensures a.Lower(a.Trim(s)) == a.Trim(a.Lower(s))
  {
    LowerOfTrimLeft(a, s);
    LowerOfTrimRight(a, a.TrimLeft(s));
  }

  lemma {:induction false} LowerOfTrimLeft(a: Alphabet, s: string)
    requires a.Lawful()
    ensures a.Lower(a.TrimLeft(s)) == a.TrimLeft(a.Lower(s))
  {
    if s != [] && a.space(s[0]) {
      LowerOfTrimLeft(a, s[1..]);
      assert a.Lower(s)[1..] == a.Lower(s[1..]);
    }
  }

  lemma {:induction false} LowerOfTrimRight(a: Alphabet, s: string)
    requires a.Lawful()
    ensures a.Lower(a.TrimRight(s)) == a.TrimRight(a.Lower(s))
  {
    if s != [] && a.space(s[|s| - 1]) {
      LowerOfTrimRight(a, s[..|s| - 1]);
      assert a.Lower(s)[..|s| - 1] == a.Lower(s[..|s| - 1]);
    }
  }

  // ---- joining with a separator that no piece contains ---------------------

  ghost predicate Free(s: string, sep: char) {
    sep !in s
  }

  ghost predicate AllFree(ws: seq<string>, sep: char) {
    forall i :: 0 <= i < |ws| ==> Free(ws[i], sep)
  }

  /** The first separator cuts a string in one way only. */
  lemma {:induction false} UniqueCut(a: string, b: string, x: string, y: string, sep: char)
    requires Free(a, sep) && Free(b, sep)
    requires a + [sep] + x == b + [sep] + y
    ensures a == b && x == y
  {
    var s := a + [sep] + x;
    assert s[|a|] == sep && s[|b|] == sep;
    assert forall i :: 0 <= i < |a| ==> s[i] == a[i] && a[i] in a;
    assert forall i :: 0 <= i < |b| ==> s[i] == b[i] && b[i] in b;
    assert a == s[..|a|] && b == s[..|b|];
    assert x == s[|a| + 1..] && y == s[|b| + 1..];
  }

  lemma {:induction false} JoinHasSeparator(ws: seq<string>, sep: char)
    requires |ws| >= 2
    ensures sep in Join(ws, [sep])
  {
    assert Join(ws, [sep])[|ws[0]|] == sep;
  }

  /** A join determines its pieces, except that no piece and one blank piece
      both join to the empty string. */
  lemma {:induction false} JoinSplitsUniquely(xs: seq<string>, ys: seq<string>, sep: char)
    requires AllFree(xs, sep) && AllFree(ys, sep)
    requires Join(xs, [sep]) == Join(ys, [sep])
    ensures xs == ys || (xs == [] && ys == [""]) || (xs == [""] && ys == [])
    ensures |xs| == |ys| ==> xs == ys
  {
    if |xs| >= 2 { JoinHasSeparator(xs, sep); }
    if |ys| >= 2 { JoinHasSeparator(ys, sep); }
    if |xs| >= 2 && |ys| >= 2 {
      UniqueCut(xs[0], ys[0], Join(xs[1..], [sep]), Join(ys[1..], [sep]), sep);
      JoinSplitsUniquely(xs[1..], ys[1..], sep);
      assert xs == [xs[0]] + xs[1..] && ys == [ys[0]] + ys[1..];
    }
  }

  lemma {:induction false} JoinFree(ws: seq<string>, sep: string, c: char)
    requires AllFree(ws, c) && Free(sep, c)
    ensures Free(Join(ws, sep), c)
  {
    if |ws| >= 2 {
      JoinFree(ws[1..], sep, c);
    }
  }
}
