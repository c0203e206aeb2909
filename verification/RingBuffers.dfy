/** The circular buffer a stream is fanned out from, and the history it shows. */
module RingBuffers {
  import opened Text

  newtype byte = x: int | 0 <= x < 256

  // ---- positions around the ring ---------------------------------------------------------

  lemma ModUnique(x: int, q: int, r: int, s: int)
    requires 0 <= r < s && x == q * s + r
    ensures x % s == r
  {
    var d := q - x / s;
    assert x == (x / s) * s + x % s;
    assert d * s == x % s - r;
    assert d >= 1 ==> d * s >= s;
    assert d <= -1 ==> d * s <= -s;
  }

  /** The cell a position falls on. */
  function Cell(p: int, s: nat): (c: nat)
    requires s > 0
    ensures c < s
  {
    p % s
  }

  /** Moving on by k from a position: straight on, or past the end once. */
  lemma CellStep(p: int, k: int, s: nat)
    requires 0 <= k < s
    ensures Cell(p + k, s) == if Cell(p, s) + k < s then Cell(p, s) + k else Cell(p, s) + k - s
  {
    var q, c := p / s, p % s;
    assert p == q * s + c;
    if c + k < s {
      ModUnique(p + k, q, c + k, s);
    } else {
      assert p + k == (q + 1) * s + (c + k - s);
      ModUnique(p + k, q + 1, c + k - s, s);
    }
  }

  /** Positions less than a full turn apart are different cells. */
  lemma CellsDiffer(p: int, q: int, s: nat)
    requires 0 < q - p < s
    ensures Cell(p, s) != Cell(q, s)
  {
    hide Cell;
    CellStep(p, q - p, s);
  }

  // ---- writing one byte at a time ------------------------------------------------------------

  /** The storage after writing d at position pos, byte by byte. */
  function PutAll(buf: seq<byte>, pos: nat, d: seq<byte>): (r: seq<byte>)
    requires |buf| > 0
    ensures |r| == |buf|
  {
    if d == [] then buf
    else
      var n := |d| - 1;
      PutAll(buf, pos, d[..n])[Cell(pos + n, |buf|) := d[n]]
  }

  /** Writing in two parts leaves the same storage as writing at once. */
  lemma {:induction false} PutAllSplits(buf: seq<byte>, pos: nat, a: seq<byte>, b: seq<byte>)
    requires |buf| > 0
    ensures PutAll(buf, pos, a + b) == PutAll(PutAll(buf, pos, a), pos + |a|, b)
  {
    if b == [] {
      assert a + b == a;
    } else {
      var n := |b| - 1;
      assert (a + b)[..|a + b| - 1] == a + b[..n];
      PutAllSplits(buf, pos, a, b[..n]);
    }
  }

  /** A write of at most one turn, cell by cell: cell c is k steps after pos. */
  lemma {:induction false} PutAllCell(buf: seq<byte>, pos: nat, d: seq<byte>, k: nat)
    requires |buf| > 0 && |d| <= |buf| && k < |buf|
    ensures PutAll(buf, pos, d)[Cell(pos + k, |buf|)] == if k < |d| then d[k] else buf[Cell(pos + k, |buf|)]
  {
    hide Cell;
    if d != [] {
      var n := |d| - 1;
      PutAllCell(buf, pos, d[..n], k);
      if k < n {
        CellsDiffer(pos + k, pos + n, |buf|);
      } else if k > n {
        CellsDiffer(pos + n, pos + k, |buf|);
      }
    }
  }

  /** Every cell is some number of steps after pos. */
  lemma StepsTo(pos: nat, c: nat, s: nat) returns (k: nat)
    requires c < s
    ensures k < s && Cell(pos + k, s) == c
  {
    hide Cell;
    k := if c >= Cell(pos, s) then c - Cell(pos, s) else c - Cell(pos, s) + s;
    CellStep(pos, k, s);
  }

  /** A full turn leaves nothing of what was there. */
  lemma FullTurn(x: seq<byte>, y: seq<byte>, pos: nat, d: seq<byte>)
    requires |x| == |y| == |d| > 0
    ensures PutAll(x, pos, d) == PutAll(y, pos, d)
  {
    forall c | 0 <= c < |x|
      ensures PutAll(x, pos, d)[c] == PutAll(y, pos, d)[c]
    {
      var k := StepsTo(pos, c, |x|);
      PutAllCell(x, pos, d, k);
      PutAllCell(y, pos, d, k);
    }
  }

  // ---- the bulk copies ------------------------------------------------------------------------

  function Min(a: int, b: int): int {
    if a < b then a else b
  }

  /** Go's copy into dst[at..]: as much of src as fits. */
  function Copied(dst: seq<byte>, at: nat, src: seq<byte>): (r: seq<byte>)
    requires at <= |dst|
    ensures |r| == |dst|
  {
    var n := Min(|dst| - at, |src|);
    dst[..at] + src[..n] + dst[at + n..]
  }

  method CopyInto(dst: array<byte>, at: nat, src: seq<byte>) returns (n: nat)
    requires at <= dst.Length
    modifies dst
    ensures n == Min(dst.Length - at, |src|)
    ensures dst[..] == Copied(old(dst[..]), at, src)
  {
    n := Min(dst.Length - at, |src|);
    forall i | 0 <= i < n {
      dst[at + i] := src[i];
    }
  }

  /** The tail of a write that can stay resident. */
  function Tail(d: seq<byte>, s: nat): (r: seq<byte>) {
    if |d| > s then d[|d| - s..] else d
  }

  /** The fast form: the tail only, in at most two bulk copies. */
  function Bulk(buf: seq<byte>, pos: nat, d: seq<byte>): (r: seq<byte>)
    requires |buf| > 0
    ensures |r| == |buf|
  {
    var t := Tail(d, |buf|);
    var at := Cell(pos + |d| - |t|, |buf|);
    var once := Copied(buf, at, t);
    var n := Min(|buf| - at, |t|);
    if n < |t| then Copied(once, 0, t[n..]) else once
  }

  /** The cell k steps after pos, after the bulk copies of at most one turn. */
  lemma BulkCell(buf: seq<byte>, pos: nat, d: seq<byte>, k: nat)
    requires 0 < |buf| && |d| <= |buf| && k < |buf|
    ensures Bulk(buf, pos, d)[Cell(pos + k, |buf|)] == if k < |d| then d[k] else buf[Cell(pos + k, |buf|)]
  {
    hide Cell;
    CellStep(pos, k, |buf|);
    var c := Cell(pos + k, |buf|);
    var at := Cell(pos, |buf|);
    assert c == if at + k < |buf| then at + k else at + k - |buf|;
  }

  lemma BulkIsPutAllOneTurn(buf: seq<byte>, pos: nat, d: seq<byte>)
    requires 0 < |buf| && |d| <= |buf|
    ensures Bulk(buf, pos, d) == PutAll(buf, pos, d)
  {
    hide Bulk, PutAll;
    forall c | 0 <= c < |buf|
      ensures Bulk(buf, pos, d)[c] == PutAll(buf, pos, d)[c]
    {
      var k := StepsTo(pos, c, |buf|);
      PutAllCell(buf, pos, d, k);
      BulkCell(buf, pos, d, k);
    }
  }

  /** The bulk copies leave the storage that byte by byte writing leaves, for
      data of any length. */
  lemma BulkIsPutAll(buf: seq<byte>, pos: nat, d: seq<byte>)
    requires |buf| > 0
    ensures Bulk(buf, pos, d) == PutAll(buf, pos, d)
  {
    hide PutAll, Copied;
    if |d| <= |buf| {
      BulkIsPutAllOneTurn(buf, pos, d);
    } else {
      var lost, t := d[..|d| - |buf|], d[|d| - |buf|..];
      assert d == lost + t;
      PutAllSplits(buf, pos, lost, t);
      FullTurn(buf, PutAll(buf, pos, lost), pos + |lost|, t);
      BulkIsPutAllOneTurn(buf, pos + |lost|, t);
      assert Tail(d, |buf|) == t == Tail(t, |buf|);
    }
  }

  /** Only the tail that can stay resident is written, at the position it would
      have reached, in at most two copies. */
  method BulkWrite(data: array<byte>, pos: nat, bytes: seq<byte>)
    requires data.Length > 0
    modifies data
    ensures data[..] == PutAll(old(data[..]), pos, bytes)
  {
    hide Cell, PutAll, Bulk, Copied;
    var tail := bytes;
    if |bytes| > data.Length {
      tail := bytes[|bytes| - data.Length..];
    }
    var at := Cell(pos + |bytes| - |tail|, data.Length);
    BulkIsPutAll(data[..], pos, bytes);
    BulkParts(data[..], pos, bytes);
    var n := CopyInto(data, at, tail);
    if n < |tail| {
      var _ := CopyInto(data, 0, tail[n..]);
    }
  }

  lemma BulkParts(buf: seq<byte>, pos: nat, d: seq<byte>)
    requires |buf| > 0
    ensures var tail := Tail(d, |buf|);
            var at := Cell(pos + |d| - |tail|, |buf|);
            var n := Min(|buf| - at, |tail|);
            Bulk(buf, pos, d) == if n < |tail| then Copied(Copied(buf, at, tail), 0, tail[n..]) else Copied(buf, at, tail)
  {
    hide Cell, Copied;
  }

  // ---- what the storage remembers -----------------------------------------------------------------

  /** The last turn of the history sits in the cells its positions name. */
  ghost predicate Resident(buf: seq<byte>, history: seq<byte>) {
    && |buf| > 0
    && forall p :: 0 <= p < |history| && |history| - |buf| <= p ==> buf[Cell(p, |buf|)] == history[p]
  }

  lemma {:induction false} PutAllResident(buf: seq<byte>, history: seq<byte>, d: seq<byte>)
    requires Resident(buf, history)
    ensures Resident(PutAll(buf, |history|, d), history + d)
  {
    hide Cell;
    if d == [] {
      assert history + d == history;
    } else {
      var n := |d| - 1;
      PutAllResident(buf, history, d[..n]);
      var before, b := history + d[..n], PutAll(buf, |history|, d[..n]);
      assert history + d == before + [d[n]];
      forall p | 0 <= p < |before| + 1 && |before| + 1 - |buf| <= p
        ensures b[Cell(|before|, |buf|) := d[n]][Cell(p, |buf|)] == (before + [d[n]])[p]
      {
        if p < |before| { CellsDiffer(p, |before|, |buf|); }
      }
    }
  }

  function Last(n: int, s: seq<byte>): seq<byte>
    requires 0 <= n <= |s|
  {
    s[|s| - n..]
  }

  /** Reading n bytes back from the write position, in at most two copies. */
  function ReadBack(buf: seq<byte>, pos: nat, n: int): (r: seq<byte>)
    requires |buf| > 0 && 0 <= n <= pos && n <= |buf|
    ensures |r| == n
  {
    var start := Cell(pos - n, |buf|);
    var first := Min(|buf| - start, n);
    buf[start..start + first] + buf[..n - first]
  }

  method BulkRead(data: array<byte>, pos: nat, n: int) returns (r: seq<byte>)
    requires data.Length > 0 && 0 <= n <= pos && n <= data.Length
    ensures r == ReadBack(data[..], pos, n)
  {
    hide Cell;
    var result := new byte[n](_ => 0);
    var start := Cell(pos - n, data.Length);
    var first := Min(data.Length - start, n);
    var _ := CopyInto(result, 0, data[start..start + first]);
    if first < n {
      var _ := CopyInto(result, first, data[..n - first]);
    }
    r := result[..];
    assert data[..][start..start + first] == data[start..start + first];
    assert data[..][..n - first] == data[..n - first];
  }

  lemma ReadBackIsLast(buf: seq<byte>, history: seq<byte>, n: int)
    requires Resident(buf, history) && 0 <= n <= |history| && n <= |buf|
    ensures ReadBack(buf, |history|, n) == Last(n, history)
  {
    hide Cell;
    var w := |history|;
    forall i | 0 <= i < n
      ensures ReadBack(buf, w, n)[i] == Last(n, history)[i]
    {
      CellStep(w - n, i, |buf|);
      assert buf[Cell(w - n + i, |buf|)] == history[w - n + i];
    }
  }

  // ---- every run ---------------------------------------------------------------------------------------

  datatype Operation = Put(bytes: seq<byte>) | Restart

  datatype Image = Image(buf: seq<byte>, pos: nat)

  /** The storage and the write position after a run on a new buffer. */
  function ImageAfter(size: nat, ops: seq<Operation>): (r: Image)
    requires size > 0
    ensures |r.buf| == size
  {
    if ops == [] then Image(seq(size, _ => 0), 0)
    else
      var n := |ops| - 1;
      var before := ImageAfter(size, ops[..n]);
      match ops[n]
      case Put(d) => Image(Bulk(before.buf, before.pos, d), before.pos + |d|)
      case Restart => before.(pos := 0)
  }

  /** Everything put in since the last restart. */
  function HistoryAfter(ops: seq<Operation>): seq<byte> {
    if ops == [] then []
    else
      var n := |ops| - 1;
      match ops[n]
      case Put(d) => HistoryAfter(ops[..n]) + d
      case Restart => []
  }

  /** Nothing put in before a restart counts after it. */
  lemma {:induction false} RestartForgets(before: seq<Operation>, after: seq<Operation>)
    ensures HistoryAfter(before + [Restart] + after) == HistoryAfter(after)
  {
    var all := before + [Restart] + after;
    var n := |all| - 1;
    if after == [] {
      assert all[n] == Restart;
    } else {
      var m := |after| - 1;
      RestartForgets(before, after[..m]);
      assert all[n] == after[m] && all[..n] == before + [Restart] + after[..m];
    }
  }

  lemma {:induction false} ImageIsResident(size: nat, ops: seq<Operation>)
    requires size > 0
    ensures var r := ImageAfter(size, ops);
            r.pos == |HistoryAfter(ops)| && Resident(r.buf, HistoryAfter(ops))
  {
    hide Bulk, PutAll;
    if ops != [] {
      var n := |ops| - 1;
      ImageIsResident(size, ops[..n]);
      var before := ImageAfter(size, ops[..n]);
      if ops[n].Put? {
        BulkIsPutAll(before.buf, before.pos, ops[n].bytes);
        PutAllResident(before.buf, HistoryAfter(ops[..n]), ops[n].bytes);
      }
    }
  }

  /** After any run of writes of any lengths and restarts, what is read back is
      the end of what was put in. */
  lemma RunShowsItsHistory(size: nat, ops: seq<Operation>, n: nat)
    requires size > 0 && n <= size && n <= |HistoryAfter(ops)|
    ensures ImageAfter(size, ops).pos == |HistoryAfter(ops)|
    ensures ReadBack(ImageAfter(size, ops).buf, ImageAfter(size, ops).pos, n) == Last(n, HistoryAfter(ops))
  {
    hide ReadBack;
    ImageIsResident(size, ops);
    ReadBackIsLast(ImageAfter(size, ops).buf, HistoryAfter(ops), n);
  }

  /** Splitting a write changes nothing, not even the cells no read can reach. */
  lemma {:induction false} SplitWriteSameImage(size: nat, before: seq<Operation>, a: seq<byte>, b: seq<byte>, after: seq<Operation>)
    requires size > 0
    ensures ImageAfter(size, before + [Put(a), Put(b)] + after) == ImageAfter(size, before + [Put(a + b)] + after)
  {
    hide Bulk, PutAll;
    var two, one := before + [Put(a), Put(b)], before + [Put(a + b)];
    if after == [] {
      var i := ImageAfter(size, before);
      assert two + [] == two && one + [] == one;
      assert two[..|two| - 1] == before + [Put(a)] && (before + [Put(a)])[..|before|] == before && one[..|before|] == before;
      BulkIsPutAll(i.buf, i.pos, a);
      BulkIsPutAll(Bulk(i.buf, i.pos, a), i.pos + |a|, b);
      BulkIsPutAll(i.buf, i.pos, a + b);
      PutAllSplits(i.buf, i.pos, a, b);
    } else {
      var n := |after| - 1;
      SplitWriteSameImage(size, before, a, b, after[..n]);
      assert (two + after)[..|two + after| - 1] == two + after[..n];
      assert (one + after)[..|one + after| - 1] == one + after[..n];
    }
  }

  // ---- the buffer ------------------------------------------------------------------------------------

  class RingBuffer {
    var data: array?<byte>
    const size: nat
    var writePos: nat
    var destroyed: bool
    /** Everything written since the last reset. */
    ghost var history: seq<byte>

    ghost predicate Valid()
      reads this, data
    {
      && (destroyed ==> data == null && writePos == 0)
      && (!destroyed ==> data != null && data.Length == size && writePos == |history|)
      && (!destroyed && size > 0 ==> Resident(data[..], history))
      && (size == 0 ==> history == [])
    }

    constructor (size: nat)
      ensures Valid() && !destroyed && this.size == size && history == [] && fresh(data)
    {
      this.size, writePos, destroyed, history := size, 0, false, [];
      data := new byte[size](_ => 0);
    }

    /** Appends to the history. A buffer of no capacity cannot be written. */
    method Write(bytes: seq<byte>)
      requires Valid() && (size > 0 || destroyed)
      modifies this, data
      ensures Valid() && destroyed == old(destroyed) && data == old(data)
      ensures old(destroyed) ==> history == old(history)
      ensures !old(destroyed) ==> history == old(history) + bytes
      ensures !old(destroyed) ==> data[..] == PutAll(old(data[..]), old(writePos), bytes)
    {
      hide PutAll, Resident;
      if destroyed {
        return;
      }
      if data == null {
        return;
      }
      ghost var buf := data[..];
      BulkWrite(data, writePos, bytes);
      PutAllResident(buf, history, bytes);
      writePos := writePos + |bytes|;
      history := history + bytes;
    }

    method Reset()
      requires Valid()
      modifies this`writePos, this`history
      ensures Valid()
      ensures history == if old(destroyed) then old(history) else []
    {
      if destroyed {
        return;
      }
      writePos := 0;
      history := [];
    }

    method Destroy()
      requires Valid()
      modifies this`data, this`writePos, this`destroyed
      ensures Valid() && destroyed && data == null && history == old(history)
    {
      if destroyed {
        return;
      }
      destroyed := true;
      if data != null {
        data := null;
      }
      writePos := 0;
    }

    /** Whether the storage is gone; what was written can no longer be read then,
        and the position reads 0. */
    method IsDestroyed() returns (r: bool)
      requires Valid()
      ensures r == destroyed && (r <==> data == null)
      ensures r ==> writePos == 0
      ensures !r ==> writePos == |history|
    {
      return destroyed;
    }

    method GetWritePosition() returns (r: nat)
      requires Valid()
      ensures r == if destroyed then 0 else |history|
    {
      if destroyed {
        return 0;
      }
      return writePos;
    }

    /** The end of the history, as much of it as is asked for and still held;
        nothing when there is none. A negative request is an error of the caller
        once there is something to read. */
    method PeekRecentData(maxBytes: int) returns (r: Option<seq<byte>>)
      requires Valid() && (destroyed || history == [] || maxBytes >= 0)
      ensures r.None? <==> destroyed || history == []
      ensures r.Some? ==> r.value == Last(Min(Min(maxBytes, |history|), size), history)
    {
      hide ReadBack, Resident;
      if destroyed || data == null {
        return None;
      }
      if writePos == 0 {
        return None;
      }
      var dataSize := Min(Min(maxBytes, writePos), size);
      var result := BulkRead(data, writePos, dataSize);
      ReadBackIsLast(data[..], history, dataSize);
      return Some(result);
    }
  }
}
