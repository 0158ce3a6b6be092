/** The capture buffer of pkg/exec/bounded/bounded.go. Each char stands for one byte. */
module HeadTail {
  import opened Basics
  import opened Strings

  // ---- line alignment ---------------------------------------------------------------------

  // The last newline among the first n bytes, and the first from position k on; -1 if none.
  function LastNewline(s: string, n: nat): (i: int)
    requires n <= |s|
    ensures -1 <= i < n
    ensures i >= 0 ==> s[i] == '\n'
    ensures forall j :: i < j < n ==> s[j] != '\n'
  {
    if n == 0 then -1 else if s[n - 1] == '\n' then n - 1 else LastNewline(s, n - 1)
  }

  function FirstNewline(s: string, k: nat): (i: int)
    requires k <= |s|
    ensures i == -1 || k <= i < |s|
    ensures i >= 0 ==> s[i] == '\n'
    ensures forall j :: k <= j < (if i < 0 then |s| else i) ==> s[j] != '\n'
    decreases |s| - k
  {
    if k == |s| then -1 else if s[k] == '\n' then k else FirstNewline(s, k + 1)
  }

  // The head trimmed back to its last newline; the tail advanced past its first.
  function HeadPart(head: string): (h: string)
    ensures h <= head
  {
    var i := LastNewline(head, |head|);
    if i >= 0 then head[..i + 1] else head
  }

  function TailPart(tail: string): (t: string)
    ensures |t| <= |tail| && t == tail[|tail| - |t|..]
  {
    var i := FirstNewline(tail, 0);
    if i >= 0 then tail[i + 1..] else tail
  }

  // ---- what is rendered -------------------------------------------------------------------

  predicate Truncated(stream: string, headCap: nat, tailCap: nat) {
    |stream| > headCap + tailCap
  }

  // What String() shows: everything, or the two ends and how much is missing between them.
  datatype Rendering = Whole(all: string) | Cut(head: string, dropped: nat, tail: string)

  function CutOf(head: string, tail: string, total: nat): Rendering
    requires total >= |head| + |tail|
  {
    var h, t := HeadPart(head), TailPart(tail);
    Cut(h, total - |h| - |t|, t)
  }

  // The rendering of a stream, in terms of the whole stream alone.
  function Rendered(stream: string, headCap: nat, tailCap: nat): Rendering {
    if !Truncated(stream, headCap, tailCap) then Whole(stream)
    else CutOf(stream[..headCap], stream[|stream| - tailCap..], |stream|)
  }

  // Its text, with the marker in the gap.
  function Show(r: Rendering): string {
    match r
    case Whole(all) => all
    case Cut(head, dropped, tail) =>
      head + "[... truncated " + Decimal(dropped) + " bytes from middle ...]\n" + tail
  }

  predicate NoNewline(s: string) {
    forall j :: 0 <= j < |s| ==> s[j] != '\n'
  }

  // h is head up to and including its last newline, if it has one.
  predicate EndsAtLine(h: string, head: string) {
    && h <= head
    && (|| (h != "" && h[|h| - 1] == '\n' && NoNewline(head[|h|..]))
        || (h == head && NoNewline(head)))
  }

  // t is tail from behind its first newline, if it has one.
  predicate StartsAtLine(t: string, tail: string) {
    var n := |tail| - |t|;
    && n >= 0 && t == tail[n..]
    && (|| (n > 0 && tail[n - 1] == '\n' && NoNewline(tail[..n - 1]))
        || (n == 0 && NoNewline(tail)))
  }

  lemma HeadPartAligns(head: string)
    ensures EndsAtLine(HeadPart(head), head)
  {
  }

  lemma TailPartAligns(tail: string)
    ensures StartsAtLine(TailPart(tail), tail)
  {
  }

  // Two ends that meet make up a stream that fits.
  lemma WholeStream(stream: string, headCap: nat, tailCap: nat, head: string, tail: string)
    requires |head| <= headCap && |tail| <= tailCap && |head| + |tail| == |stream|
    requires head == stream[..|head|] && tail == stream[|stream| - |tail|..]
    ensures Rendered(stream, headCap, tailCap) == Whole(head + tail)
    ensures tail == "" ==> Rendered(stream, headCap, tailCap) == Whole(head)
  {
    assert head + tail == stream;
    if tail == "" { assert head == stream; }
  }

  // Two full windows of a longer stream are cut.
  lemma CutStream(stream: string, headCap: nat, tailCap: nat, head: string, tail: string)
    requires Truncated(stream, headCap, tailCap)
    requires head == stream[..headCap] && tail == stream[|stream| - tailCap..]
    ensures |stream| >= |head| + |tail| && Rendered(stream, headCap, tailCap) == CutOf(head, tail, |stream|)
  {
  }

  // r shows both ends of a stream of this length, aligned to lines inside the two windows, and
  // says how much is missing.
  predicate ShowsEnds(r: Rendering, head: string, tail: string, total: nat) {
    && r.Cut?
    && |r.head| + r.dropped + |r.tail| == total && r.dropped > 0
    && EndsAtLine(r.head, head)
    && StartsAtLine(r.tail, tail)
  }

  lemma CutShowsEnds(head: string, tail: string, total: nat)
    requires total > |head| + |tail|
    ensures ShowsEnds(CutOf(head, tail, total), head, tail, total)
  {
    HeadPartAligns(head);
    TailPartAligns(tail);
  }

  // A truncated rendering loses nothing from sight: a stream prefix, a stream suffix, and a
  // number that makes up the rest.
  lemma RenderingConserves(stream: string, headCap: nat, tailCap: nat)
    requires Truncated(stream, headCap, tailCap)
    ensures ShowsEnds(Rendered(stream, headCap, tailCap),
                      stream[..headCap], stream[|stream| - tailCap..], |stream|)
  {
    var head, tail := stream[..headCap], stream[|stream| - tailCap..];
    var r := Rendered(stream, headCap, tailCap);
    assert r == CutOf(head, tail, |stream|);
    assert ShowsEnds(CutOf(head, tail, |stream|), head, tail, |stream|) by {
      CutShowsEnds(head, tail, |stream|);
    }
  }

  // The text r of a stream of this length that is cut: the aligned end of the head window, the
  // marker with the number of bytes that are missing, the aligned start of the tail window.
  ghost predicate CutText(r: string, head: string, tail: string, total: nat) {
    exists h, t ::
      && EndsAtLine(h, head) && StartsAtLine(t, tail) && |h| + |t| < total
      && r == h + "[... truncated " + Decimal(total - |h| - |t|) + " bytes from middle ...]\n" + t
  }

  lemma ShowsCut(r: Rendering, head: string, tail: string, total: nat)
    requires ShowsEnds(r, head, tail, total)
    ensures CutText(Show(r), head, tail, total)
  {
    assert EndsAtLine(r.head, head) && StartsAtLine(r.tail, tail);
    assert r.dropped == total - |r.head| - |r.tail|;
  }

  // The text, byte for byte: the stream if it fits, and else both its ends around the marker.
  ghost predicate TextOf(r: string, stream: string, headCap: nat, tailCap: nat) {
    if |stream| <= headCap + tailCap then r == stream
    else CutText(r, stream[..headCap], stream[|stream| - tailCap..], |stream|)
  }

  lemma ShowReads(stream: string, headCap: nat, tailCap: nat)
    ensures TextOf(Show(Rendered(stream, headCap, tailCap)), stream, headCap, tailCap)
  {
    if Truncated(stream, headCap, tailCap) {
      RenderingConserves(stream, headCap, tailCap);
      ShowsCut(Rendered(stream, headCap, tailCap), stream[..headCap], stream[|stream| - tailCap..], |stream|);
    }
  }

  // ---- the ring ---------------------------------------------------------------------------

  // Where the i-th oldest byte of a ring of size n is.
  function Slot(start: nat, i: nat, n: nat): nat {
    if start + i < n then start + i else start + i - n
  }

  lemma ModuloOnce(x: nat, n: nat)
    requires n <= x < 2 * n
    ensures x % n == x - n
  {
    assert x == 1 * n + (x - n);
  }

  lemma SlotIsModular(start: nat, i: nat, n: nat)
    requires start < n && i <= n
    ensures (start + i) % n == Slot(start, i, n)
  {
    if start + i >= n { ModuloOnce(start + i, n); }
  }

  predicate CellShows(ring: seq<char>, start: nat, len: nat, s: string, i: nat)
    requires start < |ring| && len <= |ring| && len <= |s| && i < len
  {
    ring[Slot(start, i, |ring|)] == s[|s| - len + i]
  }

  // The cells of the ring show, oldest first, the last len elements of s.
  ghost predicate RingShows(ring: seq<char>, start: nat, len: nat, s: string) {
    && start < |ring|
    && len <= |ring| && len <= |s|
    && forall i :: 0 <= i < len ==> CellShows(ring, start, len, s, i)
  }

  lemma RingFills(ring: seq<char>, start: nat, len: nat, s: string, c: char)
    requires RingShows(ring, start, len, s) && len < |ring|
    ensures Slot(start, len, |ring|) < |ring|
    ensures RingShows(ring[Slot(start, len, |ring|) := c], start, len + 1, s + [c])
  {
    var ring', len', s' := ring[Slot(start, len, |ring|) := c], len + 1, s + [c];
    forall i | 0 <= i < len' ensures CellShows(ring', start, len', s', i) {
      if i < len { assert CellShows(ring, start, len, s, i); }
    }
  }

  lemma RingTurns(ring: seq<char>, start: nat, s: string, c: char)
    requires RingShows(ring, start, |ring|, s)
    ensures RingShows(ring[start := c], Slot(start, 1, |ring|), |ring|, s + [c])
  {
    var ring', start', s', n := ring[start := c], Slot(start, 1, |ring|), s + [c], |ring|;
    forall i | 0 <= i < n ensures CellShows(ring', start', n, s', i) {
      if i + 1 < |ring| { assert CellShows(ring, start, |ring|, s, i + 1); }
    }
  }

  class HeadTailBuf {
    var head: seq<char>          // the bytes of the head slice; its capacity is headCap
    const headCap: nat
    const tail: array<char>      // ring buffer of size tailCap
    const tailCap: nat
    var tailStart: nat
    var tailLen: nat
    var total: nat
    ghost var stream: string     // everything ever written

    // The whole-stream specification: the first headCap bytes, and the last tailCap of the rest.
    ghost predicate Valid()
      reads this, tail
    {
      && tail.Length == tailCap > 0
      && total == |stream|
      && head == stream[..Min(total, headCap)]
      && tailLen == Min(tailCap, total - |head|)
      && RingShows(tail[..], tailStart, tailLen, stream[|head|..])
    }

    // Run defaults both sizes to positive values; a ring of size zero would divide by zero.
    constructor (headCap: nat, tailCap: nat)
      requires tailCap > 0
      ensures Valid() && stream == "" && this.headCap == headCap && this.tailCap == tailCap
      ensures fresh(tail)
    {
      this.headCap, this.tailCap := headCap, tailCap;
      head := [];
      tail := new char[tailCap](_ => 0 as char);
      tailStart, tailLen, total := 0, 0, 0;
      stream := "";
    }

    // One byte into the ring: the loop body of Write.
    method Put(c: char, ghost over: string)
      requires tail.Length == tailCap > 0 && tailLen == Min(tailCap, |over|)
      requires RingShows(tail[..], tailStart, tailLen, over)
      modifies this`tailStart, this`tailLen, tail
      ensures tailLen == Min(tailCap, |over| + 1)
      ensures RingShows(tail[..], tailStart, tailLen, over + [c])
    {
      if tailLen < tailCap {
        RingFills(tail[..], tailStart, tailLen, over, c);
        SlotIsModular(tailStart, tailLen, tailCap);
        tail[(tailStart + tailLen) % tailCap] := c;
        tailLen := tailLen + 1;
      } else {
        RingTurns(tail[..], tailStart, over, c);
        SlotIsModular(tailStart, 1, tailCap);
        tail[tailStart] := c;
        tailStart := (tailStart + 1) % tailCap;
      }
    }

    // The loop of Write.
    method PutAll(q: seq<char>, ghost over: string)
      requires tail.Length == tailCap > 0 && tailLen == Min(tailCap, |over|)
      requires RingShows(tail[..], tailStart, tailLen, over)
      modifies this`tailStart, this`tailLen, tail
      ensures tailLen == Min(tailCap, |over + q|)
      ensures RingShows(tail[..], tailStart, tailLen, over + q)
    {
      assert over + q[..0] == over;
      for i := 0 to |q|
        invariant tailLen == Min(tailCap, |over + q[..i]|)
        invariant RingShows(tail[..], tailStart, tailLen, over + q[..i])
      {
        Put(q[i], over + q[..i]);
        assert over + q[..i] + [q[i]] == over + q[..i + 1];
      }
      assert q[..|q|] == q;
    }

    method Write(p: seq<char>) returns (n: nat)
      requires Valid()
      modifies this, tail
      ensures Valid() && stream == old(stream) + p && n == |p|
    {
      n := |p|;
      total := total + n;
      ghost var over := stream[|head|..];
      stream := stream + p;
      var q := p;
      if |head| < headCap {
        assert over == "";
        var need := headCap - |head|;
        if need >= |q| {
          head := head + q;
          assert stream[|head|..] == "";
          return;
        }
        head := head + q[..need];
        q := q[need..];
      }
      PutAll(q, over);
      assert stream[|head|..] == over + q;
    }

    method Total() returns (t: nat)
      requires Valid()
      ensures t == |stream|
    {
      t := total;
    }

    method LinearTail() returns (out: seq<char>)
      requires Valid()
      ensures out == stream[|stream| - tailLen..]
    {
      var a := new char[tailLen];
      ghost var over := stream[|head|..];
      for i := 0 to tailLen
        invariant forall j :: 0 <= j < i ==> a[j] == over[|over| - tailLen + j]
      {
        SlotIsModular(tailStart, i, tailCap);
        assert CellShows(tail[..], tailStart, tailLen, over, i);
        a[i] := tail[(tailStart + i) % tailCap];
      }
      out := a[..];
    }

    // String, before it is put into words.
    method Rendering() returns (r: Rendering)
      requires Valid()
      ensures r == Rendered(stream, headCap, tailCap)
    {
      if tailLen == 0 {
        WholeStream(stream, headCap, tailCap, head, "");
        return Whole(head);
      }
      var tailBytes := LinearTail();
      r := Assemble(head, tailBytes, total, headCap, tailCap, stream);
    }

    // Its rest, once the tail is linear.
    static method Assemble(head: string, tailBytes: string, total: nat, headCap: nat, tailCap: nat,
        ghost stream: string)
      returns (r: Rendering)
      requires total == |stream| && |head| == Min(total, headCap) && |tailBytes| == Min(tailCap, total - |head|)
      requires head == stream[..|head|] && tailBytes == stream[|stream| - |tailBytes|..]
      ensures r == Rendered(stream, headCap, tailCap)
    {
      var bytesDropped := total - |head| - |tailBytes|;
      var headFull := |head| == headCap;
      if !headFull || bytesDropped <= 0 {
        WholeStream(stream, headCap, tailCap, head, tailBytes);
        return Whole(head + tailBytes);
      }
      CutStream(stream, headCap, tailCap, head, tailBytes);
      r := CutOut(head, tailBytes, bytesDropped);
    }

    // The truncating branch of String.
    static method CutOut(head: string, tailBytes: string, bytesDropped: nat) returns (r: Rendering)
      ensures r == CutOf(head, tailBytes, |head| + bytesDropped + |tailBytes|)
    {
      var headPart := AlignHead(head);
      var tailPart := AlignTail(tailBytes);
      var totalDropped := bytesDropped + (|head| - |headPart|) + (|tailBytes| - |tailPart|);
      r := Cut(headPart, totalDropped, tailPart);
    }

    static method AlignHead(head: string) returns (headPart: string)
      ensures headPart == HeadPart(head)
    {
      headPart := head;
      var i := LastNewline(headPart, |headPart|);
      if i >= 0 { headPart := headPart[..i + 1]; }
    }

    static method AlignTail(tail: string) returns (tailPart: string)
      ensures tailPart == TailPart(tail)
    {
      tailPart := tail;
      var i := FirstNewline(tailPart, 0);
      if i >= 0 { tailPart := tailPart[i + 1..]; }
    }

    // String. It depends on the bytes written, not on how they were cut into writes.
    method Render() returns (r: string)
      requires Valid()
      ensures r == Show(Rendered(stream, headCap, tailCap))
      ensures TextOf(r, stream, headCap, tailCap)
    {
      ShowReads(stream, headCap, tailCap);
      var rendering := Rendering();
      r := Show(rendering);
    }
  }

  // Any sequence of writes captures exactly what one write of the whole stream would.
  method Capture(headCap: nat, tailCap: nat, chunks: seq<string>) returns (r: string, total: nat)
    requires tailCap > 0
    ensures r == Show(Rendered(Flatten(chunks), headCap, tailCap))
    ensures TextOf(r, Flatten(chunks), headCap, tailCap)
    ensures total == |Flatten(chunks)|
  {
    ShowReads(Flatten(chunks), headCap, tailCap);
    var b := new HeadTailBuf(headCap, tailCap);
    for i := 0 to |chunks|
      invariant b.Valid() && b.headCap == headCap && b.tailCap == tailCap
      invariant fresh(b) && fresh(b.tail)
      invariant b.stream == Joined(chunks, i)
    {
      var _ := b.Write(chunks[i]);
    }
    r := b.Render();
    total := b.Total();
  }
}
