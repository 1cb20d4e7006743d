/** Index arithmetic of the shared-memory ring: the byte positions a head and a tail denote,
    the free and occupied lengths, and the contiguous slices a writer or a reader may touch. */
module RingIndex {

  import opened Bytes

  /** Bytes between head and tail. */
  function Used(cap: nat, head: nat, tail: nat): (n: nat)
    requires head < cap && tail < cap
    ensures n < cap
    ensures n == 0 <==> head == tail
  {
    if tail >= head then tail - head else cap - (head - tail)
  }

  predicate IsFull(cap: nat, head: nat, tail: nat)
    requires head < cap && tail < cap
  {
    Used(cap, head, tail) >= cap - 1
  }

  function Min(a: nat, b: nat): nat { if a <= b then a else b }

  /** Length of the slice the reader may copy, starting at `head`. */
  function ReadLen(cap: nat, head: nat, tail: nat, max: nat): nat
    requires head < cap && tail < cap
  {
    Min(if tail >= head then tail - head else cap - head, max)
  }

  /** Length of the slice the writer may fill, starting at `tail`. */
  function WriteLen(cap: nat, head: nat, tail: nat, max: nat): nat
    requires head < cap && tail < cap
  {
    var end := if head == 0 then cap else head;
    Min(if tail >= end then cap - tail else end - tail - 1, max)
  }

  /** The position after a slice that ends at the end of the buffer at the latest; the source
      computes it with a remainder, see `AdvanceIsRemainder`. */
  function Advance(cap: nat, pos: nat, n: nat): (r: nat)
    requires pos < cap && pos + n <= cap
    ensures r < cap
  {
    if pos + n == cap then 0 else pos + n
  }

  lemma AdvanceIsRemainder(cap: nat, pos: nat, n: nat)
    requires pos < cap && pos + n <= cap
    ensures Advance(cap, pos, n) == (pos + n) % cap
  {
    if pos + n < cap {
      assert (pos + n) % cap == pos + n;
    }
  }

  /** The bytes a ring holds, oldest first. */
  function Stored(buf: seq<Byte>, head: nat, tail: nat): (s: seq<Byte>)
    requires head < |buf| && tail < |buf|
    ensures |s| == Used(|buf|, head, tail)
  {
    if tail >= head then buf[head..tail] else buf[head..] + buf[..tail]
  }

  /** The writer's slice fits in the free space, leaving one byte unused, and does not wrap. */
  lemma WriteLenFits(cap: nat, head: nat, tail: nat, max: nat)
    requires head < cap && tail < cap
    ensures Used(cap, head, tail) + WriteLen(cap, head, tail, max) <= cap - 1
    ensures tail + WriteLen(cap, head, tail, max) <= cap
  {
  }

  /** Once the ring was seen not full, the slice is non-empty however far the reader has moved since. */
  lemma WriteProgress(cap: nat, seenHead: nat, head: nat, tail: nat, max: nat)
    requires seenHead < cap && head < cap && tail < cap && max > 0
    requires !IsFull(cap, seenHead, tail)
    requires Used(cap, head, tail) <= Used(cap, seenHead, tail)
    ensures WriteLen(cap, head, tail, max) > 0
  {
  }

  /** Moving the tail over a filled free slice appends that slice to the contents. */
  lemma PublishAppends(buf: seq<Byte>, head: nat, tail: nat, n: nat)
    requires head < |buf| && tail < |buf|
    requires Used(|buf|, head, tail) + n <= |buf| - 1 && tail + n <= |buf|
    ensures Stored(buf, head, Advance(|buf|, tail, n)) == Stored(buf, head, tail) + buf[tail..tail + n]
  {
    if tail >= head && tail + n == |buf| {
      assert buf[head..tail] + buf[tail..] == buf[head..] + buf[..0];
    } else if tail >= head {
      assert buf[head..tail] + buf[tail..tail + n] == buf[head..tail + n];
    } else {
      assert buf[..tail] + buf[tail..tail + n] == buf[..tail + n];
    }
  }

  /** Moving the head over a stored slice drops exactly that slice from the front. */
  lemma ConsumeDrops(buf: seq<Byte>, head: nat, tail: nat, n: nat)
    requires head < |buf| && tail < |buf|
    requires n <= Used(|buf|, head, tail) && head + n <= |buf|
    ensures Stored(buf, head, tail)[..n] == buf[head..head + n]
    ensures Stored(buf, Advance(|buf|, head, n), tail) == Stored(buf, head, tail)[n..]
  {
  }

  /** Filling a free position changes nothing the ring holds. */
  lemma FreeWriteKeepsStored(buf: seq<Byte>, head: nat, tail: nat, k: nat, b: Byte)
    requires head < |buf| && tail < |buf|
    requires Used(|buf|, head, tail) + k < |buf| - 1 && tail + k < |buf|
    ensures Stored(buf[tail + k := b], head, tail) == Stored(buf, head, tail)
    ensures buf[tail + k := b][tail..tail + k + 1] == buf[tail..tail + k] + [b]
  {
  }

  function Splice(buf: seq<Byte>, at: nat, piece: seq<Byte>): (r: seq<Byte>)
    requires at + |piece| <= |buf|
    ensures |r| == |buf|
  {
    buf[..at] + piece + buf[at + |piece|..]
  }

  lemma SpliceNext(buf: seq<Byte>, at: nat, piece: seq<Byte>, k: nat)
    requires at + |piece| <= |buf| && k < |piece|
    ensures Splice(buf, at, piece[..k])[at + k := piece[k]] == Splice(buf, at, piece[..k + 1])
  {
  }

  /** Filling a free slice changes nothing the ring holds; publishing it appends the piece. */
  lemma FreeSliceAppends(buf: seq<Byte>, head: nat, tail: nat, piece: seq<Byte>)
    requires head < |buf| && tail < |buf|
    requires Used(|buf|, head, tail) + |piece| <= |buf| - 1 && tail + |piece| <= |buf|
    ensures var filled := Splice(buf, tail, piece);
            && Stored(filled, head, tail) == Stored(buf, head, tail)
            && Stored(filled, head, Advance(|buf|, tail, |piece|)) == Stored(buf, head, tail) + piece
  {
    var filled := Splice(buf, tail, piece);
    assert Stored(filled, head, tail) == Stored(buf, head, tail);
    PublishAppends(filled, head, tail, |piece|);
    assert filled[tail..tail + |piece|] == piece;
  }
}
