/** The ring as its two ends run it: loops over shared head, tail and buffer. The other end runs
    between any two volatile accesses; what it does there is an arbitrary schedule held by the ring. */
module ShmRing {
  import opened Bytes
  import opened RingIndex

  class Ring {
    const cap: nat
    const buf: array<Byte>
    var head: nat
    var tail: nat
    var readerMoves: seq<nat>          // how much the reader takes at each point it gets to run
    var writerMoves: seq<seq<Byte>>    // what the writer appends at each point it gets to run
    ghost var published: seq<Byte>
    ghost var consumed: seq<Byte>

    ghost predicate Valid()
      reads this, buf
    {
      && cap == buf.Length
      && head < cap && tail < cap
      && consumed + Stored(buf[..], head, tail) == published
    }

    constructor (capacity: nat, readerMoves: seq<nat>, writerMoves: seq<seq<Byte>>)
      requires capacity > 0
      ensures Valid() && cap == capacity && fresh(buf)
      ensures published == consumed == []
      ensures this.readerMoves == readerMoves && this.writerMoves == writerMoves
    {
      cap := capacity;
      buf := new Byte[capacity];
      head, tail := 0, 0;
      this.readerMoves, this.writerMoves := readerMoves, writerMoves;
      published, consumed := [], [];
    }

    /** The raw copy into the shared buffer. */
    method CopyIn(at: nat, piece: seq<Byte>)
      requires at + |piece| <= buf.Length
      modifies buf
      ensures buf[..] == Splice(old(buf[..]), at, piece)
    {
      ghost var before := buf[..];
      assert before == Splice(before, at, piece[..0]);
      for k := 0 to |piece|
        invariant buf[..] == Splice(before, at, piece[..k])
      {
        hide Splice;
        SpliceNext(before, at, piece, k);
        buf[at + k] := piece[k];
      }
      assert piece[..|piece|] == piece;
    }

    /** The reader runs: it moves the head over some stored bytes. */
    method ReaderRuns()
      requires Valid()
      modifies this`head, this`consumed, this`readerMoves
      ensures Valid() && old(consumed) <= consumed
      ensures Used(cap, head, tail) <= old(Used(cap, head, tail))
      ensures old(readerMoves) != [] ==> |readerMoves| < |old(readerMoves)|
      ensures old(readerMoves) == [] ==> readerMoves == [] && head == old(head)
    {
      hide Stored;
      if readerMoves != [] {
        var n := ReadLen(cap, head, tail, readerMoves[0]);
        ghost var bytes := buf[..];
        ConsumeDrops(bytes, head, tail, n);
        consumed := consumed + bytes[head..head + n];
        head := Advance(cap, head, n);
        readerMoves := readerMoves[1..];
      }
    }

    /** `is_full`, then `flush_out` spinning on it. It gives up only where the source would spin for
        ever: the ring is full and no reader is left to drain it. */
    method WaitForSpace() returns (ok: bool)
      requires Valid()
      modifies this`head, this`consumed, this`readerMoves
      ensures Valid() && old(consumed) <= consumed
      ensures ok ==> !IsFull(cap, head, tail)
      ensures !ok ==> readerMoves == [] && IsFull(cap, head, tail)
    {
      while IsFull(cap, head, tail)
        invariant Valid() && old(consumed) <= consumed
        decreases |readerMoves|
      {
        if readerMoves == [] { return false; }
        ReaderRuns();
      }
      return true;
    }

    /** One turn of the loop of `put_bytes` after the full test: a non-empty piece is published. */
    method PutPiece(src: seq<Byte>) returns (current: nat)
      requires Valid() && src != [] && !IsFull(cap, head, tail)
      modifies buf, this`head, this`tail, this`consumed, this`published, this`readerMoves
      ensures Valid() && 0 < current <= |src|
      ensures published == old(published) + src[..current]
      ensures old(consumed) <= consumed
    {
      hide Stored;
      var readTail := tail;
      ghost var seenHead := head;
      ReaderRuns();
      WriteProgress(cap, seenHead, head, tail, |src|);
      current := WriteLen(cap, head, readTail, |src|);
      FreeSliceAppends(buf[..], head, tail, src[..current]);
      CopyIn(readTail, src[..current]);
      tail := Advance(cap, readTail, current);
      published := published + src[..current];
    }

    /** `put_bytes`: all of `src` is published in order, or the ring stays full for ever. */
    method PutBytes(src: seq<Byte>) returns (sent: nat)
      requires Valid()
      modifies buf, this`head, this`tail, this`consumed, this`published, this`readerMoves
      ensures Valid() && sent <= |src|
      ensures published == old(published) + src[..sent]
      ensures old(consumed) <= consumed
      ensures sent < |src| ==> readerMoves == [] && IsFull(cap, head, tail)
    {
      hide *;
      sent := 0;
      while sent < |src|
        invariant Valid() && sent <= |src|
        invariant published == old(published) + src[..sent]
        invariant old(consumed) <= consumed
        decreases |src| - sent
      {
        var ok := WaitForSpace();
        if !ok { return; }
        var current := PutPiece(src[sent..]);
        assert src[..sent] + src[sent..][..current] == src[..sent + current];
        sent := sent + current;
      }
    }

    /** The writer runs: it publishes as much of its next piece as fits. */
    method WriterRuns()
      requires Valid()
      modifies buf, this`tail, this`published, this`writerMoves
      ensures Valid() && old(published) <= published
      ensures Stored(old(buf[..]), head, old(tail)) <= Stored(buf[..], head, tail)
    {
      hide Stored;
      if writerMoves != [] {
        var n := WriteLen(cap, head, tail, |writerMoves[0]|);
        var piece := writerMoves[0][..n];
        WriteLenFits(cap, head, tail, |writerMoves[0]|);
        FreeSliceAppends(buf[..], head, tail, piece);
        CopyIn(tail, piece);
        tail := Advance(cap, tail, n);
        published := published + piece;
        writerMoves := writerMoves[1..];
      }
    }

    /** One turn of the loop of `try_get_bytes` on a non-empty ring: the slice at the head is copied
        while the writer runs, then released. */
    method TakePiece(max: nat) returns (piece: seq<Byte>)
      requires Valid() && head != tail && max > 0
      modifies buf, this`head, this`tail, this`consumed, this`published, this`writerMoves
      ensures Valid() && 0 < |piece| <= max
      ensures consumed == old(consumed) + piece
    {
      hide Stored;
      var current := ReadLen(cap, head, tail, max);
      ConsumeDrops(buf[..], head, tail, current);
      piece := buf[head..head + current];
      WriterRuns();
      ConsumeDrops(buf[..], head, tail, current);
      consumed := consumed + piece;
      head := Advance(cap, head, current);
    }

    /** `try_get_bytes`: delivers up to `want` bytes, fewer only if it found the ring empty. */
    method TryGetBytes(want: nat) returns (dst: seq<Byte>)
      requires Valid()
      modifies buf, this`head, this`tail, this`consumed, this`published, this`writerMoves
      ensures Valid() && |dst| <= want
      ensures consumed == old(consumed) + dst
      ensures |dst| < want ==> head == tail
    {
      hide *;
      dst := [];
      while |dst| < want && head != tail
        invariant Valid() && |dst| <= want
        invariant consumed == old(consumed) + dst
        decreases want - |dst|
      {
        var piece := TakePiece(want - |dst|);
        dst := dst + piece;
      }
    }
  }
}
