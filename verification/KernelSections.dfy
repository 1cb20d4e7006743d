/** The info section from the compiler's side: its entries written out byte by byte, what the parser
    reads back from them, and exactly which sections it accepts. */
module KernelSections {
  import opened Bytes
  import opened Options
  import opened Wire
  import opened KernelParams

  // ---------------------------------------------------------------- the bit fields of a record

  /** The last word of a record: the size in the top 14 bits, then one bit that says the parameter is
      not in a constant bank, then 17 bits the parser does not read. */
  lemma RestFields(p: Param, size: nat, notCbank: nat, low: nat)
    requires p.rest == size * 0x4_0000 + notCbank * 0x2_0000 + low && notCbank < 2 && low < 0x2_0000
    ensures p.Size() == size && (p.IsCbank() <==> notCbank == 0)
    ensures p.End() == p.offset + size && p.Wrapped() == (p.offset + size) % 0x1_0000
  {
    assert p.rest / 0x2_0000 == size * 2 + notCbank;
  }

  // ---------------------------------------------------------------- entries

  datatype Entry =
    | Flag(attr: Byte)
    | Small(attr: Byte, val: Byte)
    | Half(attr: Byte, half: nat)
    | Block(attr: Byte, bytes: seq<Byte>)
    | Record(p: Param)

  ghost predicate EntryOk(e: Entry) {
    match e
    case Half(_, half) => half < 0x1_0000
    case Block(attr, bytes) => attr != 0x17 && |bytes| < 0x1_0000
    case Record(p) => p.index < 0x1_0000_0000 && p.ordinal < 0x1_0000 && p.offset < 0x1_0000 && p.rest < 0x1_0000_0000
    case _ => true
  }

  /** A format byte, an attribute, two bytes of value or length, and a block if there is one. */
  function EntryBytes(e: Entry): seq<Byte> {
    match e
    case Flag(attr) => [1, attr, 0, 0]
    case Small(attr, val) => [2, attr, val, 0]
    case Half(attr, half) => [3, attr] + ToLe(half, 2)
    case Block(attr, bytes) => [4, attr] + ToLe(|bytes|, 2) + bytes
    case Record(p) => [4, 0x17, 12, 0] + ToLe(p.index, 4) + ToLe(p.ordinal, 2) + ToLe(p.offset, 2) + ToLe(p.rest, 4)
  }

  function Section(es: seq<Entry>): seq<Byte> {
    if es == [] then [] else EntryBytes(es[0]) + Section(es[1..])
  }

  /** What an entry adds to what is seen: a declared size replaces the last one, records add up. */
  function SeenIn(e: Entry, seen: Seen): Seen {
    match e
    case Half(0x18, half) => Seen(half, false, seen.params)
    case Half(0x19, half) => Seen(half, true, seen.params)
    case Record(p) => Seen(seen.bytes, seen.cbank, seen.params + [p])
    case _ => seen
  }

  function SeenInAll(es: seq<Entry>, seen: Seen): Seen {
    if es == [] then seen else SeenInAll(es[1..], SeenIn(es[0], seen))
  }

  // ---------------------------------------------------------------- reading back

  lemma TwoBytes(n: nat)
    requires n < 0x1_0000
    ensures ToLe(n, 2) == [n % 256, n / 256]
  {
    assert ToLe(n / 256, 1) == [n / 256] + ToLe(n / 256 / 256, 0);
  }

  lemma RecordReads(p: Param)
    requires EntryOk(Record(p))
    ensures ReadParam(EntryBytes(Record(p))[4..]) == p
  {
    hide ToLe, FromLe;
    Powers();
    LeRoundTrip(p.index, 4);
    LeRoundTrip(p.ordinal, 2);
    LeRoundTrip(p.offset, 2);
    LeRoundTrip(p.rest, 4);
    Quarters([4, 0x17, 12, 0], ToLe(p.index, 4), ToLe(p.ordinal, 2), ToLe(p.offset, 2), ToLe(p.rest, 4));
  }

  lemma Quarters(h: seq<Byte>, x: seq<Byte>, y: seq<Byte>, z: seq<Byte>, w: seq<Byte>)
    requires |h| == |x| == |w| == 4 && |y| == |z| == 2
    ensures var b := (h + x + y + z + w)[4..];
            |b| == 12 && b[..4] == x && b[4..6] == y && b[6..8] == z && b[8..] == w
  {
    assert (h + x + y + z + w)[4..] == x + y + z + w;
    assert (x + y)[4..] == y;
  }

  function Format(e: Entry): nat { if e.Flag? then 1 else if e.Small? then 2 else if e.Half? then 3 else 4 }

  function Attribute(e: Entry): nat { if e.Record? then 0x17 else e.attr }

  function Value(e: Entry): nat {
    match e
    case Flag(_) => 0
    case Small(_, val) => val
    case Half(_, half) => half
    case Block(_, bytes) => |bytes|
    case Record(_) => 12
  }

  lemma HeaderIs(e: Entry)
    requires EntryOk(e)
    ensures var b := EntryBytes(e);
            && |b| == 4 + (if Format(e) == 4 then Value(e) else 0)
            && b[0] == Format(e) && b[1] == Attribute(e) && b[2] as int + 256 * b[3] as int == Value(e)
            && (e.Small? ==> b[3] == 0)
  {
    hide ToLe;
    match e
    case Half(_, half) => TwoBytes(half);
    case Block(_, bytes) => TwoBytes(|bytes|);
    case _ =>
  }

  /** One turn of the parser's loop reads one entry, wherever it stands. */
  lemma EntryReads(before: seq<Byte>, e: Entry, after: seq<Byte>, seen: Seen)
    requires EntryOk(e)
    ensures var b := before + EntryBytes(e) + after;
            |EntryBytes(e)| >= 4 && ScanOne(b, |before|, seen) == Some((|before| + |EntryBytes(e)|, SeenIn(e, seen)))
  {
    hide ReadParam, EntryBytes;
    var x, i := EntryBytes(e), |before|;
    HeaderIs(e);
    var b := before + x + after;
    assert b[i] == x[0] && b[i + 1] == x[1] && b[i + 2] == x[2] && b[i + 3] == x[3];
    if e.Record? {
      RecordReads(e.p);
      assert b[i + 4..i + 16] == x[4..];
    }
  }

  lemma {:induction false} SectionReadsFrom(before: seq<Byte>, es: seq<Entry>, seen: Seen)
    requires forall e :: e in es ==> EntryOk(e)
    ensures ScanFrom(before + Section(es), |before|, seen) == Some(SeenInAll(es, seen))
    decreases |es|
  {
    hide ScanOne, EntryBytes, SeenIn, EntryOk;
    if es != [] {
      EntryReads(before, es[0], Section(es[1..]), seen);
      assert before + Section(es) == before + EntryBytes(es[0]) + Section(es[1..]);
      SectionReadsFrom(before + EntryBytes(es[0]), es[1..], SeenIn(es[0], seen));
    }
  }

  /** Whatever well-formed entries a section consists of, the parser sees exactly them. */
  lemma SectionReads(es: seq<Entry>)
    requires forall e :: e in es ==> EntryOk(e)
    ensures ScanFrom(Section(es), 0, NOTHING) == Some(SeenInAll(es, Seen(0, false, [])))
  {
    SectionReadsFrom([], es, NOTHING);
    assert [] + Section(es) == Section(es);
  }

  // ---------------------------------------------------------------- only entries are read

  /** `b` is the section of the entries, or lacks some bytes of a last, skipped block. */
  ghost predicate Consists(b: seq<Byte>, es: seq<Entry>) {
    && (forall e :: e in es ==> EntryOk(e))
    && b <= Section(es)
    && (b != Section(es) ==> es != [] && es[|es| - 1].Block? && |b| + |es[|es| - 1].bytes| >= |Section(es)|)
  }

  /** A turn of the parser at `i` was over the entry `e`, whose block may reach past the end. */
  ghost predicate OverEntry(b: seq<Byte>, i: nat, seen: Seen, e: Entry)
    requires i < |b| && ScanOne(b, i, seen).Some?
  {
    var (j, next) := ScanOne(b, i, seen).value;
    && EntryOk(e) && next == SeenIn(e, seen) && j == i + |EntryBytes(e)|
    && (if j <= |b| then b[i..j] == EntryBytes(e) else e.Block? && j - |b| <= |e.bytes| && b[i..] <= EntryBytes(e))
  }

  lemma ShortEntry(b: seq<Byte>, i: nat, seen: Seen) returns (e: Entry)
    requires i < |b| && ScanOne(b, i, seen).Some? && b[i] < 4
    ensures OverEntry(b, i, seen, e)
  {
    var val := Val16(b, i);
    TwoBytes(val);
    hide ToLe;
    assert b[i..i + 4] == [b[i], b[i + 1], b[i + 2], b[i + 3]];
    e := if b[i] == 1 then Flag(b[i + 1]) else if b[i] == 2 then Small(b[i + 1], b[i + 2]) else Half(b[i + 1], val);
  }

  lemma RecordEntry(b: seq<Byte>, i: nat, seen: Seen) returns (e: Entry)
    requires i < |b| && ScanOne(b, i, seen).Some? && b[i] == 4 && b[i + 1] == 0x17
    ensures OverEntry(b, i, seen, e)
  {
    hide ReadParam, EntryBytes, EntryOk;
    var bytes := b[i + 4..i + 16];
    RecordWrites(bytes);
    assert b[i..i + 16] == [b[i], b[i + 1], b[i + 2], b[i + 3]] + bytes;
    e := Record(ReadParam(bytes));
  }

  lemma BlockWrites(b: seq<Byte>, i: nat, bytes: seq<Byte>)
    requires i + 4 <= |b| && b[i] == 4 && |bytes| == Val16(b, i)
    ensures |bytes| < 0x1_0000 && EntryBytes(Block(b[i + 1], bytes)) == b[i..i + 4] + bytes
  {
    TwoBytes(|bytes|);
    hide ToLe;
    assert b[i..i + 4] == [b[i], b[i + 1], b[i + 2], b[i + 3]];
  }

  lemma SkippedEntry(b: seq<Byte>, i: nat, seen: Seen) returns (e: Entry)
    requires i < |b| && ScanOne(b, i, seen).Some? && b[i] == 4 && b[i + 1] != 0x17
    ensures OverEntry(b, i, seen, e)
  {
    hide ReadParam, EntryBytes;
    var end := i + 4 + Val16(b, i);
    var bytes := if end <= |b| then b[i + 4..end] else b[i + 4..] + seq(end - |b|, k => 0);
    BlockWrites(b, i, bytes);
    e := Block(b[i + 1], bytes);
    assert ScanOne(b, i, seen) == Some((end, seen));
    if end <= |b| {
      assert b[i..end] == b[i..i + 4] + bytes;
    } else {
      assert b[i..i + 4] + bytes == b[i..] + seq(end - |b|, k => 0);
    }
  }

  /** The parser takes no turn but over an entry. */
  lemma OneIsEntry(b: seq<Byte>, i: nat, seen: Seen) returns (e: Entry)
    requires i < |b| && ScanOne(b, i, seen).Some?
    ensures OverEntry(b, i, seen, e)
  {
    hide OverEntry, ReadParam;
    if b[i] < 4 { e := ShortEntry(b, i, seen); }
    else if b[i + 1] == 0x17 { e := RecordEntry(b, i, seen); }
    else { e := SkippedEntry(b, i, seen); }
  }

  lemma RecordWrites(b: seq<Byte>)
    requires |b| == INFO
    ensures EntryOk(Record(ReadParam(b))) && EntryBytes(Record(ReadParam(b))) == [4, 0x17, 12, 0] + b
  {
    hide ToLe, FromLe;
    Powers();
    LeOnto(b[..4]);
    LeOnto(b[4..6]);
    LeOnto(b[6..8]);
    LeOnto(b[8..]);
    assert b == b[..4] + b[4..6] + b[6..8] + b[8..];
  }

  lemma ConsistsFront(e: Entry, x: seq<Byte>, es: seq<Entry>)
    requires EntryOk(e) && Consists(x, es)
    ensures Consists(EntryBytes(e) + x, [e] + es)
  {
    hide EntryBytes, EntryOk;
    assert ([e] + es)[1..] == es;
    assert Section([e] + es) == EntryBytes(e) + Section(es);
  }

  lemma ConsistsLast(e: Entry, x: seq<Byte>)
    requires EntryOk(e) && e.Block? && x <= EntryBytes(e) && |x| + |e.bytes| >= |EntryBytes(e)|
    ensures Consists(x, [e])
  {
    hide EntryBytes, EntryOk;
    assert Section([e]) == EntryBytes(e) + Section([]) == EntryBytes(e);
  }

  lemma {:induction false} OnlyEntriesFrom(b: seq<Byte>, i: nat, seen: Seen) returns (es: seq<Entry>)
    requires i <= |b| && ScanFrom(b, i, seen).Some?
    ensures Consists(b[i..], es) && SeenInAll(es, seen) == ScanFrom(b, i, seen).value
    decreases |b| - i
  {
    hide ScanOne, EntryBytes, SeenIn, EntryOk;
    if i == |b| {
      es := [];
    } else {
      var e := OneIsEntry(b, i, seen);
      var (j, next) := ScanOne(b, i, seen).value;
      if j <= |b| {
        var rest := OnlyEntriesFrom(b, j, next);
        hide Consists;
        es := [e] + rest;
        ConsistsFront(e, b[j..], rest);
        assert es[1..] == rest && b[i..] == b[i..j] + b[j..];
      } else {
        es := [e];
        ConsistsLast(e, b[i..]);
        assert es[1..] == [];
      }
    }
  }

  /** Conversely, whatever section is scanned without a panic consists of such entries, and what is
      seen are those. */
  lemma OnlyEntriesAreRead(b: seq<Byte>) returns (es: seq<Entry>)
    requires ScanFrom(b, 0, NOTHING).Some?
    ensures Consists(b, es) && ScanFrom(b, 0, NOTHING) == Some(SeenInAll(es, Seen(0, false, [])))
  {
    es := OnlyEntriesFrom(b, 0, NOTHING);
    assert b[0..] == b;
  }

  // ---------------------------------------------------------------- which sections are accepted

  ghost predicate Ordered(ps: seq<Param>) { forall i, j :: 0 <= i < j < |ps| ==> ps[i].ordinal <= ps[j].ordinal }

  lemma {:induction false} InsertOrders(ps: seq<Param>, p: Param)
    requires Ordered(ps)
    ensures Ordered(KernelParams.Insert(ps, p))
  {
    if ps != [] && ps[|ps| - 1].ordinal > p.ordinal {
      var front := ps[..|ps| - 1];
      InsertOrders(front, p);
      var r := KernelParams.Insert(front, p);
      forall i | 0 <= i < |r| ensures r[i].ordinal <= ps[|ps| - 1].ordinal {
        assert r[i] in multiset(r);
        assert r[i] in front || r[i] == p;
      }
    }
  }

  lemma {:induction false} SortOrders(ps: seq<Param>)
    ensures Ordered(Sort(ps))
  {
    if ps != [] {
      SortOrders(ps[..|ps| - 1]);
      InsertOrders(Sort(ps[..|ps| - 1]), ps[|ps| - 1]);
    }
  }

  /** Numbered from 0 on, in order. */
  ghost predicate Numbered(ps: seq<Param>) { forall i :: 0 <= i < |ps| ==> ps[i].ordinal == i }

  lemma {:induction false} OrderIsUnique(a: seq<Param>, ps: seq<Param>)
    requires Ordered(a) && Numbered(ps) && multiset(a) == multiset(ps)
    ensures a == ps
  {
    hide Ordered, Numbered;
    SameLength(a, ps);
    if ps != [] {
      LastIsLast(a, ps);
      Fronts(a, ps, |ps| - 1);
      DropLast(a, ps);
      OrderIsUnique(a[..|ps| - 1], ps[..|ps| - 1]);
      FrontAndLast(a, ps);
    }
  }

  lemma FrontAndLast(a: seq<Param>, b: seq<Param>)
    requires |a| == |b| > 0 && a[..|b| - 1] == b[..|b| - 1] && a[|b| - 1] == b[|b| - 1]
    ensures a == b
  {
    forall i | 0 <= i < |b| ensures a[i] == b[i] {
      if i < |b| - 1 { assert a[..|b| - 1][i] == b[..|b| - 1][i]; }
    }
  }

  lemma SameLength(a: seq<Param>, b: seq<Param>)
    requires multiset(a) == multiset(b)
    ensures |a| == |b|
  {
    assert |multiset(a)| == |a|;
  }

  lemma DropLast(a: seq<Param>, b: seq<Param>)
    requires |a| == |b| > 0 && multiset(a) == multiset(b) && a[|b| - 1] == b[|b| - 1]
    ensures multiset(a[..|b| - 1]) == multiset(b[..|b| - 1])
  {
    var front, rest, last := a[..|b| - 1], b[..|b| - 1], b[|b| - 1];
    assert a == front + [last] && b == rest + [last];
    assert multiset(front) + multiset{last} == multiset(rest) + multiset{last};
    assert multiset(front) == multiset(a) - multiset{last} && multiset(rest) == multiset(b) - multiset{last};
  }

  lemma Fronts(a: seq<Param>, ps: seq<Param>, n: nat)
    requires Ordered(a) && Numbered(ps) && n <= |a| == |ps|
    ensures Ordered(a[..n]) && Numbered(ps[..n])
  {
  }

  lemma LastIsLast(a: seq<Param>, ps: seq<Param>)
    requires Ordered(a) && Numbered(ps) && multiset(a) == multiset(ps) && |a| == |ps| > 0
    ensures a[|a| - 1] == ps[|ps| - 1]
  {
    var n := |ps| - 1;
    assert ps[n] in multiset(a) && a[n] in multiset(ps);
    var i :| 0 <= i < |a| && a[i] == ps[n];
    var j :| 0 <= j < |ps| && ps[j] == a[n];
    assert i < n ==> a[i].ordinal <= a[n].ordinal;
  }

  /** The rules for the records in ordinal order: numbered from 0, all in the declared bank, each end,
      as 16 bits show it, at most the next offset, and the last one the declared size. */
  ghost predicate Proper(ps: seq<Param>, bytes: nat, cbank: bool) {
    && Numbered(ps)
    && (forall i :: 0 <= i < |ps| ==> (ps[i].IsCbank() <==> cbank))
    && (forall i :: 0 <= i < |ps| - 1 ==> ps[i].Wrapped() <= ps[i + 1].offset)
    && (ps != [] ==> ps[|ps| - 1].Wrapped() == bytes)
  }

  lemma CheckedIsProper(ps: seq<Param>, bytes: nat, cbank: bool)
    requires Checks(ps, bytes, cbank)
    ensures Proper(ps, bytes, cbank)
  {
    hide Param.IsCbank, Param.Wrapped;
    forall i | 0 <= i < |ps|
      ensures ps[i].ordinal == i && (ps[i].IsCbank() <==> cbank)
      ensures if i < |ps| - 1 then ps[i].Wrapped() <= ps[i + 1].offset else ps[i].Wrapped() == bytes
    {
      assert Check(ps, i, bytes, cbank);
    }
    assert ps != [] ==> Check(ps, |ps| - 1, bytes, cbank);
  }

  lemma ProperIsChecked(ps: seq<Param>, bytes: nat, cbank: bool)
    ensures Proper(ps, bytes, cbank) <==> Checks(ps, bytes, cbank)
  {
    hide Param.IsCbank, Param.Wrapped;
    if Checks(ps, bytes, cbank) {
      assert Proper(ps, bytes, cbank) by { CheckedIsProper(ps, bytes, cbank); }
    }
    if Proper(ps, bytes, cbank) {
      forall i | 0 <= i < |ps| ensures Check(ps, i, bytes, cbank) {
        if i < |ps| - 1 { assert ps[i].Wrapped() <= ps[i + 1].offset; }
      }
    }
  }

  /** Main result. A section made of any entries is accepted, with the result `ps`, exactly if `ps` is
      an arrangement of its records that keeps the rules for the size declared last. */
  lemma AcceptsExactly(es: seq<Entry>, ps: seq<Param>)
    requires forall e :: e in es ==> EntryOk(e)
    ensures var seen := SeenInAll(es, Seen(0, false, []));
            Parsed(Section(es)) == Some(ps) <==> multiset(ps) == multiset(seen.params) && Proper(ps, seen.bytes, seen.cbank)
  {
    hide Sort, Checks, Proper, ScanFrom, EntryOk;
    SectionReads(es);
    var seen := SeenInAll(es, Seen(0, false, []));
    ProperIsChecked(Sort(seen.params), seen.bytes, seen.cbank);
    SortOrders(seen.params);
    if multiset(ps) == multiset(seen.params) && Proper(ps, seen.bytes, seen.cbank) {
      assert Numbered(ps) by { ProperIsNumbered(ps, seen.bytes, seen.cbank); }
      OrderIsUnique(Sort(seen.params), ps);
    }
  }

  lemma ProperIsNumbered(ps: seq<Param>, bytes: nat, cbank: bool)
    requires Proper(ps, bytes, cbank)
    ensures Numbered(ps)
  {
  }

  // ---------------------------------------------------------------- a section in bytes

  /** The record bytes of two parameters, 8 bytes at 0x160 and 4 bytes at 0x168, as the compiler writes
      them: the low bits of the last word hold 0x1f as the bank. */
  const FIRST: seq<Byte> := [0, 0, 0, 0, 0, 0, 0x60, 0x01, 0x00, 0xF0, 0x21, 0x00]
  const SECOND: seq<Byte> := [0, 0, 0, 0, 1, 0, 0x68, 0x01, 0x00, 0xF0, 0x11, 0x00]

  /** A flag, a small value, a shared-memory size, a block of another attribute, the second record, the
      constant-bank size, and the first record. */
  const SAMPLE: seq<Byte> :=
    [1, 0x2F, 0, 0] + ([2, 0x05, 7, 0] + ([3, 0x18, 0x10, 0] + ([4, 0x0A, 8, 0, 1, 2, 3, 4, 5, 6, 7, 8]
    + (([4, 0x17, 12, 0] + SECOND) + ([3, 0x19, 0x6C, 0x01] + ([4, 0x17, 12, 0] + FIRST))))))

  const FIRST_PARAM := Param(0, 0, 0x160, 0x0021_F000)
  const SECOND_PARAM := Param(0, 1, 0x168, 0x0011_F000)

  function SampleEntries(): seq<Entry> {
    [Flag(0x2F), Small(0x05, 7), Half(0x18, 0x10), Block(0x0A, [1, 2, 3, 4, 5, 6, 7, 8]),
     Record(SECOND_PARAM), Half(0x19, 0x16C), Record(FIRST_PARAM)]
  }

  lemma RecordIs(b: seq<Byte>, p: Param)
    requires |b| == INFO && p.index == 0
    requires b[0] == b[1] == b[2] == b[3] == 0
    requires p.ordinal == b[4] as int + 256 * b[5] as int && p.offset == b[6] as int + 256 * b[7] as int
    requires p.rest == b[8] as int + 256 * (b[9] as int + 256 * (b[10] as int + 256 * b[11] as int))
    ensures EntryOk(Record(p)) && EntryBytes(Record(p)) == [4, 0x17, 12, 0] + b
  {
    Le4(b[..4]);
    Le2(b[4..6]);
    Le2(b[6..8]);
    Le4(b[8..]);
    hide FromLe, EntryBytes, EntryOk;
    assert ReadParam(b) == p;
    RecordWrites(b);
  }

  lemma SampleEntryBytes()
    ensures var es := SampleEntries();
            && EntryBytes(es[0]) == [1, 0x2F, 0, 0] && EntryBytes(es[1]) == [2, 0x05, 7, 0]
            && EntryBytes(es[2]) == [3, 0x18, 0x10, 0] && EntryBytes(es[3]) == [4, 0x0A, 8, 0, 1, 2, 3, 4, 5, 6, 7, 8]
            && EntryBytes(es[4]) == [4, 0x17, 12, 0] + SECOND && EntryBytes(es[5]) == [3, 0x19, 0x6C, 0x01]
            && EntryBytes(es[6]) == [4, 0x17, 12, 0] + FIRST
    ensures forall e :: e in SampleEntries() ==> EntryOk(e)
  {
    hide EntryBytes, EntryOk;
    RecordIs(FIRST, FIRST_PARAM);
    RecordIs(SECOND, SECOND_PARAM);
    PlainBytes(0x2F, 0, []);
    PlainBytes(0x05, 7, []);
    PlainBytes(0x18, 0x10, []);
    PlainBytes(0x19, 0x16C, []);
    PlainBytes(0x0A, 8, [1, 2, 3, 4, 5, 6, 7, 8]);
  }

  lemma PlainBytes(attr: Byte, val: nat, bytes: seq<Byte>)
    requires val < 0x1_0000 && attr != 0x17
    ensures EntryOk(Flag(attr)) && EntryBytes(Flag(attr)) == [1, attr, 0, 0]
    ensures val < 256 ==> EntryOk(Small(attr, val)) && EntryBytes(Small(attr, val)) == [2, attr, val, 0]
    ensures EntryOk(Half(attr, val)) && EntryBytes(Half(attr, val)) == [3, attr, val % 256, val / 256]
    ensures |bytes| == val ==> EntryOk(Block(attr, bytes)) && EntryBytes(Block(attr, bytes)) == [4, attr, val % 256, val / 256] + bytes
  {
    TwoBytes(val);
    hide ToLe;
  }

  lemma SampleIsSection()
    ensures Section(SampleEntries()) == SAMPLE
  {
    hide EntryBytes, Section;
    var es := SampleEntries();
    SampleEntryBytes();
    var end := Section(es[7..]);
    assert end == [] by { SectionEnds(es[7..]); }
    SectionFrom(es, 6);
    assert Section(es[6..]) == EntryBytes(es[6]);
    SectionFrom(es, 5);
    SectionFrom(es, 4);
    SectionFrom(es, 3);
    SectionFrom(es, 2);
    SectionFrom(es, 1);
    SectionFrom(es, 0);
    assert es[0..] == es;
  }

  lemma SectionFrom(es: seq<Entry>, i: nat)
    requires i < |es|
    ensures Section(es[i..]) == EntryBytes(es[i]) + Section(es[i + 1..])
  {
    hide EntryBytes;
    assert es[i..][1..] == es[i + 1..];
  }

  lemma SectionEnds(es: seq<Entry>)
    requires es == []
    ensures Section(es) == []
  {
  }

  /** That section is accepted: two parameters, the 8-byte one first, in the constant bank, the last
      ending at the size declared for it. */
  lemma SampleIsAccepted()
    ensures Parsed(SAMPLE) == Some([FIRST_PARAM, SECOND_PARAM])
    ensures FIRST_PARAM.Size() == 8 && SECOND_PARAM.Size() == 4 && FIRST_PARAM.IsCbank() && SECOND_PARAM.IsCbank()
  {
    SampleEntryBytes();
    SampleIsSection();
    SampleIsSeen();
    hide EntryBytes, ScanFrom, Sort, Section, SeenInAll, EntryOk;
    RestFields(FIRST_PARAM, 8, 0, 0x1_F000);
    RestFields(SECOND_PARAM, 4, 0, 0x1_F000);
    AcceptsExactly(SampleEntries(), [FIRST_PARAM, SECOND_PARAM]);
    assert multiset([FIRST_PARAM, SECOND_PARAM]) == multiset([SECOND_PARAM, FIRST_PARAM]);
  }

  lemma SampleIsSeen()
    ensures SeenInAll(SampleEntries(), NOTHING) == Seen(0x16C, true, [SECOND_PARAM, FIRST_PARAM])
  {
    var es := SampleEntries();
    hide SeenInAll;
    SeenFrom(es, 0, NOTHING);
    SeenFrom(es, 1, NOTHING);
    SeenFrom(es, 2, NOTHING);
    SeenFrom(es, 3, Seen(0x10, false, []));
    SeenFrom(es, 4, Seen(0x10, false, []));
    var seen := Seen(0x10, false, [SECOND_PARAM]);
    assert [] + [SECOND_PARAM] == seen.params;
    SeenFrom(es, 5, seen);
    SeenFrom(es, 6, seen.(bytes := 0x16C, cbank := true));
    assert [SECOND_PARAM] + [FIRST_PARAM] == [SECOND_PARAM, FIRST_PARAM];
    assert es[0..] == es;
    assert es[7..] == [];
    assert forall seen :: SeenInAll([], seen) == seen by { SeenNothing(); }
  }

  lemma SeenFrom(es: seq<Entry>, i: nat, seen: Seen)
    requires i < |es|
    ensures SeenInAll(es[i..], seen) == SeenInAll(es[i + 1..], SeenIn(es[i], seen))
  {
    hide SeenIn;
    assert es[i..][1..] == es[i + 1..];
  }

  lemma SeenNothing()
    ensures forall seen :: SeenInAll([], seen) == seen
  {
  }
}
