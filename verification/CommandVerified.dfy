/** Every encoded body command passes the verifier that its receiver runs before it reads. */
module CommandVerified {
  import opened Words
  import opened BodyShape
  import opened Bytes
  import opened Tables
  import opened Wrappers
  import opened BuilderModel
  import opened TableRoundTrip
  import opened BuilderLayout
  import opened BulkReader
  import opened BodyCommand
  import opened CommandRoundTrip
  import opened Verifier

  // ---------------------------------------------------------------------------------------
  // The link of a table and its vtable
  // ---------------------------------------------------------------------------------------

  /** The kept vtables stand at even offsets. */
  predicate EvenVTables(b: Builder) {
    forall k | 0 <= k < |b.vtables| :: b.vtables[k] % 2 == 0
  }

  lemma EvenSum(loc: nat, size: nat)
    requires loc % 4 == 0 && size % 2 == 0
    ensures (loc + size) % 2 == 0
  {
    CoarseMultiples(loc);
    MultiplesAdd(loc, size);
  }

  lemma TableOffsetAligned(p: Builder)
    ensures TableOffset(p) % 4 == 0
  {
    var aligned := |Aligned(p, 4).data|;
    assert aligned == Padding(|p.data|, 4) + |p.data|;
    hide Padding;
    SumAligned(aligned, 4, 4);
  }

  lemma EndedKeepsEven(p: Builder, start: nat)
    requires MayEnd(p, start) && Laid(p, start) && EvenVTables(p)
    ensures EvenVTables(EndedTable(p, start))
  {
    hide NewVTable, Shared, TableOffset, Laid, Aligned, LeS32;
    NewVTableIsVTable(p, start);
    TableOffsetAligned(p);
    EvenSum(TableOffset(p), |NewVTable(p, start)|);
  }

  lemma TableKeepsEven(b: Builder, fs: seq<Field>)
    requires Idle(b) && AllWellFormed(fs, |b.data|) && EvenVTables(b)
    ensures EvenVTables(TableOf(b, fs))
  {
    hide AllPlaced, EndedTable;
    EndedKeepsEven(AllPlaced(b, fs), |b.data|);
  }

  lemma DifferenceEven(n: nat, m: nat)
    requires m <= n
    ensures n % 2 == 0 && m % 2 == 0 ==> (n - m) % 2 == 0
  {
  }

  lemma DifferenceByFour(n: nat, m: nat)
    requires m <= n
    ensures n % 4 == 0 && m % 4 == 0 ==> (n - m) % 4 == 0
  {
  }

  lemma DifferenceByEight(n: nat, m: nat)
    requires m <= n
    ensures n % 8 == 0 && m % 8 == 0 ==> (n - m) % 8 == 0
  {
  }

  /** A place that counts from the end of an aligned buffer is aligned from the start as well. */
  lemma PlaceAligned(size: nat, off: nat, align: nat)
    requires IsAlignment(align) && off <= size && size % align == 0 && off % align == 0
    ensures (size - off) % align == 0
  {
    match align
    case 1 =>
    case 2 => DifferenceEven(size, off);
    case 4 => DifferenceByFour(size, off);
    case _ => DifferenceByEight(size, off);
  }

  lemma SmallRemainder(n: nat)
    requires n < TWO_TO_THE_31
    ensures n % TWO_TO_THE_64 == n
  {
  }

  lemma StandsInside(data: seq<byte>, use: nat, vt: seq<byte>)
    requires Stands(data, use, vt)
    ensures |vt| <= use
  {
  }

  /** A table that stands behind something in a buffer of aligned size passes. */
  lemma StandingTablePasses(data: seq<byte>, loc: nat, use: nat, vt: seq<byte>)
    requires |data| < MAX_BUFFER && |data| % 4 == 0 && IsVTable(vt)
    requires loc % 4 == 0 && use % 2 == 0 && 4 < |data| && loc <= |data| && use < |data|
    requires Stands(data, loc, LeS32(use - loc)) && Stands(data, use, vt)
    ensures TableStartOk(data, Place(data, loc))
  {
    ReadsThrough(data, loc, use, vt, 4);
    PlaceAligned(|data|, loc, 4);
    CoarseMultiples(|data|);
    PlaceAligned(|data|, use, 2);
    hide Stands, LeS32, IsVTable, Readable, S32, U16, FieldOffset;
    SmallRemainder(|data| - use);
    StandsInside(data, use, vt);
  }

  lemma LinkLater(data: seq<byte>, later: seq<byte>, loc: int, use: int, vt: seq<byte>)
    requires 0 <= loc && 0 <= use && Extends(data, later)
    requires Stands(data, loc, LeS32(use - loc)) && Stands(data, use, vt)
    ensures Stands(later, loc, LeS32(use - loc)) && Stands(later, use, vt)
  {
    assert loc <= |data| && use <= |data|;
    ExtendsKeepsStands(data, later, loc, LeS32(use - loc));
    ExtendsKeepsStands(data, later, use, vt);
  }

  lemma TableOffsetPositive(p: Builder)
    ensures TableOffset(p) >= 4
  {
  }

  lemma UseIsEven(p: Builder, use: nat, vt: seq<byte>)
    requires EvenVTables(p) && IsVTable(vt) && TableOffset(p) % 4 == 0
    requires use in p.vtables || use == TableOffset(p) + |vt|
    ensures use % 2 == 0
  {
    hide TableOffset;
    if use == TableOffset(p) + |vt| {
      EvenSum(TableOffset(p), |vt|);
    }
  }

  lemma UseInside(data: seq<byte>, use: nat, vt: seq<byte>)
    requires Stands(data, use, vt)
    ensures use <= |data|
  {
  }

  /** An ended table passes in every longer buffer of aligned size. */
  lemma EndedPasses(p: Builder, start: nat, later: seq<byte>)
    requires MayEnd(p, start) && Laid(p, start) && EvenVTables(p)
    requires Extends(EndedTable(p, start).data, later) && |EndedTable(p, start).data| < |later| < MAX_BUFFER
    requires |later| % 4 == 0
    ensures TableOffset(p) <= |later| && TableStartOk(later, Place(later, TableOffset(p)))
  {
    hide EndedTable, Laid, NewVTable, Stands, Extends, LeS32, TableOffset, TableStartOk, IsVTable, MayEnd, EvenVTables;
    NewVTableIsVTable(p, start);
    TableOffsetAligned(p);
    TableOffsetPositive(p);
    var use := EndedTableShape(p, start);
    var data, loc, vt := EndedTable(p, start).data, TableOffset(p), NewVTable(p, start);
    UseIsEven(p, use, vt);
    UseInside(data, use, vt);
    LinkLater(data, later, loc, use, vt);
    StandingTablePasses(later, loc, use, vt);
  }

  /** The table built on `b` passes in every longer buffer of aligned size. */
  lemma TablePasses(b: Builder, fs: seq<Field>, later: seq<byte>)
    requires Idle(b) && AllWellFormed(fs, |b.data|) && EvenVTables(b)
    requires Extends(TableOf(b, fs).data, later) && |TableOf(b, fs).data| < |later| < MAX_BUFFER
    requires |later| % 4 == 0
    ensures NewTable(b, fs) <= |later| && TableStartOk(later, Place(later, NewTable(b, fs)))
  {
    hide AllPlaced, EndedTable, Extends, TableStartOk;
    EndedPasses(AllPlaced(b, fs), |b.data|, later);
  }

  // ---------------------------------------------------------------------------------------
  // Fields
  // ---------------------------------------------------------------------------------------

  /** A field that lies in its table passes, at any alignment it has from the start of the buffer. */
  lemma FieldPasses(b: seq<byte>, pos: nat, f: Field, width: nat)
    requires IsFieldId(f.id) && IsAlignment(AlignmentOf(f))
    requires LiesInTable(b, pos, f) && ReadsBack(b, pos, f)
    requires Stores(f) ==> WidthOf(f) == width && |b| % AlignmentOf(f) == 0
    ensures FieldOk(b, pos, f.id, width, AlignmentOf(f))
  {
    var offset := FieldOffset(b, pos, f.id);
    assert offset == 0 <==> !Stores(f);
    hide Readable, FieldOffset, ReadsBack, TableSize, VTable, WidthOf, AlignmentOf, Stores, Fits;
    if offset != 0 {
      var end := |b| - pos - offset;
      PlaceAligned(|b|, end, AlignmentOf(f));
    }
  }

  /** A reference to something in front of the end passes. */
  lemma ReferencePasses(b: seq<byte>, pos: nat, id: nat, target: nat)
    requires IsFieldId(id) && |b| % 4 == 0 && |b| < TWO_TO_THE_31
    requires LiesInTable(b, pos, Reference(id, target)) && ReadsBack(b, pos, Reference(id, target))
    requires target != 0 ==> U32(b, pos + FieldOffset(b, pos, id)) != 0
    ensures ReferenceOk(b, pos, id)
    ensures Target(b, pos, id) == if target == 0 then None else Some(Place(b, target))
  {
    var f := Reference(id, target);
    FieldPasses(b, pos, f, 4);
    hide Readable, FieldOffset, TableSize, VTable, U32;
  }

  /** A stored reference of a finished table points forward. */
  lemma PointsForward(b: Builder, fs: seq<Field>, i: nat, later: seq<byte>)
    requires Idle(b) && AllWellFormed(fs, |b.data|) && Distinct(fs) && TableFits(b, fs) && i < |fs|
    requires Extends(TableOf(b, fs).data, later) && |later| < TWO_TO_THE_31
    requires fs[i].Reference? && fs[i].target != 0
    ensures WellFormed(fs[i], |b.data|)
    ensures var pos := Place(later, NewTable(b, fs));
            && Readable(later, pos) && FieldFits(later, pos, fs[i].id, 4)
            && U32(later, pos + FieldOffset(later, pos, fs[i].id)) != 0
  {
    hide Readable, FieldOffset, TableFits, Kept, NewTable, TableOf, TableOffset, Extends, AllWellFormed, Distinct, U32,
         Slice, Le;
    var off := FieldFound(b, fs, i, later);
    U32OfLe(later, |later| - off, off - fs[i].target);
  }

  // ---------------------------------------------------------------------------------------
  // Alignment of the message
  // ---------------------------------------------------------------------------------------

  predicate AlignedFor(size: nat, fs: seq<Field>) {
    forall i | 0 <= i < |fs| && Stores(fs[i]) :: IsAlignment(AlignmentOf(fs[i])) && size % AlignmentOf(fs[i]) == 0
  }

  lemma AlignedForAll(size: nat, minAlign: nat, fs: seq<Field>, bound: nat)
    requires IsAlignment(minAlign) && size % minAlign == 0 && AllWellFormed(fs, bound)
    requires forall i | 0 <= i < |fs| && Stores(fs[i]) :: AlignmentOf(fs[i]) <= minAlign
    ensures AlignedFor(size, fs)
  {
    forall i | 0 <= i < |fs| && Stores(fs[i])
      ensures IsAlignment(AlignmentOf(fs[i])) && size % AlignmentOf(fs[i]) == 0
    {
      assert WellFormed(fs[i], bound);
      Divides(size, AlignmentOf(fs[i]), minAlign);
    }
  }

  lemma VectorKeepsMinAlign(b: Builder, payload: seq<byte>, count: nat, align: nat)
    requires IsAlignment(align)
    ensures b.minAlign <= CreatedVector(b, payload, count, align).minAlign
    ensures CreatedVector(b, payload, count, align).vtables == b.vtables
  {
  }

  lemma FinishedIsLonger(b: Builder, root: nat)
    requires IsAlignment(b.minAlign) && root <= |Aligned(PreAligned(b, 4, b.minAlign), 4).data|
    ensures |b.data| < |Finished(b, root).data|
  {
  }

  lemma HeaderMinAlign(c: Command, h: Header)
    ensures var fs := HeaderFieldsOf(h);
            forall i | 0 <= i < |fs| && Stores(fs[i]) :: AlignmentOf(fs[i]) <= WithJoints(c, h).minAlign
    ensures EvenVTables(WithJoints(c, h))
  {
    var b, fs := WithNode(h), HeaderFieldsOf(h);
    HeaderWellFormed(h, NodeOffset(h), |b.data|);
    assert EvenVTables(b) && IsAlignment(b.minAlign);
    hide HeaderFields, NodeOffset, WithNode, TableOf, Stores, AlignmentOf, WellFormed, CreatedVector, JointsBytes;
    TableMinAlign(b, fs);
    TableKeepsEven(b, fs);
    VectorKeepsMinAlign(WithHeader(h), JointsBytes(c.joints), |c.joints|, 4);
  }

  lemma CommandMinAlign(c: Command, h: Header)
    ensures var fs := FieldsOf(c, h);
            forall i | 0 <= i < |fs| && Stores(fs[i]) :: AlignmentOf(fs[i]) <= WithCommand(c, h).minAlign
    ensures WithJoints(c, h).minAlign <= WithCommand(c, h).minAlign
    ensures AllWellFormed(FieldsOf(c, h), |WithJoints(c, h).data|)
  {
    hide CommandFields, HeaderOffset, TableOf, Stores, AlignmentOf, WellFormed, WithJoints;
    BuiltJoints(c, h);
    CommandWellFormed(c, HeaderOffset(h), |WithJoints(c, h).data|, |WithJoints(c, h).data|);
    TableMinAlign(WithJoints(c, h), FieldsOf(c, h));
  }

  lemma MessageSize(c: Command, h: Header)
    requires MessageFits(c, h)
    ensures IsAlignment(WithCommand(c, h).minAlign) && |Message(c, h)| % WithCommand(c, h).minAlign == 0
    ensures |Message(c, h)| % 4 == 0 && |WithCommand(c, h).data| < |Message(c, h)| < MAX_BUFFER
  {
    hide WithCommand, CommandOffset, Finished, Aligned, PreAligned;
    CommandExtends(c, h);
    BuiltCommand(c, h);
    FinishedStands(WithCommand(c, h), CommandOffset(c, h));
    FinishedIsLonger(WithCommand(c, h), CommandOffset(c, h));
    Divides(|Message(c, h)|, 4, WithCommand(c, h).minAlign);
  }

  /** The size of a message is a multiple of the alignment of every field stored in it. */
  lemma MessageAligned(c: Command, h: Header)
    requires MessageFits(c, h)
    ensures AlignedFor(|Message(c, h)|, FieldsOf(c, h)) && AlignedFor(|Message(c, h)|, HeaderFieldsOf(h))
  {
    hide Message, WithCommand, WithJoints, FieldsOf, HeaderFields, Stores, AlignmentOf, AlignedFor, WellFormed;
    HeaderMinAlign(c, h);
    CommandMinAlign(c, h);
    MessageSize(c, h);
    HeaderWellFormed(h, NodeOffset(h), |WithNode(h).data|);
    AlignedForAll(|Message(c, h)|, WithCommand(c, h).minAlign, FieldsOf(c, h), |WithJoints(c, h).data|);
    AlignedForAll(|Message(c, h)|, WithCommand(c, h).minAlign, HeaderFieldsOf(h), |WithNode(h).data|);
  }

  // ---------------------------------------------------------------------------------------
  // The header
  // ---------------------------------------------------------------------------------------

  function HeaderOfMessage(c: Command, h: Header): int
    requires |c.joints| == SLOTS
  {
    Place(Message(c, h), HeaderOffset(h))
  }

  /** The header as a table of its fields, in the message. */
  lemma HeaderTable(c: Command, h: Header)
    requires MessageFits(c, h)
    ensures var b, fs := WithNode(h), HeaderFieldsOf(h);
            && Idle(b) && |fs| == 3 && AllWellFormed(fs, |b.data|) && Distinct(fs) && TableFits(b, fs) && EvenVTables(b)
            && WithHeader(h) == TableOf(b, fs) && NewTable(b, fs) == HeaderOffset(h)
            && Extends(TableOf(b, fs).data, Message(c, h))
  {
    var b, fs := WithNode(h), HeaderFieldsOf(h);
    HeaderWellFormed(h, NodeOffset(h), |b.data|);
    HeaderInMessage(c, h);
    assert Distinct(fs) && WithHeader(h) == TableOf(b, fs) && Idle(b) && EvenVTables(b);
    assert |TableOf(b, fs).data| <= |Message(c, h)|;
    hide Message, WithNode, TableOf, WellFormed, Extends, WithHeader, Distinct;
    SmallTableFits(b, fs);
  }

  lemma ReadableInside(b: seq<byte>, pos: int, f: Field)
    requires IsFieldId(f.id) && ReadsBack(b, pos, f)
    ensures pos >= 0 && Readable(b, pos)
  {
  }

  lemma AlignmentKnown(f: Field, size: nat)
    requires WellFormed(f, size)
    ensures IsFieldId(f.id) && IsAlignment(AlignmentOf(f))
  {
  }

  lemma HeaderFieldPasses(c: Command, h: Header, i: nat)
    requires MessageFits(c, h) && i < 3
    ensures var b, pos, f := Message(c, h), HeaderOfMessage(c, h), HeaderFieldsOf(h)[i];
            && pos >= 0 && IsFieldId(f.id) && IsAlignment(AlignmentOf(f)) && Readable(b, pos)
            && ReadsBack(b, pos, f) && LiesInTable(b, pos, f)
            && FieldOk(b, pos, f.id, WidthOf(f), AlignmentOf(f))
            && (f.Reference? && f.target != 0 ==> U32(b, pos + FieldOffset(b, pos, f.id)) != 0)
  {
    hide Message, WithNode, TableFits, TableOf, NewTable, HeaderOffset, HeaderFields, Distinct, Idle, LiesInTable,
         Readable, FieldOffset, FieldOk, ReadsBack, Extends, WidthOf, EvenVTables, Stores, U32;
    HeaderTable(c, h);
    MessageAligned(c, h);
    var b, fs, later := WithNode(h), HeaderFieldsOf(h), Message(c, h);
    HeaderFieldReads(c, h, i);
    FieldLiesInTable(b, fs, i, later);
    ReadableInside(later, HeaderOfMessage(c, h), fs[i]);
    AlignmentKnown(fs[i], |b.data|);
    FieldPasses(later, HeaderOfMessage(c, h), fs[i], WidthOf(fs[i]));
    if fs[i].Reference? && fs[i].target != 0 {
      PointsForward(b, fs, i, later);
    }
  }

  lemma PieceIs(text: seq<byte>)
    ensures var piece := Le(|text|, 4) + (text + [0]);
            |piece| == |text| + 5 && Slice(piece, 0, 4) == Le(|text|, 4) && piece[|text| + 4] == 0
  {
    hide Le;
  }

  lemma SliceAt(b: seq<byte>, i: int, width: nat, k: nat)
    requires Fits(b, i, width) && k < width
    ensures Slice(b, i, width)[k] == b[i + k]
  {
  }

  /** The parts of a string piece that stands at `v`. */
  lemma PieceTerminated(b: seq<byte>, v: nat, piece: seq<byte>, n: nat)
    requires Stands(b, v, piece) && |piece| == n + 5 && piece[n + 4] == 0
    ensures n + 5 <= v <= |b| && Slice(b, |b| - v, 4) == Slice(piece, 0, 4)
    ensures b[|b| - v + (n + 4)] == 0
  {
    hide Slice;
    SliceOfSlice(b, |b| - v, |piece|, 0, 4);
    SliceAt(b, |b| - v, |piece|, n + 4);
  }

  /** A string that stands at an aligned offset passes. */
  lemma StringPasses(b: seq<byte>, v: nat, text: seq<byte>)
    requires Stands(b, v, Le(|text|, 4) + (text + [0])) && |b| % 4 == 0 && v % 4 == 0 && v < |b| < MAX_BUFFER
    ensures Place(b, v) >= 0 && StringOk(b, Place(b, v))
  {
    hide Le, U32, Stands, Slice;
    PieceIs(text);
    PieceTerminated(b, v, Le(|text|, 4) + (text + [0]), |text|);
    U32OfLe(b, Place(b, v), |text|);
    PlaceAligned(|b|, v, 4);
  }

  lemma NodeShorter(c: Command, h: Header)
    requires MessageFits(c, h)
    ensures |WithNode(h).data| < |Message(c, h)|
  {
    hide Message, WithNode, WithHeader, WithJoints, WithCommand, CommandOffset;
    MessageSize(c, h);
    HeaderExtends(h);
    JointsExtend(c, h);
    CommandExtends(c, h);
  }

  /** The name of the node, with the zero behind it. */
  lemma NodePasses(c: Command, h: Header)
    requires MessageFits(c, h) && h.node != []
    ensures Place(Message(c, h), NodeOffset(h)) >= 0 && StringOk(Message(c, h), Place(Message(c, h), NodeOffset(h)))
  {
    hide Message, CreatedString, Le, WithCommand, HeaderOffset, StringOk, Stands, Extends;
    var b, v := Message(c, h), |WithNode(h).data|;
    StringStands(EMPTY, h.node);
    HeaderInMessage(c, h);
    NodeShorter(c, h);
    MessageSize(c, h);
    ExtendsKeepsStands(WithNode(h).data, b, v, Le(|h.node|, 4) + (h.node + [0]));
    StringPasses(b, v, h.node);
  }

  lemma HeaderShorter(c: Command, h: Header)
    requires MessageFits(c, h)
    ensures |WithHeader(h).data| < |Message(c, h)|
  {
    hide Message, WithHeader, WithJoints, WithCommand, CommandOffset;
    MessageSize(c, h);
    JointsExtend(c, h);
    CommandExtends(c, h);
  }

  lemma HeaderStarts(c: Command, h: Header)
    requires MessageFits(c, h)
    ensures |Message(c, h)| < MAX_BUFFER && HeaderOfMessage(c, h) >= 0
    ensures TableStartOk(Message(c, h), HeaderOfMessage(c, h))
  {
    hide Message, TableOf, NewTable, Extends, TableStartOk, WellFormed, Distinct, WithNode, HeaderFieldsOf,
         WithHeader, HeaderOffset;
    MessageSize(c, h);
    HeaderTable(c, h);
    HeaderShorter(c, h);
    TablePasses(WithNode(h), HeaderFieldsOf(h), Message(c, h));
  }

  lemma NumberIs(id: nat, v: nat, width: nat)
    ensures Number(id, v, width).id == id && Number(id, v, width).Scalar?
    ensures WidthOf(Number(id, v, width)) == width && AlignmentOf(Number(id, v, width)) == width
  {
  }

  lemma HeaderPasses(c: Command, h: Header)
    requires MessageFits(c, h)
    ensures |Message(c, h)| < MAX_BUFFER && HeaderOfMessage(c, h) >= 0
    ensures HeaderOk(Message(c, h), HeaderOfMessage(c, h))
  {
    hide Message, HeaderOffset, NodeOffset, Number, FieldOffset, Readable, ReadsBack, LiesInTable, FieldOk,
         TableStartOk, StringOk, HeaderFieldsOf, WithCommand, WithHeader, TableOf, NewTable, Extends, U32, WithNode;
    var b, pos := Message(c, h), HeaderOfMessage(c, h);
    MessageSize(c, h);
    HeaderFieldsAre(h);
    HeaderStarts(c, h);
    HeaderFieldPasses(c, h, 0);
    HeaderFieldPasses(c, h, 1);
    HeaderFieldPasses(c, h, 2);
    NumberIs(4, h.stampNs, 8);
    NumberIs(8, h.sequence, 8);
    ReferencePasses(b, pos, 6, NodeOffset(h));
    if h.node != [] {
      NodePasses(c, h);
    }
  }

  // ---------------------------------------------------------------------------------------
  // The command
  // ---------------------------------------------------------------------------------------

  lemma CommandFieldPasses(c: Command, h: Header, i: nat)
    requires MessageFits(c, h) && i < 11
    ensures |FieldsOf(c, h)| == 11
    ensures var b, pos, f := Message(c, h), TableOfMessage(c, h), FieldsOf(c, h)[i];
            && pos >= 0 && IsFieldId(f.id) && IsAlignment(AlignmentOf(f)) && Readable(b, pos)
            && ReadsBack(b, pos, f) && LiesInTable(b, pos, f)
            && FieldOk(b, pos, f.id, WidthOf(f), AlignmentOf(f))
  {
    hide Message, WithJoints, FieldsOf, CommandOffset, LiesInTable, Readable, FieldOffset, FieldOk, ReadsBack, WidthOf,
         Stores;
    MessageAligned(c, h);
    var b, pos := Message(c, h), TableOfMessage(c, h);
    CommandFieldReads(c, h, i);
    var f := FieldsOf(c, h)[i];
    ReadableInside(b, pos, f);
    AlignmentKnown(f, |WithJoints(c, h).data|);
    FieldPasses(b, pos, f, WidthOf(f));
  }

  lemma CommandPointsForward(c: Command, h: Header, i: nat)
    requires MessageFits(c, h) && i < 11 && |FieldsOf(c, h)| == 11
    requires FieldsOf(c, h)[i].Reference? && FieldsOf(c, h)[i].target != 0
    ensures var b, pos, f := Message(c, h), TableOfMessage(c, h), FieldsOf(c, h)[i];
            && IsFieldId(f.id) && Readable(b, pos) && FieldFits(b, pos, f.id, 4)
            && U32(b, pos + FieldOffset(b, pos, f.id)) != 0
  {
    hide Message, WithJoints, FieldsOf, CommandOffset, Readable, FieldOffset, U32, TableFits, NewTable, TableOf,
         Distinct, Extends, WellFormed;
    CommandTable(c, h);
    AlignmentKnown(FieldsOf(c, h)[i], |WithJoints(c, h).data|);
    PointsForward(WithJoints(c, h), FieldsOf(c, h), i, Message(c, h));
  }

  lemma CommandIsTable(c: Command, h: Header)
    requires Idle(WithJoints(c, h)) && AllWellFormed(FieldsOf(c, h), |WithJoints(c, h).data|)
    ensures WithCommand(c, h) == TableOf(WithJoints(c, h), FieldsOf(c, h))
  {
  }

  lemma CommandStarts(c: Command, h: Header)
    requires MessageFits(c, h)
    ensures |Message(c, h)| < MAX_BUFFER && TableOfMessage(c, h) >= 0
    ensures TableStartOk(Message(c, h), TableOfMessage(c, h))
  {
    hide Message, TableOf, NewTable, Extends, TableStartOk, WellFormed, Distinct, WithJoints, FieldsOf,
         WithCommand, CommandOffset;
    MessageSize(c, h);
    CommandTable(c, h);
    HeaderMinAlign(c, h);
    CommandIsTable(c, h);
    TablePasses(WithJoints(c, h), FieldsOf(c, h), Message(c, h));
  }

  lemma NumberPasses(c: Command, h: Header, i: nat, id: nat, v: nat, width: nat)
    requires MessageFits(c, h) && i < 11 && |FieldsOf(c, h)| == 11 && FieldsOf(c, h)[i] == Number(id, v, width)
    ensures var b, pos := Message(c, h), TableOfMessage(c, h);
            && pos >= 0 && IsFieldId(id) && IsAlignment(width) && Readable(b, pos) && FieldOk(b, pos, id, width, width)
  {
    hide Message, MessageFits, TableOfMessage, FieldsOf, Readable, FieldOk, ReadsBack, LiesInTable, Number, WidthOf,
         AlignmentOf;
    CommandFieldPasses(c, h, i);
    NumberIs(id, v, width);
  }

  lemma NumbersPass(c: Command, h: Header)
    requires MessageFits(c, h)
    ensures TableOfMessage(c, h) >= 0 && Readable(Message(c, h), TableOfMessage(c, h))
    ensures CommandNumbersOk(Message(c, h), TableOfMessage(c, h))
  {
    NumberFields(c, h);
    hide Message, MessageFits, TableOfMessage, FieldsOf, Readable, FieldOk, ReadsBack, LiesInTable, Number, WidthOf,
         AlignmentOf;
    NumberPasses(c, h, 2, 6, c.protocol, 4);
    NumberPasses(c, h, 3, 8, c.session, 8);
    NumberPasses(c, h, 4, 10, c.sequence, 8);
    NumberPasses(c, h, 5, 12, c.inputStateId, 8);
    NumberPasses(c, h, 6, 14, c.inputStateRealUs, 8);
    NumberPasses(c, h, 7, 16, c.clientCreatedUs, 8);
    NumberPasses(c, h, 8, 18, c.clientSendUs, 8);
  }

  lemma ActionAndQuatPass(c: Command, h: Header)
    requires MessageFits(c, h)
    ensures var b, pos := Message(c, h), TableOfMessage(c, h);
            && pos >= 0 && Readable(b, pos) && FieldOk(b, pos, 22, 1, 1) && FieldOk(b, pos, 24, QUAT_SIZE, 4)
  {
    hide Message, MessageFits, TableOfMessage, Readable, FieldOffset, LiesInTable, WithJoints, HeaderOffset, QuatBytes,
         Inside;
    CommandFieldPasses(c, h, 9);
    CommandFieldPasses(c, h, 10);
    assert FieldsOf(c, h)[9] == Scalar(22, [c.action], [18], true);
    assert FieldsOf(c, h)[10] == Struct(24, if c.rootQuat.Some? then Some(QuatBytes(c.rootQuat.value)) else None, 4);
  }

  lemma ReferenceFields(c: Command, h: Header)
    ensures |FieldsOf(c, h)| == 11
    ensures FieldsOf(c, h)[0] == Reference(4, HeaderOffset(h)) && HeaderOffset(h) >= 4
    ensures FieldsOf(c, h)[1] == Reference(20, |WithJoints(c, h).data|) && |WithJoints(c, h).data| >= 4
  {
    hide Number, QuatBytes;
  }

  lemma HeaderFieldPassesInCommand(c: Command, h: Header)
    requires MessageFits(c, h)
    ensures var b, pos := Message(c, h), TableOfMessage(c, h);
            |b| < MAX_BUFFER && pos >= 0 && Readable(b, pos) && HeaderFieldOk(b, pos)
  {
    hide Message, FieldsOf, TableOfMessage, Readable, FieldOffset, FieldOk, ReadsBack, LiesInTable, HeaderOffset,
         HeaderOk, U32, ReferenceOk, Number, WithJoints, WithCommand;
    MessageSize(c, h);
    ReferenceFields(c, h);
    CommandFieldPasses(c, h, 0);
    CommandPointsForward(c, h, 0);
    ReferencePasses(Message(c, h), TableOfMessage(c, h), 4, HeaderOffset(h));
    HeaderPasses(c, h);
  }

  lemma JointsShorter(c: Command, h: Header)
    requires MessageFits(c, h)
    ensures |WithJoints(c, h).data| < |Message(c, h)|
  {
    hide Message, WithJoints, WithCommand, CommandOffset;
    MessageSize(c, h);
    CommandExtends(c, h);
  }

  lemma VectorPasses(b: seq<byte>, v: nat)
    requires |b| % 4 == 0 && v % 4 == 0 && v < |b| < MAX_BUFFER && VectorStandsAt(b, Place(b, v), JOINT_COMMAND_SIZE, 4)
    ensures VectorOk(b, Place(b, v), JOINT_COMMAND_SIZE)
  {
    PlaceAligned(|b|, v, 4);
  }

  lemma JointsPass(c: Command, h: Header)
    requires MessageFits(c, h)
    ensures var b, pos := Message(c, h), TableOfMessage(c, h);
            pos >= 0 && Readable(b, pos) && CommandJointsOk(b, pos)
  {
    hide Message, FieldsOf, TableOfMessage, Readable, FieldOffset, FieldOk, ReadsBack, LiesInTable, HeaderOffset,
         U32, ReferenceOk, Number, WithJoints, WithCommand, VectorOk, VectorStandsAt;
    MessageSize(c, h);
    ReferenceFields(c, h);
    CommandFieldPasses(c, h, 1);
    CommandPointsForward(c, h, 1);
    ReferencePasses(Message(c, h), TableOfMessage(c, h), 20, |WithJoints(c, h).data|);
    JointsStand(c, h);
    JointsShorter(c, h);
    VectorPasses(Message(c, h), |WithJoints(c, h).data|);
  }

  // ---------------------------------------------------------------------------------------
  // The message
  // ---------------------------------------------------------------------------------------

  /** The root of a message is a table that ends before the message does. */
  lemma RootInFront(c: Command, h: Header)
    requires MessageFits(c, h)
    ensures 4 <= CommandOffset(c, h) <= |WithCommand(c, h).data|
  {
    CommandExtends(c, h);
    hide WithCommand, WithJoints, CommandFields, HeaderOffset, AllPlaced;
  }

  /** The front of a buffer that names a root behind itself. */
  lemma RootNamed(b: seq<byte>, root: nat)
    requires 8 < |b| < MAX_BUFFER && 4 <= root < |b| && U32(b, 0) == |b| - root
    ensures |b| >= MIN_BUFFER && RootOk(b)
  {
    hide U32;
  }

  lemma MessageLong(c: Command, h: Header)
    requires MessageFits(c, h)
    ensures |Message(c, h)| > 8
  {
    hide Message, WithCommand, CommandOffset, WithJoints, FieldsOf, Extends;
    JointsStand(c, h);
  }

  lemma RootPasses(c: Command, h: Header)
    requires MessageFits(c, h)
    ensures |Message(c, h)| >= MIN_BUFFER && RootOk(Message(c, h)) && U32(Message(c, h), 0) == TableOfMessage(c, h)
  {
    hide Message, WithCommand, CommandOffset, U32, Extends, RootOk, Readable, FieldsOf;
    MessageSize(c, h);
    MessageExtends(c, h);
    RootInFront(c, h);
    MessageLong(c, h);
    RootNamed(Message(c, h), CommandOffset(c, h));
  }

  lemma MessagePasses(c: Command, h: Header)
    requires MessageFits(c, h)
    ensures |Message(c, h)| < MAX_BUFFER && CommandBufferOk(Message(c, h))
  {
    hide Message, TableOfMessage, TableStartOk, HeaderFieldOk, CommandNumbersOk, CommandJointsOk, FieldOk, RootOk, U32;
    RootPasses(c, h);
    CommandStarts(c, h);
    HeaderFieldPassesInCommand(c, h);
    NumbersPass(c, h);
    JointsPass(c, h);
    ActionAndQuatPass(c, h);
  }
}
