/**
 The builder object. It keeps the bytes in one downward-growing buffer, and on the scratch pad of that buffer
 the offsets of the vtables it may share, and after them the fields of the table being built. Each method
 is proved to do to these what the functions of `BuilderModel` say.
 */
module BuilderObject {
  import opened Bytes
  import opened Tables
  import opened Wrappers
  import opened BuilderModel
  import opened TableRoundTrip
  import opened VectorDownward

  // ---------------------------------------------------------------------------------------
  // The scratch pad
  // ---------------------------------------------------------------------------------------

  function OffsetsBytes(offsets: seq<nat>): (s: seq<byte>)
    ensures |s| == 4 * |offsets|
    decreases |offsets|
  {
    if offsets == [] then [] else OffsetsBytes(offsets[..|offsets| - 1]) + Le(offsets[|offsets| - 1], 4)
  }

  function FieldLocBytes(f: FieldLoc): (s: seq<byte>)
    ensures |s| == 8
  {
    Le(f.off, 4) + Le(f.id, 2) + Zeros(2)
  }

  function FieldsBytes(fields: seq<FieldLoc>): (s: seq<byte>)
    ensures |s| == 8 * |fields|
    decreases |fields|
  {
    if fields == [] then [] else FieldsBytes(fields[..|fields| - 1]) + FieldLocBytes(fields[|fields| - 1])
  }

  lemma {:induction false} OffsetAt(offsets: seq<nat>, k: nat)
    requires k < |offsets| && offsets[k] < TWO_TO_THE_32
    ensures U32(OffsetsBytes(offsets), 4 * k) == offsets[k]
    decreases |offsets|
  {
    var n := |offsets| - 1;
    var before, last := OffsetsBytes(offsets[..n]), Le(offsets[n], 4);
    if k == n {
      assert Slice(before + last, 4 * k, 4) == last;
      U32OfLe(before + last, 4 * k, offsets[n]);
    } else {
      OffsetAt(offsets[..n], k);
      assert Slice(before + last, 4 * k, 4) == Slice(before, 4 * k, 4);
    }
  }

  lemma FieldLocReads(f: FieldLoc)
    requires f.off < TWO_TO_THE_32 && f.id < TWO_TO_THE_16
    ensures U32(FieldLocBytes(f), 0) == f.off && U16(FieldLocBytes(f), 4) == f.id
  {
    var s := FieldLocBytes(f);
    assert Slice(s, 0, 4) == Le(f.off, 4) && Slice(s, 4, 2) == Le(f.id, 2);
    hide Le, Slice;
    U32OfLe(s, 0, f.off);
    U16OfLe(s, 4, f.id);
  }

  lemma {:induction false} FieldAt(fields: seq<FieldLoc>, k: nat)
    requires k < |fields|
    ensures Slice(FieldsBytes(fields), 8 * k, 8) == FieldLocBytes(fields[k])
    decreases |fields|
  {
    hide FieldLocBytes;
    var n := |fields| - 1;
    var before, last := FieldsBytes(fields[..n]), FieldLocBytes(fields[n]);
    if k < n {
      FieldAt(fields[..n], k);
      assert Slice(before + last, 8 * k, 8) == Slice(before, 8 * k, 8);
    }
  }

  // ---------------------------------------------------------------------------------------
  // Writing a vtable, and ending a table in two halves
  // ---------------------------------------------------------------------------------------

  lemma BaseWritten(size: nat, objectSize: nat, rest: seq<byte>)
    requires size >= 4
    ensures Splice(Splice(Zeros(size) + rest, 2, Le(objectSize, 2)), 0, Le(size, 2)) ==
            VTableBase(size, objectSize) + rest
  {
    var once := Splice(Zeros(size) + rest, 2, Le(objectSize, 2));
    assert once == Zeros(2) + Le(objectSize, 2) + Zeros(size - 4) + rest;
    assert once[2..] == Le(objectSize, 2) + Zeros(size - 4) + rest;
  }

  lemma RecordRead(vtables: seq<nat>, fields: seq<FieldLoc>, k: nat)
    requires k < |fields|
    ensures var front := OffsetsBytes(vtables);
            Slice(front + FieldsBytes(fields), |front| + 8 * k, 8) == FieldLocBytes(fields[k])
  {
    hide OffsetsBytes, FieldsBytes, FieldLocBytes;
    FieldAt(fields, k);
    PrependKeepsSlice(OffsetsBytes(vtables), FieldsBytes(fields), 8 * k, 8);
  }

  /** A vtable with its first `k` fields. */
  function FilledTo(base: seq<byte>, fields: seq<FieldLoc>, k: nat, loc: nat): (r: seq<byte>)
    requires k <= |fields| && FieldsFit(fields, |base|, loc)
    ensures |r| == |base|
  {
    Filled(base, fields[..k], loc)
  }

  lemma FilledEnds(base: seq<byte>, fields: seq<FieldLoc>, loc: nat)
    requires FieldsFit(fields, |base|, loc)
    ensures FilledTo(base, fields, 0, loc) == base && FilledTo(base, fields, |fields|, loc) == Filled(base, fields, loc)
  {
    assert fields[..|fields|] == fields;
  }

  /** Writing one more field into a vtable that lies in front of `rest`. */
  lemma FieldWritten(base: seq<byte>, fields: seq<FieldLoc>, loc: nat, k: nat, rest: seq<byte>)
    requires k < |fields| && FieldsFit(fields, |base|, loc)
    ensures fields[k].id + 2 <= |base| && fields[k].off <= loc
    ensures Splice(FilledTo(base, fields, k, loc) + rest, fields[k].id, Le(loc - fields[k].off, 2)) ==
            FilledTo(base, fields, k + 1, loc) + rest
  {
    var vt, s := Filled(base, fields[..k], loc), Le(loc - fields[k].off, 2);
    assert fields[..k + 1][..k] == fields[..k];
    assert Splice(vt + rest, fields[k].id, s) == Splice(vt, fields[k].id, s) + rest;
  }

  /** The kept vtables lie in the data. */
  ghost predicate GoodVTables(data: seq<byte>, vtables: seq<nat>) {
    forall k | 0 <= k < |vtables| ::
      2 <= vtables[k] <= |data| && vtables[k] < TWO_TO_THE_32 && U16(data, |data| - vtables[k]) <= vtables[k]
  }

  /** Vtables with different sizes have different bytes, so sizes are compared first. */
  lemma SizeDecides(data: seq<byte>, offset: nat, vt: seq<byte>)
    requires IsVTable(vt) && 2 <= offset <= |data| && U16(data, |data| - offset) <= offset
    ensures Matches(data, offset, vt) <==>
            U16(data, |data| - offset) == |vt| && Slice(data, |data| - offset, |vt|) == vt
    ensures U16(Slice(data, |data| - offset, 2), 0) == U16(data, |data| - offset)
  {
    SliceOfSlice(data, |data| - offset, 2, 0, 2);
    if Matches(data, offset, vt) {
      SliceOfSlice(data, |data| - offset, |vt|, 0, 2);
    }
  }

  lemma FieldPushed(vtables: seq<nat>, fields: seq<FieldLoc>, f: FieldLoc)
    ensures OffsetsBytes(vtables) + FieldsBytes(fields) + FieldLocBytes(f) ==
            OffsetsBytes(vtables) + FieldsBytes(fields + [f])
  {
    assert (fields + [f])[..|fields|] == fields;
  }

  /** The scratch pad without the records of the fields. */
  lemma FieldsPopped(vtables: seq<nat>, fields: seq<FieldLoc>)
    ensures var pad := OffsetsBytes(vtables) + FieldsBytes(fields);
            pad[..|pad| - 8 * |fields|] == OffsetsBytes(vtables) + FieldsBytes([])
  {
    assert FieldsBytes([]) == [];
    hide OffsetsBytes, FieldsBytes;
  }

  lemma KeptOffset(vtables: seq<nat>, use: nat)
    ensures OffsetsBytes(vtables) + FieldsBytes([]) + Le(use, 4) == OffsetsBytes(vtables + [use]) + FieldsBytes([])
  {
    assert (vtables + [use])[..|vtables|] == vtables;
    assert FieldsBytes([]) == [];
  }

  ghost predicate MayWrite(b: Builder, loc: nat) {
    FieldsFit(b.fields, VTableSize(b), loc) && loc < TWO_TO_THE_32 && VTableSize(b) < TWO_TO_THE_16
  }

  /** A vtable in front of the data. */
  function WithVTable(b: Builder, objectSize: nat, loc: nat): Builder
    requires FieldsFit(b.fields, VTableSize(b), loc)
  {
    b.(data := Filled(VTableBase(VTableSize(b), objectSize), b.fields, loc) + b.data, maxVOffset := VTableSize(b))
  }

  function WithEmptyLink(b: Builder): Builder {
    Pushed(b, Le(0, 4))
  }

  /** The builder halfway through ending a table. */
  function Linked(b: Builder, start: nat): Builder
    requires MayEnd(b, start)
  {
    var p := WithEmptyLink(b);
    p.(data := NewVTable(b, start) + p.data, maxVOffset := VTableSize(b))
  }

  ghost predicate CanLay(b: Builder, start: nat) {
    MayEnd(b, start) && VTableSize(b) < TWO_TO_THE_16 && TableOffset(b) < TWO_TO_THE_32
  }

  lemma LinkedShape(b: Builder, start: nat)
    requires CanLay(b, start)
    ensures MayEnd(b, start)
    ensures var p, loc := WithEmptyLink(b), TableOffset(b);
            && start <= loc == |p.data| && MayWrite(p, loc) && Linked(b, start) == WithVTable(p, loc - start, loc)
  {
  }

  lemma {:induction false} SharedLater(data: seq<byte>, later: seq<byte>, vtables: seq<nat>, vt: seq<byte>)
    requires Extends(data, later) && forall k | 0 <= k < |vtables| :: vtables[k] <= |data|
    ensures Shared(later, vtables, vt) == Shared(data, vtables, vt)
    decreases |vtables|
  {
    if vtables != [] {
      ExtendsKeepsStands(data, later, vtables[0], vt);
      assert Matches(later, vtables[0], vt) <==> Matches(data, vtables[0], vt);
      SharedLater(data, later, vtables[1..], vt);
    }
  }

  lemma GoodVTablesLater(data: seq<byte>, later: seq<byte>, vtables: seq<nat>)
    requires Extends(data, later) && GoodVTables(data, vtables)
    ensures GoodVTables(later, vtables)
  {
    var front := later[..|later| - |data|];
    assert later == front + data;
    forall k | 0 <= k < |vtables|
      ensures U16(later, |later| - vtables[k]) == U16(data, |data| - vtables[k])
    {
      PrependKeepsWords(front, data, |data| - vtables[k]);
    }
  }

  /** What lies under the new vtable halfway through ending a table. */
  lemma LinkedData(b: Builder, start: nat)
    requires MayEnd(b, start)
    ensures var l, vt, a := Linked(b, start), NewVTable(b, start), Aligned(b, 4);
            && l.data == vt + (Le(0, 4) + a.data) && |Le(0, 4) + a.data| == TableOffset(b)
            && Extends(b.data, a.data) && Extends(a.data, Le(0, 4) + a.data) && Extends(a.data, l.data)
            && l.vtables == b.vtables && l.minAlign == a.minAlign
  {
    var a := Aligned(b, 4);
    PrependExtends(Zeros(Padding(|b.data|, 4)), b.data);
    hide NewVTable, Padding, Zeros;
    PrependExtends(Le(0, 4), a.data);
    PrependExtends(NewVTable(b, start), Le(0, 4) + a.data);
    ExtendsTransitive(a.data, Le(0, 4) + a.data, Linked(b, start).data);
  }

  /** Filling the link, under a vtable or without one. */
  lemma LinkFilled(vt: seq<byte>, link: seq<byte>, word: seq<byte>, rest: seq<byte>)
    requires |link| == |word|
    ensures Splice(link + rest, 0, word) == word + rest
    ensures Splice(vt + (link + rest), |vt|, word) == vt + word + rest
  {
  }

  lemma LinkedShares(b: Builder, start: nat)
    requires MayEnd(b, start) && GoodVTables(b.data, b.vtables)
    ensures var l, vt, a := Linked(b, start), NewVTable(b, start), Aligned(b, 4);
            && l.data[..|vt|] == vt && l.data[|vt|..] == Le(0, 4) + a.data && |l.data| == |vt| + TableOffset(b)
            && Shared(l.data, l.vtables, vt) == Shared(a.data, b.vtables, vt)
  {
    var l, vt, a := Linked(b, start), NewVTable(b, start), Aligned(b, 4);
    LinkedData(b, start);
    assert forall k | 0 <= k < |b.vtables| :: b.vtables[k] <= |a.data|;
    hide NewVTable, Aligned, Linked, GoodVTables, Extends;
    SharedLater(a.data, l.data, b.vtables, vt);
  }

  /** The link of the table at `loc`, filled with the distance to the vtable in use. */
  function WithLink(b: Builder, loc: nat, use: nat): Builder
    requires 4 <= loc <= |b.data|
  {
    b.(data := Splice(b.data, |b.data| - loc, LeS32(use - loc)))
  }

  /** Halfway through ending a table, when the fields have been written. */
  function Opened(b: Builder, start: nat): Builder
    requires MayEnd(b, start)
  {
    Linked(b, start).(fields := [], maxVOffset := 0)
  }

  ghost predicate MayClose(l: Builder, loc: nat, size: nat) {
    && l.fields == [] && 4 <= loc && loc + size == |l.data| < TWO_TO_THE_32
    && IsVTable(l.data[..size]) && GoodVTables(l.data, l.vtables)
  }

  function Closed(l: Builder, loc: nat, size: nat): Builder
    requires 4 <= loc && loc + size == |l.data|
  {
    match Shared(l.data, l.vtables, l.data[..size])
    case Some(use) => WithLink(l.(data := l.data[size..]), loc, use)
    case None => WithLink(l.(vtables := l.vtables + [|l.data|]), loc, |l.data|)
  }

  lemma OpenedShape(b: Builder, start: nat)
    requires MayEnd(b, start) && GoodVTables(b.data, b.vtables)
    ensures var o, vt, a, loc := Opened(b, start), NewVTable(b, start), Aligned(b, 4), TableOffset(b);
            && o == Builder(vt + (Le(0, 4) + a.data), b.vtables, [], 0, a.minAlign)
            && |Le(0, 4) + a.data| == loc >= 4 && |o.data| == |vt| + loc
            && o.data[..|vt|] == vt && o.data[|vt|..] == Le(0, 4) + a.data
            && Shared(o.data, o.vtables, vt) == Shared(a.data, b.vtables, vt)
  {
    hide NewVTable, Shared, Padding, Zeros, MayEnd, GoodVTables;
    LinkedShares(b, start);
    assert Opened(b, start).data == Linked(b, start).data && Linked(b, start).vtables == b.vtables;
  }

  lemma EndedByCase(b: Builder, start: nat)
    requires MayEnd(b, start)
    ensures var vt, a, loc := NewVTable(b, start), Aligned(b, 4), TableOffset(b);
            EndedTable(b, start) ==
            match Shared(a.data, b.vtables, vt)
            case Some(use) => Builder(LeS32(use - loc) + a.data, b.vtables, [], 0, a.minAlign)
            case None => Builder(vt + LeS32(|vt|) + a.data, b.vtables + [loc + |vt|], [], 0, a.minAlign)
  {
    hide NewVTable, Shared, Aligned, LeS32, MayEnd;
  }

  lemma LinkAt(b: Builder, loc: nat, use: nat, at: nat)
    requires 4 <= loc <= |b.data| && at == |b.data| - loc
    ensures WithLink(b, loc, use) == b.(data := Splice(b.data, at, LeS32(use - loc)))
  {
  }

  /** The new vtable is dropped for a kept one. */
  lemma ClosedKept(o: Builder, size: nat, under: seq<byte>, use: nat)
    requires |under| >= 4 && |o.data| == size + |under| && o.data[size..] == under
    requires Shared(o.data, o.vtables, o.data[..size]) == Some(use)
    ensures Closed(o, |under|, size) == o.(data := Splice(under, 0, LeS32(use - |under|)))
  {
    hide Shared, LeS32, Splice, WithLink;
    LinkAt(o.(data := under), |under|, use, 0);
  }

  /** The new vtable is kept. */
  lemma ClosedOwn(o: Builder, size: nat, loc: nat)
    requires loc >= 4 && |o.data| == size + loc && Shared(o.data, o.vtables, o.data[..size]) == None
    ensures Closed(o, loc, size) ==
            o.(data := Splice(o.data, size, LeS32(|o.data| - loc)), vtables := o.vtables + [|o.data|])
  {
    hide Shared, LeS32, Splice, WithLink;
    LinkAt(o.(vtables := o.vtables + [|o.data|]), loc, |o.data|, size);
  }

  /** Ending a table, from halfway on: the link is filled, under the new vtable or instead of it. */
  lemma EndedFromLinked(b: Builder, start: nat)
    requires MayEnd(b, start) && GoodVTables(b.data, b.vtables)
    ensures var loc, size := TableOffset(b), |NewVTable(b, start)|;
            && |Opened(b, start).data| == size + loc && loc >= 4
            && EndedTable(b, start) == Closed(Opened(b, start), loc, size)
  {
    hide NewVTable, Aligned, Opened, EndedTable, Closed, Shared, LeS32, Le, Splice, GoodVTables, MayEnd, TableOffset;
    var o, vt, a, loc := Opened(b, start), NewVTable(b, start), Aligned(b, 4), TableOffset(b);
    var shared := Shared(a.data, b.vtables, vt);
    OpenedShape(b, start);
    EndedByCase(b, start);
    match shared {
      case Some(use) =>
        ClosedKept(o, |vt|, Le(0, 4) + a.data, use);
        LinkFilled(vt, Le(0, 4), LeS32(use - loc), a.data);
      case None =>
        ClosedOwn(o, |vt|, loc);
        LinkFilled(vt, Le(0, 4), LeS32(|vt|), a.data);
    }
  }

  /** A table may be ended: every field is in place, and the buffer stays below 2 GiB with the new vtable. */
  ghost predicate CanEnd(b: Builder, start: nat) {
    MayEnd(b, start) && Laid(b, start) && GoodVTables(b.data, b.vtables) && |Linked(b, start).data| < TWO_TO_THE_31
  }

  /** Halfway through ending a table the new vtable is in front and every kept one is still good. */
  lemma EndReady(b: Builder, start: nat)
    requires CanEnd(b, start)
    ensures MayEnd(b, start)
    ensures var l, vt := Linked(b, start), NewVTable(b, start);
            && 4 <= |vt| <= |l.data| && IsVTable(l.data[..|vt|])
            && U16(l.data, 0) == |vt| && GoodVTables(l.data, l.vtables)
            && CanLay(b, start)
  {
    var l, vt := Linked(b, start), NewVTable(b, start);
    NewVTableIsVTable(b, start);
    LinkedData(b, start);
    assert l.data[..|vt|] == vt && Slice(l.data, 0, 2) == Slice(vt, 0, 2);
    ExtendsTransitive(b.data, Aligned(b, 4).data, l.data);
    hide NewVTable, Linked, Aligned, GoodVTables, Extends, Laid;
    GoodVTablesLater(b.data, l.data, l.vtables);
  }

  lemma FrontVTable(vt: seq<byte>, rest: seq<byte>)
    requires IsVTable(vt)
    ensures U16(vt + rest, 0) == |vt|
  {
    assert Slice(vt + rest, 0, 2) == Slice(vt, 0, 2);
  }

  lemma EndedNew(b: Builder, start: nat)
    requires MayEnd(b, start) && IsVTable(NewVTable(b, start))
    requires Shared(Aligned(b, 4).data, b.vtables, NewVTable(b, start)) == None
    ensures var e, size := EndedTable(b, start), |NewVTable(b, start)|;
            && e.vtables == b.vtables + [|e.data|] && |e.data| == |Linked(b, start).data| >= size >= 4
            && U16(e.data, 0) == size
  {
    var vt, rest := NewVTable(b, start), LeS32(|NewVTable(b, start)|) + Aligned(b, 4).data;
    assert EndedTable(b, start).data == vt + rest;
    FrontVTable(vt, rest);
    hide NewVTable, Shared, LeS32;
  }

  lemma AddedVTable(data: seq<byte>, vtables: seq<nat>)
    requires GoodVTables(data, vtables) && 2 <= |data| < TWO_TO_THE_32 && U16(data, 0) <= |data|
    ensures GoodVTables(data, vtables + [|data|])
  {
  }

  /** An ended table keeps every vtable good, its own included. */
  lemma EndedGood(b: Builder, start: nat)
    requires MayEnd(b, start) && Laid(b, start) && GoodVTables(b.data, b.vtables)
    requires |Linked(b, start).data| < TWO_TO_THE_31
    ensures GoodVTables(EndedTable(b, start).data, EndedTable(b, start).vtables)
  {
    var e, vt := EndedTable(b, start), NewVTable(b, start);
    NewVTableIsVTable(b, start);
    var _ := EndedTableShape(b, start);
    match Shared(Aligned(b, 4).data, b.vtables, vt) {
      case Some(_) =>
        hide *;
        GoodVTablesLater(b.data, e.data, b.vtables);
      case None =>
        EndedNew(b, start);
        hide *;
        GoodVTablesLater(b.data, e.data, b.vtables);
        AddedVTable(e.data, b.vtables);
    }
  }

  lemma HeadReads(data: seq<byte>)
    requires |data| >= 2
    ensures U16(Slice(data, 0, 2), 0) == U16(data, 0)
  {
    SliceOfSlice(data, 0, 2, 0, 2);
  }

  lemma EndFacts(b: Builder, start: nat)
    requires CanEnd(b, start)
    ensures MayEnd(b, start)
    ensures MayClose(Opened(b, start), TableOffset(b), |NewVTable(b, start)|)
    ensures EndedTable(b, start) == Closed(Opened(b, start), TableOffset(b), |NewVTable(b, start)|)
    ensures GoodVTables(EndedTable(b, start).data, EndedTable(b, start).vtables)
  {
    EndReady(b, start);
    EndedFromLinked(b, start);
    EndedGood(b, start);
    hide Linked, NewVTable, TableOffset, GoodVTables, EndedTable, Closed, IsVTable, MayEnd, Laid;
  }

  lemma GoodAt(data: seq<byte>, vtables: seq<nat>, k: nat)
    requires GoodVTables(data, vtables) && k < |vtables|
    ensures 2 <= vtables[k] <= |data| && vtables[k] < TWO_TO_THE_32 && U16(data, |data| - vtables[k]) <= vtables[k]
  {
  }

  lemma SharedStep(data: seq<byte>, vtables: seq<nat>, k: nat, vt: seq<byte>)
    requires k < |vtables|
    ensures Shared(data, vtables[k..], vt) ==
            if Matches(data, vtables[k], vt) then Some(vtables[k]) else Shared(data, vtables[k + 1..], vt)
  {
    assert vtables[k..][1..] == vtables[k + 1..];
    hide Matches;
  }

  lemma SharedNone(data: seq<byte>, vtables: seq<nat>, k: nat, vt: seq<byte>)
    requires k == |vtables|
    ensures Shared(data, vtables[k..], vt) == None
  {
  }

  // ---------------------------------------------------------------------------------------
  // The object
  // ---------------------------------------------------------------------------------------

  class FlatBufferBuilder {
    const buf: Vector
    var numFieldLoc: nat
    var maxVOffset: nat
    var minAlign: nat
    var nested: bool
    var finished: bool
    var forceDefaults: bool
    ghost var vtables: seq<nat>
    ghost var fields: seq<FieldLoc>

    ghost function State(): Builder
      requires buf.Valid()
      reads this, buf, buf.buf
    {
      Builder(buf.Data(), vtables, fields, maxVOffset, minAlign)
    }

    ghost predicate Valid()
      reads this, buf, buf.buf
    {
      && buf.Valid()
      && |fields| == numFieldLoc
      && buf.Scratch() == OffsetsBytes(vtables) + FieldsBytes(fields)
      && IsAlignment(minAlign)
    }

    constructor (initialSize: nat)
      ensures Valid() && State() == EMPTY && !nested && !finished && !forceDefaults && fresh(buf)
      ensures buf.buf == null
    {
      buf := new Vector(initialSize, 8);
      numFieldLoc, maxVOffset, minAlign := 0, 0, 1;
      nested, finished, forceDefaults := false, false, false;
      vtables, fields := [], [];
    }

    method ForceDefaults(force: bool)
      modifies `forceDefaults
      ensures forceDefaults == force
    {
      forceDefaults := force;
    }

    method Align(elemSize: nat)
      requires Valid() && IsAlignment(elemSize)
      modifies `minAlign, buf, buf.buf
      ensures Valid() && (buf.buf == old(buf.buf) || fresh(buf.buf))
      ensures State() == Aligned(old(State()), elemSize)
    {
      if elemSize > minAlign {
        minAlign := elemSize;
      }
      buf.Fill(Padding(buf.size, elemSize));
    }

    /** Aligns such that `len` bytes pushed next end at a multiple of `alignment`. */
    method PreAlign(len: nat, alignment: nat)
      requires Valid() && IsAlignment(alignment)
      modifies `minAlign, buf, buf.buf
      ensures Valid() && (buf.buf == old(buf.buf) || fresh(buf.buf))
      ensures State() == PreAligned(old(State()), len, alignment)
    {
      if len == 0 {
        return;
      }
      if alignment > minAlign {
        minAlign := alignment;
      }
      buf.Fill(Padding(buf.size + len, alignment));
    }

    method PushElement(scalar: seq<byte>) returns (off: nat)
      requires Valid() && IsAlignment(|scalar|)
      modifies `minAlign, buf, buf.buf
      ensures Valid() && (buf.buf == old(buf.buf) || fresh(buf.buf))
      ensures State() == Pushed(old(State()), scalar) && off == |State().data|
    {
      Align(|scalar|);
      buf.Push(scalar);
      off := buf.size;
    }

    method TrackField(id: nat, off: nat)
      requires Valid() && off == |State().data|
      modifies `maxVOffset, `numFieldLoc, `fields, buf, buf.buf
      ensures Valid() && (buf.buf == old(buf.buf) || fresh(buf.buf))
      ensures State() == Tracked(old(State()), id)
    {
      FieldPushed(vtables, fields, FieldLoc(off, id));
      hide FieldsBytes, OffsetsBytes, FieldLocBytes;
      fields := fields + [FieldLoc(off, id)];
      numFieldLoc := numFieldLoc + 1;
      buf.ScratchPush(FieldLocBytes(FieldLoc(off, id)));
      if id > maxVOffset {
        maxVOffset := id;
      }
    }

    method AddElement(id: nat, value: seq<byte>, fallback: seq<byte>)
      requires Valid() && WellFormed(Scalar(id, value, fallback, forceDefaults), |State().data|)
      modifies `minAlign, `maxVOffset, `numFieldLoc, `fields, buf, buf.buf
      ensures Valid() && (buf.buf == old(buf.buf) || fresh(buf.buf))
      ensures State() == Placed(old(State()), Scalar(id, value, fallback, forceDefaults))
    {
      hide Pushed, Tracked, OffsetsBytes, FieldsBytes;
      if value == fallback && !forceDefaults {
        return;
      }
      var off := PushElement(value);
      TrackField(id, off);
    }

    /** The distance to `off` from a word pushed next; the buffer is aligned for it. */
    method ReferTo(off: nat) returns (distance: nat)
      requires Valid() && off <= |State().data|
      modifies `minAlign, buf, buf.buf
      ensures Valid() && (buf.buf == old(buf.buf) || fresh(buf.buf))
      ensures State() == Aligned(old(State()), 4) && distance == Distance(old(State()), off)
    {
      Align(4);
      distance := buf.size - off + 4;
    }

    method AddOffset(id: nat, off: nat)
      requires Valid() && WellFormed(Reference(id, off), |State().data|)
      modifies `minAlign, `maxVOffset, `numFieldLoc, `fields, buf, buf.buf
      ensures Valid() && (buf.buf == old(buf.buf) || fresh(buf.buf))
      ensures State() == Placed(old(State()), Reference(id, off))
    {
      hide Pushed, Aligned, Tracked, Le, OffsetsBytes, FieldsBytes, Padding;
      if off == 0 {
        return;
      }
      var distance := ReferTo(off);
      var at := PushElement(Le(distance, 4));
      TrackField(id, at);
    }

    method AddStruct(id: nat, content: Option<seq<byte>>, align: nat)
      requires Valid() && WellFormed(Struct(id, content, align), |State().data|)
      modifies `minAlign, `maxVOffset, `numFieldLoc, `fields, buf, buf.buf
      ensures Valid() && (buf.buf == old(buf.buf) || fresh(buf.buf))
      ensures State() == Placed(old(State()), Struct(id, content, align))
    {
      if content.None? {
        return;
      }
      Align(align);
      buf.Push(content.value);
      TrackField(id, buf.size);
    }

    method StartTable() returns (start: nat)
      requires Valid() && !nested && numFieldLoc == 0
      modifies `nested
      ensures Valid() && State() == old(State()) && nested && start == |State().data|
    {
      nested := true;
      start := buf.size;
    }

    /** Reads field `k` of the table off the scratch pad and writes its offset into the vtable in front. */
    method WriteField(k: nat, loc: nat, ghost base: seq<byte>, ghost rest: seq<byte>)
      requires Valid() && k < numFieldLoc && FieldsFit(fields, |base|, loc)
      requires loc < TWO_TO_THE_32 && |base| < TWO_TO_THE_16
      requires buf.Data() == FilledTo(base, fields, k, loc) + rest
      modifies buf.buf
      ensures Valid() && buf.Scratch() == old(buf.Scratch())
      ensures buf.Data() == FilledTo(base, fields, k + 1, loc) + rest
    {
      hide Splice, FilledTo, OffsetsBytes, FieldsBytes, FieldLocBytes, U16, U32;
      var record := buf.ScratchAt(buf.scratch - 8 * numFieldLoc + 8 * k, 8);
      RecordRead(vtables, fields, k);
      FieldLocReads(fields[k]);
      var off, id := U32(record, 0), U16(record, 4);
      FieldWritten(base, fields, loc, k, rest);
      buf.Patch(buf.size - id, Le(loc - off, 2));
    }

    /** A vtable with its two sizes and no field yet. */
    method WriteSizes(objectSize: nat)
      requires Valid() && maxVOffset >= 4
      modifies buf, buf.buf
      ensures Valid() && (buf.buf == old(buf.buf) || fresh(buf.buf)) && buf.Scratch() == old(buf.Scratch())
      ensures buf.Data() == VTableBase(maxVOffset, objectSize) + old(buf.Data())
    {
      hide Splice, VTableBase, OffsetsBytes, FieldsBytes, Le, Zeros;
      BaseWritten(maxVOffset, objectSize, buf.Data());
      buf.Fill(maxVOffset);
      buf.Patch(buf.size - 2, Le(objectSize, 2));
      buf.Patch(buf.size, Le(maxVOffset, 2));
    }

    /** Writes the offset of every field into the vtable in front. */
    method WriteFields(loc: nat, ghost base: seq<byte>, ghost rest: seq<byte>)
      requires Valid() && FieldsFit(fields, |base|, loc)
      requires loc < TWO_TO_THE_32 && |base| < TWO_TO_THE_16
      requires buf.Data() == base + rest
      modifies buf.buf
      ensures Valid() && buf.Scratch() == old(buf.Scratch())
      ensures buf.Data() == Filled(base, fields, loc) + rest
    {
      hide Filled, FilledTo, OffsetsBytes, FieldsBytes, FieldsFit;
      FilledEnds(base, fields, loc);
      var k := 0;
      while k < numFieldLoc
        invariant 0 <= k <= numFieldLoc
        invariant Valid() && buf.Scratch() == old(buf.Scratch())
        invariant buf.Data() == FilledTo(base, fields, k, loc) + rest
        modifies buf.buf
      {
        WriteField(k, loc, base, rest);
        k := k + 1;
      }
    }

    /** Reads the offset of kept vtable `k` off the scratch pad, when no table is being built. */
    method KeptVTable(k: nat) returns (offset: nat)
      requires Valid() && fields == [] && k < |vtables| && vtables[k] < TWO_TO_THE_32
      ensures offset == vtables[k]
    {
      OffsetAt(vtables, k);
      assert buf.Scratch() == OffsetsBytes(vtables);
      hide OffsetsBytes, FieldsBytes;
      var record := buf.ScratchAt(4 * k, 4);
      assert Slice(record, 0, 4) == record;
      offset := U32(record, 0);
    }

    /** Compares the vtable at `offset` with `vt`: first the sizes, then all bytes. */
    method SameVTable(offset: nat, vt: seq<byte>) returns (same: bool)
      requires Valid() && IsVTable(vt)
      requires 2 <= offset <= buf.size && U16(buf.Data(), buf.size - offset) <= offset
      ensures same == Matches(buf.Data(), offset, vt)
    {
      hide Matches, OffsetsBytes, FieldsBytes, Slice, IsVTable;
      SizeDecides(buf.Data(), offset, vt);
      var size := buf.DataAt(offset, 2);
      if U16(size, 0) != |vt| {
        return false;
      }
      var its := buf.DataAt(offset, |vt|);
      same := its == vt;
    }

    /** Looks for a kept vtable with the bytes of the one in front. */
    method FindShared(size: nat) returns (use: Option<nat>)
      requires Valid() && fields == [] && size <= buf.size && IsVTable(buf.Data()[..size])
      requires GoodVTables(buf.Data(), vtables)
      ensures use == Shared(buf.Data(), vtables, buf.Data()[..size])
    {
      hide OffsetsBytes, FieldsBytes, Matches, IsVTable, GoodVTables, Shared, U16;
      var vt := buf.DataAt(buf.size, size);
      assert vt == buf.Data()[..size];
      assert vtables[0..] == vtables;
      var k := 0;
      while 4 * k < buf.scratch
        invariant 0 <= k <= |vtables|
        invariant Shared(buf.Data(), vtables, vt) == Shared(buf.Data(), vtables[k..], vt)
        decreases |vtables| - k
      {
        GoodAt(buf.Data(), vtables, k);
        SharedStep(buf.Data(), vtables, k, vt);
        var candidate := KeptVTable(k);
        var same := SameVTable(candidate, vt);
        if same {
          return Some(candidate);
        }
        k := k + 1;
      }
      SharedNone(buf.Data(), vtables, k, vt);
      use := None;
    }

    method ClearOffsets()
      requires Valid()
      modifies `maxVOffset, `numFieldLoc, `fields, buf
      ensures Valid() && buf.buf == old(buf.buf)
      ensures State() == old(State()).(fields := [], maxVOffset := 0)
    {
      hide OffsetsBytes, FieldsBytes;
      FieldsPopped(vtables, fields);
      buf.ScratchPop(8 * numFieldLoc);
      numFieldLoc, maxVOffset, fields := 0, 0, [];
    }

    /** Lays a vtable over the data: the two sizes, then the offset of each field. */
    method WriteVTable(objectSize: nat, loc: nat, ghost b: Builder)
      requires Valid() && State() == b && MayWrite(b, loc)
      modifies `maxVOffset, buf, buf.buf
      ensures Valid() && (buf.buf == old(buf.buf) || fresh(buf.buf))
      ensures State() == WithVTable(b, objectSize, loc)
    {
      hide Filled, VTableBase, OffsetsBytes, FieldsBytes, FieldsFit;
      maxVOffset := Max(maxVOffset + 2, 4);
      ghost var rest := buf.Data();
      WriteSizes(objectSize);
      WriteFields(loc, VTableBase(maxVOffset, objectSize), rest);
    }

    /** The link of a table, to be filled later. */
    method PushLink(ghost b: Builder) returns (loc: nat)
      requires Valid() && State() == b
      modifies `minAlign, buf, buf.buf
      ensures Valid() && (buf.buf == old(buf.buf) || fresh(buf.buf))
      ensures State() == WithEmptyLink(b) && loc == |WithEmptyLink(b).data|
    {
      hide OffsetsBytes, FieldsBytes, Pushed;
      loc := PushElement(Le(0, 4));
    }

    /** The first half of ending a table: an empty link, and the new vtable in front of it. */
    method LayVTable(start: nat, ghost b: Builder) returns (loc: nat)
      requires Valid() && State() == b && CanLay(b, start)
      modifies `minAlign, `maxVOffset, buf, buf.buf
      ensures Valid() && (buf.buf == old(buf.buf) || fresh(buf.buf))
      ensures loc == TableOffset(b) && State() == Linked(b, start)
    {
      hide *;
      LinkedShape(b, start);
      loc := PushLink(b);
      WriteVTable(loc - start, loc, WithEmptyLink(b));
    }

    /** The second half: the new vtable gives way to a kept one of the same bytes, or is kept itself. */
    method ShareVTable(loc: nat, size: nat) returns (use: nat)
      requires Valid() && State().fields == [] && loc + size == |State().data| < TWO_TO_THE_32
      requires IsVTable(State().data[..size]) && GoodVTables(State().data, State().vtables)
      modifies `vtables, buf, buf.buf
      ensures Valid() && (buf.buf == old(buf.buf) || fresh(buf.buf))
      ensures var b := old(State());
              match Shared(b.data, b.vtables, b.data[..size])
              case Some(kept) => use == kept && State() == b.(data := b.data[size..])
              case None => use == |b.data| && State() == b.(vtables := b.vtables + [|b.data|])
    {
      hide OffsetsBytes, FieldsBytes, Shared, IsVTable, GoodVTables;
      var shared := FindShared(size);
      if shared.Some? {
        use := shared.value;
        buf.Pop(buf.size - loc);
      } else {
        use := buf.size;
        KeptOffset(vtables, use);
        buf.ScratchPush(Le(use, 4));
        vtables := vtables + [use];
      }
    }

    /** The size of the vtable in front. */
    method FrontSize() returns (size: nat)
      requires Valid() && |State().data| >= 2
      ensures size == U16(State().data, 0)
    {
      hide OffsetsBytes, FieldsBytes, U16, Slice;
      var head := buf.DataAt(buf.size, 2);
      size := U16(head, 0);
      HeadReads(buf.Data());
    }

    /** Up to halfway through ending a table; `size` is that of the new vtable, read from its front. */
    method OpenVTable(start: nat) returns (loc: nat, size: nat)
      requires Valid() && CanEnd(State(), start)
      modifies `minAlign, `maxVOffset, `numFieldLoc, `fields, buf, buf.buf
      ensures Valid() && (buf.buf == old(buf.buf) || fresh(buf.buf))
      ensures State() == Opened(old(State()), start)
      ensures loc == TableOffset(old(State())) && size == |NewVTable(old(State()), start)|
    {
      hide State, CanEnd, CanLay, Linked, TableOffset, U16, NewVTable, GoodVTables, MayEnd, IsVTable, OffsetsBytes,
           FieldsBytes;
      EndReady(State(), start);
      loc := LayVTable(start, State());
      ClearOffsets();
      size := FrontSize();
    }

    method FillLink(loc: nat, use: nat)
      requires Valid() && 4 <= loc <= |State().data|
      modifies `nested, buf.buf
      ensures Valid() && !nested
      ensures State() == WithLink(old(State()), loc, use)
    {
      buf.Patch(loc, LeS32(use - loc));
      nested := false;
    }

    /** From halfway on: the new vtable is shared where it can be, and the link filled. */
    method CloseTable(loc: nat, size: nat)
      requires Valid() && MayClose(State(), loc, size)
      modifies `nested, `vtables, buf, buf.buf
      ensures Valid() && (buf.buf == old(buf.buf) || fresh(buf.buf)) && !nested
      ensures State() == Closed(old(State()), loc, size)
    {
      hide Shared, IsVTable, GoodVTables, WithLink, State, Valid;
      var use := ShareVTable(loc, size);
      FillLink(loc, use);
    }

    /** Ends a table: lays its vtable, shares it where it can, and fills the link. */
    method EndTable(start: nat) returns (loc: nat)
      requires Valid() && nested && CanEnd(State(), start)
      modifies `nested, `minAlign, `maxVOffset, `numFieldLoc, `fields, `vtables, buf, buf.buf
      ensures Valid() && (buf.buf == old(buf.buf) || fresh(buf.buf)) && !nested
      ensures loc == TableOffset(old(State())) && State() == EndedTable(old(State()), start)
      ensures GoodVTables(State().data, State().vtables)
    {
      hide State, CanEnd, Opened, Closed, MayClose, EndedTable, TableOffset, NewVTable, GoodVTables, MayEnd,
           OffsetsBytes, FieldsBytes;
      EndFacts(State(), start);
      var size;
      loc, size := OpenVTable(start);
      CloseTable(loc, size);
    }

    /** A vector of `count` structs, whose bytes are `payload`. */
    method CreateVectorOfStructs(payload: seq<byte>, count: nat, align: nat) returns (off: nat)
      requires Valid() && !nested && numFieldLoc == 0 && IsAlignment(align)
      modifies `nested, `minAlign, buf, buf.buf
      ensures Valid() && !nested && (buf.buf == old(buf.buf) || fresh(buf.buf))
      ensures State() == CreatedVector(old(State()), payload, count, align) && off == |State().data|
    {
      hide PreAligned, Pushed, OffsetsBytes, FieldsBytes;
      nested := true;
      PreAlign(|payload|, 4);
      PreAlign(|payload|, align);
      buf.Push(payload);
      nested := false;
      off := PushElement(Le(count, 4));
    }

    method CreateString(text: seq<byte>) returns (off: nat)
      requires Valid() && !nested && numFieldLoc == 0
      modifies `minAlign, buf, buf.buf
      ensures Valid() && (buf.buf == old(buf.buf) || fresh(buf.buf))
      ensures State() == CreatedString(old(State()), text) && off == |State().data|
    {
      hide PreAligned, Pushed, OffsetsBytes, FieldsBytes;
      PreAlign(|text| + 1, 4);
      buf.Fill(1);
      buf.Push(text);
      off := PushElement(Le(|text|, 4));
    }

    method Finish(root: nat)
      requires Valid() && !finished && !nested && numFieldLoc == 0 && root <= |State().data|
      modifies `finished, `minAlign, `vtables, buf, buf.buf
      ensures Valid() && finished && (buf.buf == old(buf.buf) || fresh(buf.buf))
      ensures State() == Finished(old(State()), root)
    {
      assert root <= |PreAligned(State().(vtables := []), 4, minAlign).data|;
      hide PreAligned, Pushed, Distance, Aligned;
      buf.ClearScratch();
      vtables := [];
      PreAlign(4, minAlign);
      var distance := ReferTo(root);
      var _ := PushElement(Le(distance, 4));
      finished := true;
    }

    /** The finished buffer. */
    method Bytes() returns (s: seq<byte>)
      requires Valid()
      ensures s == State().data
    {
      s := buf.DataAt(buf.size, buf.size);
    }
  }
}
