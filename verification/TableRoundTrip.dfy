/** Reading a finished table gives back what was added to it, and nothing built earlier reads differently. */
module TableRoundTrip {
  import opened Bytes
  import opened Tables
  import opened Wrappers
  import opened BuilderModel

  // ---------------------------------------------------------------------------------------
  // Offsets from the end
  // ---------------------------------------------------------------------------------------

  /** `bytes` begin at `off`, counted from the end. */
  predicate Stands(data: seq<byte>, off: nat, bytes: seq<byte>) {
    |bytes| <= off <= |data| && Slice(data, |data| - off, |bytes|) == bytes
  }

  /** `later` is `data` with something put in front. */
  predicate Extends(data: seq<byte>, later: seq<byte>) {
    |data| <= |later| && later[|later| - |data|..] == data
  }

  lemma ExtendsTransitive(a: seq<byte>, b: seq<byte>, c: seq<byte>)
    requires Extends(a, b) && Extends(b, c)
    ensures Extends(a, c)
  {
    assert c[|c| - |a|..] == b[|b| - |a|..];
  }

  lemma PrependExtends(front: seq<byte>, data: seq<byte>)
    ensures Extends(data, front + data)
  {
  }

  lemma ExtendsKeepsStands(data: seq<byte>, later: seq<byte>, off: nat, bytes: seq<byte>)
    requires Extends(data, later) && off <= |data|
    ensures Stands(later, off, bytes) <==> Stands(data, off, bytes)
  {
    if |bytes| <= off {
      assert later == later[..|later| - |data|] + data;
      PrependKeepsSlice(later[..|later| - |data|], data, |data| - off, |bytes|);
    }
  }

  // ---------------------------------------------------------------------------------------
  // Vtables
  // ---------------------------------------------------------------------------------------

  /** The bytes of a vtable: its own size comes first. */
  predicate IsVTable(vt: seq<byte>) {
    && 4 <= |vt| < TWO_TO_THE_16
    && |vt| % 2 == 0
    && U16(vt, 0) == |vt|
  }

  /** What a vtable says about a field. */
  function Entry(vt: seq<byte>, id: nat): nat
    requires IsVTable(vt) && IsFieldId(id)
  {
    if id < |vt| then U16(vt, id) else 0
  }

  /** A table whose link names a vtable reads its fields from there. */
  lemma ReadsThrough(data: seq<byte>, loc: nat, use: nat, vt: seq<byte>, id: nat)
    requires |data| < TWO_TO_THE_31 && IsVTable(vt) && IsFieldId(id)
    requires Stands(data, loc, LeS32(use - loc)) && Stands(data, use, vt)
    ensures Readable(data, |data| - loc)
    ensures VTable(data, |data| - loc) == |data| - use
    ensures U16(data, |data| - use) == |vt|
    ensures FieldOffset(data, |data| - loc, id) == Entry(vt, id)
  {
    S32OfLe(data, |data| - loc, use - loc);
    SliceOfSlice(data, |data| - use, |vt|, 0, 2);
    if id < |vt| {
      SliceOfSlice(data, |data| - use, |vt|, id, 2);
    }
  }

  predicate DistinctIds(fields: seq<FieldLoc>) {
    forall i, j | 0 <= i < j < |fields| :: fields[i].id != fields[j].id
  }

  /** A vtable being filled holds the offset of each field written so far. */
  lemma {:induction false} FilledReads(vt: seq<byte>, fields: seq<FieldLoc>, loc: nat, k: nat)
    requires FieldsFit(fields, |vt|, loc) && DistinctIds(fields) && k < |fields|
    ensures Slice(Filled(vt, fields, loc), fields[k].id, 2) == Le(loc - fields[k].off, 2)
    decreases |fields|
  {
    hide Splice, Slice, Le;
    var n := |fields| - 1;
    var before := Filled(vt, fields[..n], loc);
    var entry := Le(loc - fields[n].off, 2);
    if k == n {
      SpliceReads(before, fields[n].id, entry);
    } else {
      FilledReads(vt, fields[..n], loc, k);
      SpliceKeeps(before, fields[n].id, entry, fields[k].id, 2);
    }
  }

  /** What no field was written to is as it was. */
  lemma {:induction false} FilledKeeps(vt: seq<byte>, fields: seq<FieldLoc>, loc: nat, i: nat)
    requires FieldsFit(fields, |vt|, loc) && i + 2 <= |vt| && i % 2 == 0
    requires forall k | 0 <= k < |fields| :: fields[k].id != i
    ensures Slice(Filled(vt, fields, loc), i, 2) == Slice(vt, i, 2)
    decreases |fields|
  {
    hide Splice, Slice, Le;
    if fields != [] {
      var n := |fields| - 1;
      FilledKeeps(vt, fields[..n], loc, i);
      SpliceKeeps(Filled(vt, fields[..n], loc), fields[n].id, Le(loc - fields[n].off, 2), i, 2);
    }
  }

  lemma ZeroWord()
    ensures Le(0, 2) == [0, 0]
  {
    assert Le(0, 2) == [0] + Le(0, 1) && Le(0, 1) == [0] + Le(0, 0);
  }

  lemma VTableBaseHead(size: nat, objectSize: nat)
    requires size >= 4
    ensures Slice(VTableBase(size, objectSize), 0, 2) == Le(size, 2)
    ensures Slice(VTableBase(size, objectSize), 2, 2) == Le(objectSize, 2)
  {
    hide Le, Zeros;
  }

  lemma NewVTableIsVTable(b: Builder, start: nat)
    requires MayEnd(b, start) && Laid(b, start)
    ensures IsVTable(NewVTable(b, start))
  {
    hide VTableBase, Filled, Le, Slice, U16;
    var size, loc := VTableSize(b), TableOffset(b);
    FilledKeeps(VTableBase(size, loc - start), b.fields, loc, 0);
    VTableBaseHead(size, loc - start);
    U16OfLe(NewVTable(b, start), 0, size);
  }

  lemma VTableBaseEmpty(size: nat, objectSize: nat, id: nat)
    requires 4 <= id && id + 2 <= size
    ensures Slice(VTableBase(size, objectSize), id, 2) == Le(0, 2)
  {
    hide Le;
    ZeroWord();
  }

  lemma EntryReads(vt: seq<byte>, id: nat, v: nat)
    requires IsVTable(vt) && IsFieldId(id) && id + 2 <= |vt| && v < TWO_TO_THE_16 && Slice(vt, id, 2) == Le(v, 2)
    ensures Entry(vt, id) == v
  {
    hide U16, Slice, Le;
    U16OfLe(vt, id, v);
  }

  lemma EntryBeyond(vt: seq<byte>, id: nat)
    requires IsVTable(vt) && IsFieldId(id) && |vt| <= id
    ensures Entry(vt, id) == 0
  {
  }

  /** The new vtable sends each field to where it was put, and any other to zero. */
  lemma NewVTableEntry(b: Builder, start: nat, id: nat)
    requires MayEnd(b, start) && Laid(b, start)
    requires DistinctIds(b.fields) && IsFieldId(id) && TableOffset(b) - start < TWO_TO_THE_16
    ensures IsVTable(NewVTable(b, start))
    ensures forall k | 0 <= k < |b.fields| && b.fields[k].id == id ::
              Entry(NewVTable(b, start), id) == TableOffset(b) - b.fields[k].off
    ensures (forall k | 0 <= k < |b.fields| :: b.fields[k].id != id) ==> Entry(NewVTable(b, start), id) == 0
  {
    hide VTableBase, Filled, Le, Slice, U16, Entry, IsVTable;
    NewVTableIsVTable(b, start);
    var size, loc := VTableSize(b), TableOffset(b);
    var base := VTableBase(size, loc - start);
    var vt := NewVTable(b, start);
    if k :| 0 <= k < |b.fields| && b.fields[k].id == id {
      FilledReads(base, b.fields, loc, k);
      EntryReads(vt, id, loc - b.fields[k].off);
    } else if id < size {
      FilledKeeps(base, b.fields, loc, id);
      VTableBaseEmpty(size, loc - start, id);
      EntryReads(vt, id, 0);
    } else {
      EntryBeyond(vt, id);
    }
  }

  lemma PrefixStands(front: seq<byte>, data: seq<byte>)
    ensures Stands(front + data, |front| + |data|, front)
  {
  }

  lemma LayersStand(top: seq<byte>, middle: seq<byte>, rest: seq<byte>)
    ensures var data := top + middle + rest;
            && Stands(data, |data|, top) && Stands(data, |middle| + |rest|, middle) && Extends(rest, data)
  {
    var data := top + middle + rest;
    assert data == top + (middle + rest);
    PrefixStands(middle, rest);
    PrependExtends(top, middle + rest);
    ExtendsKeepsStands(middle + rest, data, |middle| + |rest|, middle);
  }

  /** The link of an ended table names a vtable with the bytes of the new one; all built before stays. */
  lemma EndedTableShape(b: Builder, start: nat) returns (use: nat)
    requires MayEnd(b, start)
    ensures var e, loc, vt := EndedTable(b, start), TableOffset(b), NewVTable(b, start);
            && Extends(b.data, e.data) && loc <= |e.data|
            && Stands(e.data, loc, LeS32(use - loc)) && Stands(e.data, use, vt)
            && (use in b.vtables || use == loc + |vt|)
  {
    var a, e, loc, vt := Aligned(b, 4), EndedTable(b, start), TableOffset(b), NewVTable(b, start);
    PrependExtends(Zeros(Padding(|b.data|, 4)), b.data);
    match Shared(a.data, b.vtables, vt) {
      case Some(kept) =>
        use := kept;
        assert Stands(a.data, use, vt);
        assert e.data == LeS32(use - loc) + a.data;
        hide *;
        PrependExtends(LeS32(use - loc), a.data);
        PrefixStands(LeS32(use - loc), a.data);
        ExtendsKeepsStands(a.data, e.data, use, vt);
      case None =>
        use := loc + |vt|;
        assert e.data == vt + LeS32(|vt|) + a.data;
        hide *;
        LayersStand(vt, LeS32(|vt|), a.data);
    }
    hide *;
    ExtendsTransitive(b.data, a.data, e.data);
  }

  /** Ending a table leaves all that was built before in place, and the new table reads through the new vtable. */
  lemma EndedTableReads(b: Builder, start: nat, id: nat)
    requires MayEnd(b, start) && Laid(b, start) && IsFieldId(id)
    requires |EndedTable(b, start).data| < TWO_TO_THE_31
    ensures var e, loc, vt := EndedTable(b, start), TableOffset(b), NewVTable(b, start);
            && Extends(b.data, e.data) && loc <= |e.data| && IsVTable(vt)
            && Readable(e.data, |e.data| - loc)
            && FieldOffset(e.data, |e.data| - loc, id) == Entry(vt, id)
  {
    hide *;
    NewVTableIsVTable(b, start);
    var use := EndedTableShape(b, start);
    var e, loc, vt := EndedTable(b, start), TableOffset(b), NewVTable(b, start);
    ReadsThrough(e.data, loc, use, vt, id);
  }

  // ---------------------------------------------------------------------------------------
  // Fields
  // ---------------------------------------------------------------------------------------

  /** The bytes a field is stored as when they end up at offset `off`. */
  function Content(f: Field, off: nat): seq<byte>
    requires Stores(f) && (f.Reference? ==> f.target <= off)
  {
    match f
    case Scalar(_, value, _, _) => value
    case Struct(_, content, _) => content.value
    case Reference(_, target) => Le(off - target, 4)
  }

  function AlignmentOf(f: Field): nat {
    match f
    case Scalar(_, value, _, _) => |value|
    case Struct(_, _, align) => align
    case Reference(_, _) => 4
  }

  /** A stored field, at offset `off`, in a table begun at `start`. */
  ghost predicate KeptAt(data: seq<byte>, f: Field, start: nat, off: nat)
    requires Stores(f) && WellFormed(f, start)
  {
    && (f.Reference? ==> f.target + 4 <= off)
    && start + |Content(f, off)| <= off
    && off % AlignmentOf(f) == 0
    && Stands(data, off, Content(f, off))
  }

  ghost predicate Kept(b: Builder, f: Field, start: nat)
    requires WellFormed(f, start)
  {
    if Stores(f) then
      exists k :: 0 <= k < |b.fields| && b.fields[k].id == f.id && KeptAt(b.data, f, start, b.fields[k].off)
    else forall k | 0 <= k < |b.fields| :: b.fields[k].id != f.id
  }

  lemma SumAligned(n: nat, m: nat, align: nat)
    requires IsAlignment(align) && n % align == 0 && m % align == 0
    ensures (n + m) % align == 0
  {
    MultiplesAdd(n, m);
    match align
    case 1 =>
    case 2 =>
    case 4 =>
    case _ =>
  }

  lemma PaddingOfAligned(n: nat)
    requires n % 4 == 0
    ensures Padding(n, 4) == 0
  {
  }

  /** A reference: padding, then the distance to its target. */
  lemma ReferenceBytes(b: Builder, id: nat, target: nat)
    requires IsFieldId(id) && 0 < target <= |b.data|
    ensures var f, pad := Reference(id, target), Zeros(Padding(|b.data|, 4));
            var p := Placed(b, f);
            && p.data == Le(|p.data| - target, 4) + pad + b.data && target + 4 <= |p.data|
            && (|pad| + |b.data|) % 4 == 0
  {
    hide Le, IsFieldId, Padding;
    assert Padding(|Aligned(b, 4).data|, 4) == 0 by {
      PaddingOfAligned(|Aligned(b, 4).data|);
    }
    assert Zeros(0) == [];
  }

  /** What placing a field does: padding, then its bytes in front, aligned. */
  lemma PlacedBytes(b: Builder, f: Field) returns (pad: seq<byte>, bytes: seq<byte>)
    requires WellFormed(f, |b.data|) && Stores(f)
    ensures Placed(b, f).data == bytes + pad + b.data
    ensures (|pad| + |b.data|) % AlignmentOf(f) == 0 && |bytes| % AlignmentOf(f) == 0
    ensures f.Reference? ==> f.target + 4 <= |Placed(b, f).data|
    ensures bytes == Content(f, |Placed(b, f).data|)
  {
    hide Le, Zeros, IsFieldId, Padding;
    match f {
      case Scalar(_, value, _, _) =>
        pad, bytes := Zeros(Padding(|b.data|, |value|)), value;
        assert |value| % |value| == 0;
      case Struct(_, content, align) =>
        pad, bytes := Zeros(Padding(|b.data|, align)), content.value;
      case Reference(id, target) =>
        hide Placed;
        ReferenceBytes(b, id, target);
        pad, bytes := Zeros(Padding(|b.data|, 4)), Le(|Placed(b, f).data| - target, 4);
    }
  }

  /** Placing a field puts it in front and leaves the rest. */
  lemma PlacedShape(b: Builder, f: Field, start: nat)
    requires WellFormed(f, start) && Stores(f) && start <= |b.data|
    ensures var p := Placed(b, f);
            Extends(b.data, p.data) && KeptAt(p.data, f, start, |p.data|)
  {
    var pad, bytes := PlacedBytes(b, f);
    LayersStand(bytes, pad, b.data);
    SumAligned(|pad| + |b.data|, |bytes|, AlignmentOf(f));
    hide Placed, Content, Stands, Extends;
  }

  lemma PlacedFields(b: Builder, f: Field)
    requires WellFormed(f, |b.data|)
    ensures var p := Placed(b, f);
            if Stores(f) then
              p.fields == b.fields + [FieldLoc(|p.data|, f.id)] && p.maxVOffset == Max(b.maxVOffset, f.id)
            else p == b
  {
  }

  lemma KeptLater(data: seq<byte>, later: seq<byte>, f: Field, start: nat, off: nat)
    requires Stores(f) && WellFormed(f, start) && KeptAt(data, f, start, off) && Extends(data, later)
    ensures KeptAt(later, f, start, off)
  {
    ExtendsKeepsStands(data, later, off, Content(f, off));
  }

  /** Adding a field keeps every field of another id. */
  lemma PlacedKeeps(b: Builder, g: Field, f: Field, start: nat)
    requires WellFormed(g, start) && WellFormed(f, start) && start <= |b.data|
    requires f.id != g.id && Kept(b, f, start)
    ensures Kept(Placed(b, g), f, start)
  {
    hide Placed, KeptAt, Stores, Extends, IsFieldId, IsAlignment;
    PlacedFields(b, g);
    if Stores(g) {
      PlacedShape(b, g, start);
      var p := Placed(b, g);
      if Stores(f) {
        var k :| 0 <= k < |b.fields| && b.fields[k].id == f.id && KeptAt(b.data, f, start, b.fields[k].off);
        KeptLater(b.data, p.data, f, start, b.fields[k].off);
        assert p.fields[k] == b.fields[k];
      }
    }
  }

  lemma PlacedAdds(b: Builder, f: Field, start: nat)
    requires WellFormed(f, start) && start <= |b.data|
    requires forall k | 0 <= k < |b.fields| :: b.fields[k].id != f.id
    ensures Kept(Placed(b, f), f, start)
  {
    PlacedFields(b, f);
    if Stores(f) {
      PlacedShape(b, f, start);
      var p := Placed(b, f);
      assert p.fields[|b.fields|] == FieldLoc(|p.data|, f.id);
      hide Placed, KeptAt, Extends;
    }
  }

  predicate Distinct(fs: seq<Field>) {
    forall i, j | 0 <= i < j < |fs| :: fs[i].id != fs[j].id
  }

  ghost predicate NotAmong(fs: seq<Field>, id: nat) {
    forall i | 0 <= i < |fs| :: fs[i].id != id
  }

  /** Only the ids added are tracked, each once. */
  lemma {:induction false} AllPlacedIds(b: Builder, fs: seq<Field>)
    requires Idle(b) && AllWellFormed(fs, |b.data|) && Distinct(fs)
    ensures DistinctIds(AllPlaced(b, fs).fields)
    ensures forall k | 0 <= k < |AllPlaced(b, fs).fields| :: !NotAmong(fs, AllPlaced(b, fs).fields[k].id)
    decreases |fs|
  {
    if fs != [] {
      var last := |fs| - 1;
      var before := AllPlaced(b, fs[..last]);
      AllPlacedIds(b, fs[..last]);
      PlacedFields(before, fs[last]);
      hide Placed, WellFormed, Laid;
      forall k | 0 <= k < |AllPlaced(b, fs).fields|
        ensures !NotAmong(fs, AllPlaced(b, fs).fields[k].id)
      {
        if k < |before.fields| {
          assert !NotAmong(fs[..last], before.fields[k].id);
        }
      }
      forall k | 0 <= k < |before.fields|
        ensures before.fields[k].id != fs[last].id
      {
        assert !NotAmong(fs[..last], before.fields[k].id);
      }
    }
  }

  /** A field that is still to be added is not tracked yet. */
  lemma NextUntracked(b: Builder, fs: seq<Field>, i: nat)
    requires Idle(b) && AllWellFormed(fs, |b.data|) && Distinct(fs) && i < |fs|
    ensures forall k | 0 <= k < |AllPlaced(b, fs[..i]).fields| :: AllPlaced(b, fs[..i]).fields[k].id != fs[i].id
  {
    hide AllPlaced, Placed, WellFormed, Laid;
    var before := AllPlaced(b, fs[..i]);
    AllPlacedIds(b, fs[..i]);
    forall k | 0 <= k < |before.fields|
      ensures before.fields[k].id != fs[i].id
    {
      assert !NotAmong(fs[..i], before.fields[k].id);
    }
  }

  lemma {:induction false} AllPlacedKeeps(b: Builder, fs: seq<Field>, i: nat)
    requires Idle(b) && AllWellFormed(fs, |b.data|) && Distinct(fs) && i < |fs|
    ensures Kept(AllPlaced(b, fs), fs[i], |b.data|)
    decreases |fs|
  {
    hide Placed, Kept, WellFormed;
    var last := |fs| - 1;
    var before := AllPlaced(b, fs[..last]);
    if i == last {
      NextUntracked(b, fs, last);
      PlacedAdds(before, fs[last], |b.data|);
    } else {
      AllPlacedKeeps(b, fs[..last], i);
      PlacedKeeps(before, fs[last], fs[i], |b.data|);
    }
  }

  lemma {:induction false} AllPlacedExtends(b: Builder, fs: seq<Field>)
    requires Idle(b) && AllWellFormed(fs, |b.data|)
    ensures Extends(b.data, AllPlaced(b, fs).data)
    decreases |fs|
  {
    if fs != [] {
      var last := |fs| - 1;
      AllPlacedExtends(b, fs[..last]);
      var before := AllPlaced(b, fs[..last]);
      if Stores(fs[last]) {
        PlacedShape(before, fs[last], |b.data|);
        ExtendsTransitive(b.data, before.data, AllPlaced(b, fs).data);
      }
    }
  }

  // ---------------------------------------------------------------------------------------
  // The round trip
  // ---------------------------------------------------------------------------------------

  /** The bounds the builder asserts: the buffer stays below 2 GiB and the table below 64 KiB. */
  predicate TableFits(b: Builder, fs: seq<Field>)
    requires Idle(b) && AllWellFormed(fs, |b.data|)
  {
    && |TableOf(b, fs).data| < TWO_TO_THE_31
    && TableOffset(AllPlaced(b, fs)) - |b.data| < TWO_TO_THE_16
  }

  /** The offset of the table that `TableOf` builds. */
  function NewTable(b: Builder, fs: seq<Field>): nat
    requires Idle(b) && AllWellFormed(fs, |b.data|)
  {
    TableOffset(AllPlaced(b, fs))
  }

  /** The place of an offset that counts from the end. */
  function Place(data: seq<byte>, off: nat): int {
    |data| - off
  }

  function TableSize(data: seq<byte>, pos: int): nat
    requires Readable(data, pos) && Fits(data, VTable(data, pos), 4)
  {
    U16(data, VTable(data, pos) + 2)
  }

  /** Reading a field by its id gives what was added: the value, the struct, or the target. */
  ghost predicate ReadsBack(data: seq<byte>, pos: int, f: Field)
    requires IsFieldId(f.id)
  {
    && Readable(data, pos)
    && (FieldOffset(data, pos, f.id) == 0 <==> !Stores(f))
    && match f
       case Scalar(id, value, fallback, _) =>
         FieldFits(data, pos, id, |fallback|) && GetField(data, pos, id, fallback) == value
       case Struct(id, content, _) =>
         content.Some? ==>
           FieldFits(data, pos, id, |content.value|) && GetStruct(data, pos, id, |content.value|) == content
       case Reference(id, target) =>
         FieldFits(data, pos, id, 4) &&
         GetPointer(data, pos, id) == if target == 0 then None else Some(Place(data, target))
  }

  function WidthOf(f: Field): nat {
    match f
    case Scalar(_, value, _, _) => |value|
    case Struct(_, content, _) => if content.Some? then |content.value| else 0
    case Reference(_, _) => 4
  }

  /** A stored field lies inside its table, behind the link, and is aligned counting from the end. */
  ghost predicate LiesInTable(data: seq<byte>, pos: int, f: Field)
    requires IsFieldId(f.id) && IsAlignment(AlignmentOf(f))
  {
    && Readable(data, pos) && Fits(data, VTable(data, pos), 4)
    && pos + TableSize(data, pos) <= |data|
    && (Stores(f) ==>
          && 4 <= FieldOffset(data, pos, f.id)
          && FieldOffset(data, pos, f.id) + WidthOf(f) <= TableSize(data, pos)
          && (|data| - pos - FieldOffset(data, pos, f.id)) % AlignmentOf(f) == 0)
  }

  /** The vtable entry of a field of the table being ended. */
  lemma EntryFound(p: Builder, f: Field, start: nat) returns (off: nat)
    requires Laid(p, start) && DistinctIds(p.fields) && WellFormed(f, start) && Kept(p, f, start)
    requires TableOffset(p) - start < TWO_TO_THE_16
    ensures IsVTable(NewVTable(p, start))
    ensures if Stores(f) then
              Entry(NewVTable(p, start), f.id) == TableOffset(p) - off && off + 4 <= TableOffset(p) &&
              KeptAt(p.data, f, start, off)
            else Entry(NewVTable(p, start), f.id) == 0
  {
    NewVTableEntry(p, start, f.id);
    off := 0;
    if Stores(f) {
      var k :| 0 <= k < |p.fields| && p.fields[k].id == f.id && KeptAt(p.data, f, start, p.fields[k].off);
      off := p.fields[k].off;
      hide NewVTable, Entry, KeptAt, Stores, WellFormed, IsVTable;
    }
  }

  /** A table reads the same in every later buffer. */
  lemma LaterReads(data: seq<byte>, later: seq<byte>, loc: nat, id: nat)
    requires loc <= |data| && Extends(data, later) && Readable(data, Place(data, loc)) && IsFieldId(id)
    ensures Readable(later, Place(later, loc))
    ensures FieldOffset(later, Place(later, loc), id) == FieldOffset(data, Place(data, loc), id)
  {
    var front := later[..|later| - |data|];
    assert later == front + data;
    PrependKeepsTable(front, data, Place(data, loc), id);
  }

  /** What is known of the builder just before the table is ended. */
  lemma BeforeEnd(b: Builder, fs: seq<Field>, i: nat)
    requires Idle(b) && AllWellFormed(fs, |b.data|) && Distinct(fs) && TableFits(b, fs) && i < |fs|
    ensures var f, p := fs[i], AllPlaced(b, fs);
            && MayEnd(p, |b.data|) && DistinctIds(p.fields) && WellFormed(f, |b.data|) && Kept(p, f, |b.data|)
            && |EndedTable(p, |b.data|).data| < TWO_TO_THE_31
            && TableOffset(p) - |b.data| < TWO_TO_THE_16
  {
    AllPlacedIds(b, fs);
    AllPlacedKeeps(b, fs, i);
    hide AllPlaced, EndedTable, Kept, TableOffset, DistinctIds;
  }

  lemma ExtendsLonger(data: seq<byte>, later: seq<byte>)
    requires Extends(data, later)
    ensures |data| <= |later|
  {
  }

  /** Where a field of an ended table is found, in its buffer and every later one. */
  lemma EndedFieldFound(p: Builder, f: Field, start: nat, later: seq<byte>) returns (off: nat)
    requires MayEnd(p, start) && Laid(p, start) && DistinctIds(p.fields) && WellFormed(f, start) && Kept(p, f, start)
    requires TableOffset(p) - start < TWO_TO_THE_16
    requires |EndedTable(p, start).data| < TWO_TO_THE_31 && Extends(EndedTable(p, start).data, later)
    ensures TableOffset(p) <= |later| && Readable(later, Place(later, TableOffset(p)))
    ensures var offset := FieldOffset(later, Place(later, TableOffset(p)), f.id);
            if Stores(f) then
              offset == TableOffset(p) - off && off + 4 <= TableOffset(p) && KeptAt(later, f, start, off)
            else offset == 0
  {
    hide EndedTable, NewVTable, TableOffset, Readable, FieldOffset, KeptAt, Kept, Extends, Laid, MayEnd, IsVTable,
         Entry, Stores, DistinctIds;
    var e, loc := EndedTable(p, start), TableOffset(p);
    ExtendsLonger(e.data, later);
    off := EntryFound(p, f, start);
    EndedTableReads(p, start, f.id);
    LaterReads(e.data, later, loc, f.id);
    if Stores(f) {
      ExtendsTransitive(p.data, e.data, later);
      KeptLater(p.data, later, f, start, off);
    }
  }

  lemma FieldFound(b: Builder, fs: seq<Field>, i: nat, later: seq<byte>) returns (off: nat)
    requires Idle(b) && AllWellFormed(fs, |b.data|) && Distinct(fs) && TableFits(b, fs) && i < |fs|
    requires Extends(TableOf(b, fs).data, later)
    ensures NewTable(b, fs) <= |later| && Readable(later, Place(later, NewTable(b, fs)))
    ensures WellFormed(fs[i], |b.data|)
    ensures var offset := FieldOffset(later, Place(later, NewTable(b, fs)), fs[i].id);
            if Stores(fs[i]) then
              offset == NewTable(b, fs) - off && off + 4 <= NewTable(b, fs) && KeptAt(later, fs[i], |b.data|, off)
            else offset == 0
  {
    BeforeEnd(b, fs, i);
    hide AllPlaced, EndedTable, Readable, FieldOffset, Kept, KeptAt, Stores, DistinctIds, WellFormed,
         Extends, TableOffset, Place, AllWellFormed, Distinct, Laid, MayEnd;
    off := EndedFieldFound(AllPlaced(b, fs), fs[i], |b.data|, later);
  }

  /** A field found at its offset reads back. */
  lemma FoundReads(data: seq<byte>, pos: int, f: Field, start: nat, off: nat)
    requires WellFormed(f, start) && Readable(data, pos) && |data| < TWO_TO_THE_31
    requires if Stores(f) then
               pos + FieldOffset(data, pos, f.id) == |data| - off && FieldOffset(data, pos, f.id) != 0 &&
               KeptAt(data, f, start, off)
             else FieldOffset(data, pos, f.id) == 0
    ensures ReadsBack(data, pos, f)
  {
    hide Readable, FieldOffset, Le, U32, Slice;
    if f.Reference? && Stores(f) {
      U32OfLe(data, |data| - off, off - f.target);
    }
  }

  /** Round trip: each field of a finished table reads back what was added, in every later buffer. */
  lemma FieldRoundTrip(b: Builder, fs: seq<Field>, i: nat, later: seq<byte>)
    requires Idle(b) && AllWellFormed(fs, |b.data|) && Distinct(fs) && TableFits(b, fs) && i < |fs|
    requires Extends(TableOf(b, fs).data, later) && |later| < TWO_TO_THE_31
    ensures ReadsBack(later, Place(later, NewTable(b, fs)), fs[i])
  {
    var off := FieldFound(b, fs, i, later);
    hide TableFits, TableOf, NewTable, AllPlaced, Readable, FieldOffset, KeptAt, Stores, ReadsBack, WellFormed,
         AllWellFormed, Distinct, Extends;
    FoundReads(later, Place(later, NewTable(b, fs)), fs[i], |b.data|, off);
  }

  /** A field that was not added is absent. */
  lemma OthersAbsent(b: Builder, fs: seq<Field>, id: nat, later: seq<byte>)
    requires Idle(b) && AllWellFormed(fs, |b.data|) && Distinct(fs) && TableFits(b, fs)
    requires Extends(TableOf(b, fs).data, later) && IsFieldId(id) && NotAmong(fs, id)
    ensures NewTable(b, fs) <= |later| && Readable(later, Place(later, NewTable(b, fs)))
    ensures FieldOffset(later, Place(later, NewTable(b, fs)), id) == 0
  {
    var p, e := AllPlaced(b, fs), TableOf(b, fs);
    AllPlacedIds(b, fs);
    hide AllPlaced, EndedTable, NewVTable, Entry, Readable, FieldOffset;
    EndedTableReads(p, |b.data|, id);
    NewVTableEntry(p, |b.data|, id);
    LaterReads(e.data, later, NewTable(b, fs), id);
  }

  // ---------------------------------------------------------------------------------------
  // Where the table lies
  // ---------------------------------------------------------------------------------------

  lemma NewVTableSize(p: Builder, start: nat)
    requires MayEnd(p, start) && Laid(p, start) && TableOffset(p) - start < TWO_TO_THE_16
    ensures U16(NewVTable(p, start), 2) == TableOffset(p) - start
  {
    var base := VTableBase(VTableSize(p), TableOffset(p) - start);
    FilledKeeps(base, p.fields, TableOffset(p), 2);
    VTableBaseHead(VTableSize(p), TableOffset(p) - start);
    U16OfLe(NewVTable(p, start), 2, TableOffset(p) - start);
  }

  lemma SizeThrough(data: seq<byte>, loc: nat, use: nat, vt: seq<byte>)
    requires |data| < TWO_TO_THE_31 && IsVTable(vt) && loc <= |data|
    requires Stands(data, loc, LeS32(use - loc)) && Stands(data, use, vt)
    ensures Readable(data, Place(data, loc)) && Fits(data, VTable(data, Place(data, loc)), 4)
    ensures TableSize(data, Place(data, loc)) == U16(vt, 2)
  {
    ReadsThrough(data, loc, use, vt, 4);
    SliceOfSlice(data, |data| - use, |vt|, 2, 2);
  }

  lemma EndedTableSize(p: Builder, start: nat)
    requires MayEnd(p, start) && Laid(p, start) && TableOffset(p) - start < TWO_TO_THE_16
    requires |EndedTable(p, start).data| < TWO_TO_THE_31
    ensures var data, loc := EndedTable(p, start).data, TableOffset(p);
            && loc <= |data| && Readable(data, Place(data, loc))
            && Fits(data, VTable(data, Place(data, loc)), 4)
            && TableSize(data, Place(data, loc)) == loc - start
  {
    NewVTableIsVTable(p, start);
    NewVTableSize(p, start);
    var use := EndedTableShape(p, start);
    hide EndedTable, NewVTable, TableOffset, Laid, MayEnd, Readable, Extends, LeS32, Stands, IsVTable, VTable,
         TableSize, Place;
    SizeThrough(EndedTable(p, start).data, TableOffset(p), use, NewVTable(p, start));
  }

  lemma LaterSize(data: seq<byte>, later: seq<byte>, loc: nat)
    requires loc <= |data| && Extends(data, later) && Readable(data, Place(data, loc))
    requires Fits(data, VTable(data, Place(data, loc)), 4)
    ensures Readable(later, Place(later, loc)) && Fits(later, VTable(later, Place(later, loc)), 4)
    ensures TableSize(later, Place(later, loc)) == TableSize(data, Place(data, loc))
  {
    var front := later[..|later| - |data|];
    assert later == front + data;
    PrependKeepsTable(front, data, Place(data, loc), 4);
    PrependKeepsWords(front, data, Place(data, loc));
    PrependKeepsWords(front, data, VTable(data, Place(data, loc)) + 2);
  }

  lemma FoundLies(data: seq<byte>, loc: nat, f: Field, start: nat, off: nat)
    requires WellFormed(f, start) && loc <= |data| && Readable(data, Place(data, loc))
    requires Fits(data, VTable(data, Place(data, loc)), 4)
    requires TableSize(data, Place(data, loc)) == loc - start
    requires Stores(f) ==> FieldOffset(data, Place(data, loc), f.id) == loc - off && off + 4 <= loc &&
                           KeptAt(data, f, start, off)
    ensures LiesInTable(data, Place(data, loc), f)
  {
    hide Readable, FieldOffset, TableSize, VTable;
    if Stores(f) {
      assert |Content(f, off)| == WidthOf(f);
    }
  }

  lemma TableSizeLater(b: Builder, fs: seq<Field>, later: seq<byte>)
    requires Idle(b) && AllWellFormed(fs, |b.data|) && TableFits(b, fs) && Extends(TableOf(b, fs).data, later)
    ensures var loc := NewTable(b, fs);
            && loc <= |later| && Readable(later, Place(later, loc)) && Fits(later, VTable(later, Place(later, loc)), 4)
            && TableSize(later, Place(later, loc)) == loc - |b.data|
  {
    EndedTableSize(AllPlaced(b, fs), |b.data|);
    assert |TableOf(b, fs).data| <= |later|;
    hide Readable, FieldOffset, AllPlaced, EndedTable, AllWellFormed, Laid, TableOffset, TableSize, Extends, MayEnd,
         VTable, Place;
    LaterSize(TableOf(b, fs).data, later, NewTable(b, fs));
  }

  /** Every field of a finished table lies in the table, and is aligned. */
  lemma FieldLiesInTable(b: Builder, fs: seq<Field>, i: nat, later: seq<byte>)
    requires Idle(b) && AllWellFormed(fs, |b.data|) && Distinct(fs) && TableFits(b, fs) && i < |fs|
    requires Extends(TableOf(b, fs).data, later)
    ensures WellFormed(fs[i], |b.data|) && LiesInTable(later, Place(later, NewTable(b, fs)), fs[i])
  {
    hide Readable, FieldOffset, TableFits, Kept, KeptAt, LiesInTable, Stores, NewTable, TableOf,
         TableOffset, TableSize, Extends, VTable, WellFormed, Place;
    var off := FieldFound(b, fs, i, later);
    TableSizeLater(b, fs, later);
    FoundLies(later, NewTable(b, fs), fs[i], |b.data|, off);
  }

  /** Building a table changes no table built before, whether or not a vtable is shared. */
  lemma EarlierTablesKept(b: Builder, fs: seq<Field>, loc: nat, id: nat)
    requires Idle(b) && AllWellFormed(fs, |b.data|)
    requires loc <= |b.data| && Readable(b.data, Place(b.data, loc)) && IsFieldId(id)
    ensures var later := TableOf(b, fs).data;
            && Extends(b.data, later) && Readable(later, Place(later, loc))
            && FieldOffset(later, Place(later, loc), id) == FieldOffset(b.data, Place(b.data, loc), id)
  {
    var p := AllPlaced(b, fs);
    AllPlacedExtends(b, fs);
    var _ := EndedTableShape(p, |b.data|);
    ExtendsTransitive(b.data, p.data, TableOf(b, fs).data);
    hide AllPlaced, EndedTable, Readable, FieldOffset, Extends;
    LaterReads(b.data, TableOf(b, fs).data, loc, id);
  }
}
