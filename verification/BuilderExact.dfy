/**
 How a builder lays out a table: what takes room and how much, where each field comes to lie, and when a vtable is
 shared.
 */
module BuilderExact {
  import opened Bytes
  import opened Tables
  import opened Wrappers
  import opened BuilderModel
  import opened TableRoundTrip

  // ---------------------------------------------------------------------------------------
  // Padding
  // ---------------------------------------------------------------------------------------

  /** Padding is as short as it can be. */
  lemma PaddingIsLeast(size: nat, align: nat, more: nat)
    requires IsAlignment(align) && (size + more) % align == 0
    ensures Padding(size, align) <= more
  {
    match align
    case 1 =>
    case 2 =>
    case 4 =>
    case _ =>
  }

  /** Aligning puts the fewest zeros in front that bring the size to a multiple. */
  lemma AlignedExactly(b: Builder, align: nat)
    requires IsAlignment(align)
    ensures var a := Aligned(b, align);
            var pad := |a.data| - |b.data|;
            && 0 <= pad < align && |a.data| % align == 0 && a.data == Zeros(pad) + b.data
            && a == b.(data := a.data, minAlign := a.minAlign)
            && a.minAlign == if b.minAlign < align then align else b.minAlign
  {
    var total := |b.data| + Padding(|b.data|, align);
    assert total % align == 0;
    hide Padding;
    assert |Aligned(b, align).data| == total;
  }

  /** Nothing is padded for nothing; otherwise the padding is zeros, and what follows ends aligned. */
  lemma PreAlignedExactly(b: Builder, len: nat, align: nat)
    requires IsAlignment(align)
    ensures var p := PreAligned(b, len, align);
            && (len == 0 ==> p == b)
            && (len > 0 ==>
                  var pad := |p.data| - |b.data|;
                  && 0 <= pad < align && (|p.data| + len) % align == 0
                  && p.data == Zeros(pad) + b.data
                  && p == b.(data := p.data, minAlign := p.minAlign)
                  && p.minAlign == if b.minAlign < align then align else b.minAlign)
  {
    var total := |b.data| + len + Padding(|b.data| + len, align);
    assert total % align == 0;
    hide Padding;
    if len > 0 {
      assert |PreAligned(b, len, align).data| + len == total;
    }
  }

  // ---------------------------------------------------------------------------------------
  // What takes room
  // ---------------------------------------------------------------------------------------

  /** A scalar at its default that is not forced, an absent struct, and a null reference. */
  predicate Elided(f: Field) {
    match f
    case Scalar(_, value, fallback, forced) => !forced && value == fallback
    case Struct(_, content, _) => content == None
    case Reference(_, target) => target == 0
  }

  lemma PlacedRoom(b: Builder, f: Field)
    requires WellFormed(f, |b.data|) && Stores(f)
    ensures var p := Placed(b, f);
            && |p.data| == |b.data| + Padding(|b.data|, AlignmentOf(f)) + WidthOf(f)
            && p.minAlign == (if b.minAlign < AlignmentOf(f) then AlignmentOf(f) else b.minAlign)
            && p.fields == b.fields + [FieldLoc(|p.data|, f.id)] && p.vtables == b.vtables
            && p.maxVOffset == (if b.maxVOffset < f.id then f.id else b.maxVOffset)
  {
    hide Le;
    if f.Reference? {
      var aligned := |b.data| + Padding(|b.data|, 4);
      assert aligned % 4 == 0;
      PaddingOfAligned(aligned);
      hide Padding;
    }
  }

  /**
   A field that is elided leaves the builder as it was. Any other takes its own bytes and the least padding in front of
   them, is put on record with its place, and changes nothing that was built before.
   */
  lemma PlacedExactly(b: Builder, f: Field)
    requires WellFormed(f, |b.data|)
    ensures var p := Placed(b, f);
            if Elided(f) then p == b
            else
              && p.fields == b.fields + [FieldLoc(|p.data|, f.id)] && p.vtables == b.vtables
              && |p.data| == |b.data| + Padding(|b.data|, AlignmentOf(f)) + WidthOf(f) && Extends(b.data, p.data)
              && p.maxVOffset == (if b.maxVOffset < f.id then f.id else b.maxVOffset)
              && p.minAlign == (if b.minAlign < AlignmentOf(f) then AlignmentOf(f) else b.minAlign)
  {
    if !Elided(f) {
      PlacedShape(b, f, |b.data|);
      PlacedRoom(b, f);
    }
  }

  /** Vectors, strings and the root take their bytes and no more padding than alignment asks for. */
  lemma PiecesRoom(b: Builder, payload: seq<byte>, count: nat, align: nat, root: nat)
    requires IsAlignment(align) && IsAlignment(b.minAlign) && root <= |b.data|
    ensures |CreatedVector(b, payload, count, align).data| < |b.data| + |payload| + 4 + 4 + align + 3
    ensures |CreatedString(b, payload).data| < |b.data| + |payload| + 1 + 4 + 4 + 3
    ensures |Finished(b, root).data| < |b.data| + 4 + b.minAlign + 6
  {
    hide Le;
  }

  // ---------------------------------------------------------------------------------------
  // Sharing
  // ---------------------------------------------------------------------------------------

  lemma SharedNext(data: seq<byte>, vtables: seq<nat>, vt: seq<byte>)
    requires vtables != [] && !Matches(data, vtables[0], vt)
    requires Shared(data, vtables[1..], vt) == None <==>
             forall k | 0 <= k < |vtables[1..]| :: !Matches(data, vtables[1..][k], vt)
    requires Shared(data, vtables[1..], vt).Some? ==>
               exists k :: 0 <= k < |vtables[1..]| && Shared(data, vtables[1..], vt) == Some(vtables[1..][k]) &&
                           Matches(data, vtables[1..][k], vt) &&
                           forall j | 0 <= j < k :: !Matches(data, vtables[1..][j], vt)
    ensures Shared(data, vtables, vt) == None <==> forall k | 0 <= k < |vtables| :: !Matches(data, vtables[k], vt)
    ensures Shared(data, vtables, vt).Some? ==>
              exists k :: 0 <= k < |vtables| && Shared(data, vtables, vt) == Some(vtables[k]) &&
                          Matches(data, vtables[k], vt) && forall j | 0 <= j < k :: !Matches(data, vtables[j], vt)
  {
    hide Matches;
    var rest := vtables[1..];
    assert forall k | 0 < k < |vtables| :: vtables[k] == rest[k - 1];
    if Shared(data, rest, vt).Some? {
      var k :| 0 <= k < |rest| && Shared(data, rest, vt) == Some(rest[k]) && Matches(data, rest[k], vt) &&
               forall j | 0 <= j < k :: !Matches(data, rest[j], vt);
      assert vtables[k + 1] == rest[k];
      forall j | 0 <= j < k + 1
        ensures !Matches(data, vtables[j], vt)
      {
        if j > 0 {
          assert vtables[j] == rest[j - 1];
        }
      }
    } else {
      forall k | 0 <= k < |vtables|
        ensures !Matches(data, vtables[k], vt)
      {
        if k > 0 {
          assert vtables[k] == rest[k - 1];
        }
      }
    }
  }

  /** A vtable is shared exactly when a kept one has the same bytes, and then with the first of them. */
  lemma {:induction false} SharedExactly(data: seq<byte>, vtables: seq<nat>, vt: seq<byte>)
    ensures Shared(data, vtables, vt) == None <==> forall k | 0 <= k < |vtables| :: !Matches(data, vtables[k], vt)
    ensures Shared(data, vtables, vt).Some? ==>
              exists k :: 0 <= k < |vtables| && Shared(data, vtables, vt) == Some(vtables[k]) &&
                          Matches(data, vtables[k], vt) && forall j | 0 <= j < k :: !Matches(data, vtables[j], vt)
    decreases |vtables|
  {
    hide Matches;
    if vtables != [] {
      SharedExactly(data, vtables[1..], vt);
      if Matches(data, vtables[0], vt) {
        assert Shared(data, vtables, vt) == Some(vtables[0]);
      } else {
        SharedNext(data, vtables, vt);
      }
    }
  }

  /**
   Ending a table adds its link, and a vtable only when none of the same bytes is kept: then it stands in front and is
   kept from now on. The builder is ready for the next table.
   */
  lemma EndedExactly(p: Builder, start: nat)
    requires MayEnd(p, start)
    ensures var e, vt, a := EndedTable(p, start), NewVTable(p, start), Aligned(p, 4).data;
            var known := exists k :: 0 <= k < |p.vtables| && Matches(a, p.vtables[k], vt);
            && e.vtables == (if known then p.vtables else p.vtables + [|e.data|])
            && |e.data| == |a| + 4 + (if known then 0 else |vt|)
            && Idle(e) && e.minAlign == (if p.minAlign < 4 then 4 else p.minAlign)
  {
    hide NewVTable, Matches, LeS32;
    SharedExactly(Aligned(p, 4).data, p.vtables, NewVTable(p, start));
  }

  // ---------------------------------------------------------------------------------------
  // Where fields lie
  // ---------------------------------------------------------------------------------------

  lemma WellFormedLater(f: Field, size: nat, later: nat)
    requires WellFormed(f, size) && size <= later
    ensures WellFormed(f, later)
  {
  }

  lemma RecordAppended(b: Builder, f: Field)
    requires WellFormed(f, |b.data|)
    ensures var p := Placed(b, f);
            if Stores(f) then
              p.fields == b.fields + [FieldLoc(|p.data|, f.id)] && |b.data| + WidthOf(f) <= |p.data|
            else p.fields == b.fields
  {
    if Stores(f) {
      PlacedRoom(b, f);
    }
  }

  lemma {:induction false} RecordOf(b: Builder, fs: seq<Field>, i: nat) returns (k: nat)
    requires Idle(b) && AllWellFormed(fs, |b.data|) && i < |fs| && Stores(fs[i])
    ensures var p := AllPlaced(b, fs);
            k < |p.fields| && p.fields[k].id == fs[i].id && p.fields[k].off <= |p.data|
    decreases |fs|
  {
    hide Placed, Stores, WellFormed;
    var last := |fs| - 1;
    var before := AllPlaced(b, fs[..last]);
    WellFormedLater(fs[last], |b.data|, |before.data|);
    RecordAppended(before, fs[last]);
    if i == last {
      k := |before.fields|;
    } else {
      k := RecordOf(b, fs[..last], i);
    }
  }

  /** The records of a table in the order in which its fields were added: each field lies in front of those before. */
  lemma {:induction false} RecordsInOrder(b: Builder, fs: seq<Field>, i: nat, j: nat) returns (k: nat, l: nat)
    requires Idle(b) && AllWellFormed(fs, |b.data|) && Distinct(fs) && i < j < |fs| && Stores(fs[i]) && Stores(fs[j])
    ensures var p := AllPlaced(b, fs).fields;
            && k < |p| && l < |p| && p[k].id == fs[i].id && p[l].id == fs[j].id
            && p[k].off + WidthOf(fs[j]) <= p[l].off
    decreases |fs|
  {
    hide Placed, WidthOf, Stores, WellFormed;
    var last := |fs| - 1;
    var before := AllPlaced(b, fs[..last]);
    WellFormedLater(fs[last], |b.data|, |before.data|);
    RecordAppended(before, fs[last]);
    if j == last {
      k := RecordOf(b, fs[..last], i);
      l := |before.fields|;
    } else {
      k, l := RecordsInOrder(b, fs[..last], i, j);
    }
  }

  /** A record of a table is what its vtable says of the field. */
  lemma RecordRead(b: Builder, fs: seq<Field>, k: nat, later: seq<byte>)
    requires Idle(b) && AllWellFormed(fs, |b.data|) && Distinct(fs) && TableFits(b, fs) && k < |AllPlaced(b, fs).fields|
    requires Extends(TableOf(b, fs).data, later)
    ensures NewTable(b, fs) <= |later| && Readable(later, Place(later, NewTable(b, fs)))
    ensures var f := AllPlaced(b, fs).fields[k];
            IsFieldId(f.id) && FieldOffset(later, Place(later, NewTable(b, fs)), f.id) == NewTable(b, fs) - f.off
  {
    var p := AllPlaced(b, fs);
    AllPlacedIds(b, fs);
    hide AllPlaced, EndedTable, NewVTable, Entry, Readable, FieldOffset, Extends;
    EndedTableReads(p, |b.data|, p.fields[k].id);
    NewVTableEntry(p, |b.data|, p.fields[k].id);
    LaterReads(EndedTable(p, |b.data|).data, later, NewTable(b, fs), p.fields[k].id);
    ExtendsLonger(EndedTable(p, |b.data|).data, later);
  }

  /**
   In a finished table, in its buffer and every later one, no two fields overlap: a field that was added later lies
   in front of one that was added before.
   */
  lemma FieldsInOrder(b: Builder, fs: seq<Field>, i: nat, j: nat, later: seq<byte>)
    requires Idle(b) && AllWellFormed(fs, |b.data|) && Distinct(fs) && TableFits(b, fs)
    requires i < j < |fs| && Stores(fs[i]) && Stores(fs[j]) && Extends(TableOf(b, fs).data, later)
    ensures NewTable(b, fs) <= |later| && IsFieldId(fs[i].id) && IsFieldId(fs[j].id)
    ensures var pos := Place(later, NewTable(b, fs));
            && Readable(later, pos)
            && FieldOffset(later, pos, fs[j].id) + WidthOf(fs[j]) <= FieldOffset(later, pos, fs[i].id)
  {
    hide Readable, FieldOffset, Stores, WidthOf, Extends, WellFormed, AllPlaced, NewVTable, Entry, EndedTable;
    var k, l := RecordsInOrder(b, fs, i, j);
    RecordRead(b, fs, k, later);
    RecordRead(b, fs, l, later);
    assert IsFieldId(fs[i].id) && IsFieldId(fs[j].id);
  }
}
