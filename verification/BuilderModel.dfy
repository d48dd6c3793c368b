/**
 The FlatBuffers builder as values: what each of its operations does to the bytes built so far, to the
 fields of the table being built, and to the vtables kept for sharing. Every offset counts from the end
 of the buffer, so it stays good while bytes are put in front.
 */
module BuilderModel {
  import opened Bytes
  import opened Tables
  import opened Wrappers

  datatype FieldLoc = FieldLoc(off: nat, id: nat)

  datatype Builder = Builder(data: seq<byte>, vtables: seq<nat>, fields: seq<FieldLoc>,
                             maxVOffset: nat, minAlign: nat)

  const EMPTY := Builder([], [], [], 0, 1)

  function Aligned(b: Builder, align: nat): Builder
    requires IsAlignment(align)
  {
    b.(data := Zeros(Padding(|b.data|, align)) + b.data, minAlign := Max(b.minAlign, align))
  }

  /** Padding such that `len` more bytes end at a multiple of `align`. */
  function PreAligned(b: Builder, len: nat, align: nat): Builder
    requires IsAlignment(align)
  {
    if len == 0 then b
    else b.(data := Zeros(Padding(|b.data| + len, align)) + b.data, minAlign := Max(b.minAlign, align))
  }

  /** An aligned scalar in front. Its offset is the new size. */
  function Pushed(b: Builder, scalar: seq<byte>): Builder
    requires IsAlignment(|scalar|)
  {
    var a := Aligned(b, |scalar|);
    a.(data := scalar + a.data)
  }

  function Tracked(b: Builder, id: nat): Builder {
    b.(fields := b.fields + [FieldLoc(|b.data|, id)], maxVOffset := Max(b.maxVOffset, id))
  }

  /** The distance to `target` of a word about to be pushed. */
  function Distance(b: Builder, target: nat): (d: nat)
    requires target <= |Aligned(b, 4).data|
    ensures d >= 4
  {
    |Aligned(b, 4).data| - target + 4
  }

  // ---------------------------------------------------------------------------------------
  // Tables
  // ---------------------------------------------------------------------------------------

  function VTableBase(size: nat, objectSize: nat): (vt: seq<byte>)
    requires size >= 4
    ensures |vt| == size
  {
    Le(size, 2) + Le(objectSize, 2) + Zeros(size - 4)
  }

  predicate FieldsFit(fields: seq<FieldLoc>, size: nat, loc: nat) {
    forall k | 0 <= k < |fields| :: IsFieldId(fields[k].id) && fields[k].id + 2 <= size && fields[k].off <= loc
  }

  /** The vtable with the offsets of the fields written into it, one after another. */
  function Filled(vt: seq<byte>, fields: seq<FieldLoc>, loc: nat): (r: seq<byte>)
    requires FieldsFit(fields, |vt|, loc)
    ensures |r| == |vt|
    decreases |fields|
  {
    if fields == [] then vt
    else
      var last := fields[|fields| - 1];
      Splice(Filled(vt, fields[..|fields| - 1], loc), last.id, Le(loc - last.off, 2))
  }

  /** Does the vtable at `offset` have the very bytes of `vt`? */
  predicate Matches(data: seq<byte>, offset: nat, vt: seq<byte>) {
    offset <= |data| && |vt| <= offset && Slice(data, |data| - offset, |vt|) == vt
  }

  /** The first kept vtable that can stand for `vt`. */
  function Shared(data: seq<byte>, vtables: seq<nat>, vt: seq<byte>): (r: Option<nat>)
    ensures r.Some? ==> r.value in vtables && Matches(data, r.value, vt)
    decreases |vtables|
  {
    if vtables == [] then None
    else if Matches(data, vtables[0], vt) then Some(vtables[0])
    else Shared(data, vtables[1..], vt)
  }

  function VTableSize(b: Builder): nat {
    Max(b.maxVOffset + 2, 4)
  }

  /** Where the table will begin: the offset of its link to the vtable. */
  function TableOffset(b: Builder): nat {
    |Aligned(b, 4).data| + 4
  }

  predicate MayEnd(b: Builder, start: nat) {
    && start <= |b.data|
    && FieldsFit(b.fields, VTableSize(b), TableOffset(b))
  }

  function NewVTable(b: Builder, start: nat): (vt: seq<byte>)
    requires MayEnd(b, start)
  {
    Filled(VTableBase(VTableSize(b), TableOffset(b) - start), b.fields, TableOffset(b))
  }

  /** The table is closed with a vtable of its own, or with a kept one of the same bytes. */
  function EndedTable(b: Builder, start: nat): Builder
    requires MayEnd(b, start)
  {
    var a := Aligned(b, 4);
    var loc := TableOffset(b);
    var vt := NewVTable(b, start);
    match Shared(a.data, b.vtables, vt)
    case Some(use) =>
      Builder(LeS32(use - loc) + a.data, b.vtables, [], 0, a.minAlign)
    case None =>
      Builder(vt + LeS32(|vt|) + a.data, b.vtables + [loc + |vt|], [], 0, a.minAlign)
  }

  /** One field of a table, as it is added. A reference names the offset of what it points to. */
  datatype Field =
    | Scalar(id: nat, value: seq<byte>, fallback: seq<byte>, forced: bool)
    | Struct(id: nat, content: Option<seq<byte>>, align: nat)
    | Reference(id: nat, target: nat)

  /** A scalar equal to its fallback, an absent struct and a null reference take no room. */
  predicate Stores(f: Field) {
    match f
    case Scalar(_, value, fallback, forced) => forced || value != fallback
    case Struct(_, content, _) => content.Some?
    case Reference(_, target) => target != 0
  }

  predicate WellFormed(f: Field, size: nat) {
    && IsFieldId(f.id)
    && match f
       case Scalar(_, value, fallback, _) => IsAlignment(|value|) && |fallback| == |value|
       case Struct(_, content, align) => IsAlignment(align) && (content.Some? ==> |content.value| % align == 0)
       case Reference(_, target) => target <= size
  }

  predicate AllWellFormed(fs: seq<Field>, size: nat) {
    forall i | 0 <= i < |fs| :: WellFormed(fs[i], size)
  }

  function Placed(b: Builder, f: Field): Builder
    requires WellFormed(f, |b.data|)
  {
    if !Stores(f) then b
    else match f
      case Scalar(id, value, _, _) => Tracked(Pushed(b, value), id)
      case Struct(id, content, align) =>
        var a := Aligned(b, align);
        Tracked(a.(data := content.value + a.data), id)
      case Reference(id, target) => Tracked(Pushed(Aligned(b, 4), Le(Distance(b, target), 4)), id)
  }

  /** No table is being built. */
  predicate Idle(b: Builder) {
    b.fields == [] && b.maxVOffset == 0
  }

  /** What holds of the fields of a table begun at offset `start`. */
  ghost predicate Laid(b: Builder, start: nat) {
    && start <= |b.data|
    && b.maxVOffset < 0xFFFE && b.maxVOffset % 2 == 0
    && forall k | 0 <= k < |b.fields| ::
         IsFieldId(b.fields[k].id) && b.fields[k].id <= b.maxVOffset && start <= b.fields[k].off <= |b.data|
  }

  function AllPlaced(b: Builder, fs: seq<Field>): (r: Builder)
    requires Idle(b) && AllWellFormed(fs, |b.data|)
    ensures Laid(r, |b.data|) && r.vtables == b.vtables
    decreases |fs|
  {
    if fs == [] then b
    else Placed(AllPlaced(b, fs[..|fs| - 1]), fs[|fs| - 1])
  }

  /** A whole table: begun, filled, ended. */
  function TableOf(b: Builder, fs: seq<Field>): Builder
    requires Idle(b) && AllWellFormed(fs, |b.data|)
  {
    EndedTable(AllPlaced(b, fs), |b.data|)
  }

  // ---------------------------------------------------------------------------------------
  // Vectors, strings, and the root
  // ---------------------------------------------------------------------------------------

  function CreatedVector(b: Builder, payload: seq<byte>, count: nat, align: nat): Builder
    requires IsAlignment(align)
  {
    var p := PreAligned(PreAligned(b, |payload|, 4), |payload|, align);
    Pushed(p.(data := payload + p.data), Le(count, 4))
  }

  function CreatedString(b: Builder, text: seq<byte>): Builder {
    var p := PreAligned(b, |text| + 1, 4);
    Pushed(p.(data := text + (Zeros(1) + p.data)), Le(|text|, 4))
  }

  function Finished(b: Builder, root: nat): Builder
    requires IsAlignment(b.minAlign)
    requires root <= |Aligned(PreAligned(b, 4, b.minAlign), 4).data|
  {
    var p := PreAligned(b.(vtables := []), 4, b.minAlign);
    Pushed(Aligned(p, 4), Le(Distance(p, root), 4))
  }
}
