/**
 Reading a FlatBuffers table. A table begins with the signed distance back to its vtable; the vtable holds
 its own size, the size of the table, and for each field its offset in the table, or zero.

 The readers are raw: each demands that every byte it touches lies in the buffer.
 */
module Tables {
  import opened Bytes
  import opened Wrappers

  function VTable(b: seq<byte>, pos: int): int
    requires Fits(b, pos, 4)
  {
    pos - S32(b, pos)
  }

  /** The table's link and the whole of its vtable lie in the buffer. */
  predicate Readable(b: seq<byte>, pos: int) {
    && Fits(b, pos, 4)
    && Fits(b, VTable(b, pos), 2)
    && U16(b, VTable(b, pos)) % 2 == 0
    && Fits(b, VTable(b, pos), U16(b, VTable(b, pos)))
  }

  predicate IsFieldId(id: int) {
    4 <= id < 0xFFFE && id % 2 == 0
  }

  /** The offset of a field in its table, or zero for a field that is not there. */
  function FieldOffset(b: seq<byte>, pos: int, id: nat): (r: nat)
    requires Readable(b, pos) && IsFieldId(id)
    ensures r < TWO_TO_THE_16
  {
    var vtable := VTable(b, pos);
    if id < U16(b, vtable) then U16(b, vtable + id) else 0
  }

  /** A field that is there lies in the buffer. */
  predicate FieldFits(b: seq<byte>, pos: int, id: nat, width: nat)
    requires Readable(b, pos) && IsFieldId(id)
  {
    FieldOffset(b, pos, id) == 0 || Fits(b, pos + FieldOffset(b, pos, id), width)
  }

  function GetField(b: seq<byte>, pos: int, id: nat, fallback: seq<byte>): (r: seq<byte>)
    requires Readable(b, pos) && IsFieldId(id) && FieldFits(b, pos, id, |fallback|)
  {
    var offset := FieldOffset(b, pos, id);
    if offset == 0 then fallback else Slice(b, pos + offset, |fallback|)
  }

  /** The bytes of a struct stored in the table. */
  function GetStruct(b: seq<byte>, pos: int, id: nat, width: nat): (r: Option<seq<byte>>)
    requires Readable(b, pos) && IsFieldId(id) && FieldFits(b, pos, id, width)
  {
    var offset := FieldOffset(b, pos, id);
    if offset == 0 then None else Some(Slice(b, pos + offset, width))
  }

  /** The place a field points to. */
  function GetPointer(b: seq<byte>, pos: int, id: nat): (r: Option<int>)
    requires Readable(b, pos) && IsFieldId(id) && FieldFits(b, pos, id, 4)
  {
    var offset := FieldOffset(b, pos, id);
    if offset == 0 then None else Some(pos + offset + U32(b, pos + offset))
  }

  lemma PrependKeepsWords(front: seq<byte>, b: seq<byte>, i: int)
    ensures Fits(b, i, 2) ==> U16(front + b, |front| + i) == U16(b, i)
    ensures Fits(b, i, 4) ==> S32(front + b, |front| + i) == S32(b, i) && U32(front + b, |front| + i) == U32(b, i)
  {
    if Fits(b, i, 2) { PrependKeepsSlice(front, b, i, 2); }
    if Fits(b, i, 4) { PrependKeepsSlice(front, b, i, 4); }
  }

  /** A table reads the same whatever is put in front of it. */
  lemma PrependKeepsTable(front: seq<byte>, b: seq<byte>, pos: int, id: nat)
    requires Readable(b, pos) && IsFieldId(id)
    ensures Readable(front + b, |front| + pos)
    ensures FieldOffset(front + b, |front| + pos, id) == FieldOffset(b, pos, id)
  {
    hide U16, S32, U32;
    PrependKeepsWords(front, b, pos);
    PrependKeepsWords(front, b, VTable(b, pos));
    PrependKeepsWords(front, b, VTable(b, pos) + id);
  }
}
