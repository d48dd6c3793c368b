/** The bulk reader of a fixed-stride vector: it checks every bound itself before it reads. */
module BulkReader {
  import opened BodyShape
  import opened Bytes
  import opened Tables
  import opened Wrappers

  datatype ReadError = OutsideBuffer | InvalidVTable | FieldOutsideTable | InvalidOffset | WrongCount | Misaligned

  /** The bytes of the vector that a field points to, or nothing when the field is absent. */
  function VectorFieldData(b: seq<byte>, pos: int, slot: nat, stride: nat, alignment: nat)
    : (r: Result<Option<seq<byte>>, ReadError>)
    requires IsFieldId(slot) && IsAlignment(alignment)
  {
    if !Fits(b, pos, 4) then Err(OutsideBuffer)
    else
      var vtable := pos - S32(b, pos);
      if !Fits(b, vtable, 4) then Err(OutsideBuffer)
      else
        var length, objectSize := U16(b, vtable), U16(b, vtable + 2);
        if length < 4 || length % 2 != 0 || objectSize < 4 then Err(InvalidVTable)
        else if !Fits(b, vtable, length) || !Fits(b, pos, objectSize) then Err(OutsideBuffer)
        else
          var offset := if slot < length then U16(b, vtable + slot) else 0;
          if offset == 0 then Ok(None)
          else if offset < 4 || offset + 4 > objectSize || (pos + offset) % 4 != 0 then Err(FieldOutsideTable)
          else
            var relative := U32(b, pos + offset);
            if relative < 4 then Err(InvalidOffset)
            else
              var vector := pos + offset + relative;
              if !Fits(b, vector, 4) then Err(OutsideBuffer)
              else if U32(b, vector) != SLOTS then Err(WrongCount)
              else if (vector + 4) % alignment != 0 then Err(Misaligned)
              else if !Fits(b, vector + 4, SLOTS * stride) then Err(OutsideBuffer)
              else Ok(Some(Slice(b, vector + 4, SLOTS * stride)))
  }

  /** A vector of `SLOTS` elements of `stride` bytes stands at `vector`, its elements aligned. */
  predicate VectorStandsAt(b: seq<byte>, vector: int, stride: nat, alignment: nat)
    requires IsAlignment(alignment)
  {
    Fits(b, vector, 4 + SLOTS * stride) && U32(b, vector) == SLOTS && (vector + 4) % alignment == 0
  }

  /** The table and its vtable are sound: both lie in the buffer, and the table has room for its link. */
  predicate SoundTable(b: seq<byte>, pos: int) {
    && Readable(b, pos) && Fits(b, VTable(b, pos), 4) && 4 <= U16(b, VTable(b, pos))
    && var size := U16(b, VTable(b, pos) + 2);
       4 <= size && Fits(b, pos, size)
  }

  /** The field is an aligned word inside the table that points forward, to a vector of the right length. */
  predicate WellPlaced(b: seq<byte>, pos: int, slot: nat, stride: nat, alignment: nat)
    requires IsFieldId(slot) && IsAlignment(alignment) && SoundTable(b, pos)
  {
    var offset := FieldOffset(b, pos, slot);
    && 4 <= offset && offset + 4 <= U16(b, VTable(b, pos) + 2) && (pos + offset) % 4 == 0
    && U32(b, pos + offset) >= 4
    && VectorStandsAt(b, GetPointer(b, pos, slot).value, stride, alignment)
  }

  /**
   The bulk reader succeeds on exactly the sound tables whose field is absent or well placed, and then it
   reads what the per-field accessors read: nothing, or the elements behind the pointer.
   */
  lemma BulkReadsExactly(b: seq<byte>, pos: int, slot: nat, stride: nat, alignment: nat)
    requires IsFieldId(slot) && IsAlignment(alignment)
    ensures VectorFieldData(b, pos, slot, stride, alignment).Ok? <==>
            SoundTable(b, pos) && (FieldOffset(b, pos, slot) == 0 || WellPlaced(b, pos, slot, stride, alignment))
    ensures VectorFieldData(b, pos, slot, stride, alignment).Ok? ==>
              && FieldFits(b, pos, slot, 4)
              && VectorFieldData(b, pos, slot, stride, alignment).value ==
                 match GetPointer(b, pos, slot)
                 case None => None
                 case Some(vector) => Some(Slice(b, vector + 4, SLOTS * stride))
  {
    hide U16, U32, S32, Slice;
  }

  /** Why a message is refused, by the first reason that holds, on the way from the table to the elements. */
  lemma BulkRefusals(b: seq<byte>, pos: int, slot: nat, stride: nat, alignment: nat)
    requires IsFieldId(slot) && IsAlignment(alignment)
    ensures var r := VectorFieldData(b, pos, slot, stride, alignment);
            var headed := Fits(b, pos, 4) && Fits(b, pos - S32(b, pos), 4);
            && (!headed ==> r == Err(OutsideBuffer))
            && (headed ==>
                  var vtable := pos - S32(b, pos);
                  var length, size := U16(b, vtable), U16(b, vtable + 2);
                  var sized := 4 <= length && length % 2 == 0 && 4 <= size;
                  && (!sized <==> r == Err(InvalidVTable))
                  && (sized && !(Fits(b, vtable, length) && Fits(b, pos, size)) ==> r == Err(OutsideBuffer))
                  && (sized && Fits(b, vtable, length) && Fits(b, pos, size) && FieldOffset(b, pos, slot) != 0 ==>
                        var at := pos + FieldOffset(b, pos, slot);
                        var placed := 4 <= FieldOffset(b, pos, slot) && at + 4 <= pos + size && at % 4 == 0;
                        && (r == Err(FieldOutsideTable) <==> !placed)
                        && (placed ==>
                              var vector := at + U32(b, at);
                              && (r == Err(InvalidOffset) <==> U32(b, at) < 4)
                              && (U32(b, at) >= 4 && !Fits(b, vector, 4) ==> r == Err(OutsideBuffer))
                              && (U32(b, at) >= 4 && Fits(b, vector, 4) ==>
                                    var full, aligned := U32(b, vector) == 31, (vector + 4) % alignment == 0;
                                    && (r == Err(WrongCount) <==> !full)
                                    && (r == Err(Misaligned) <==> full && !aligned)
                                    && (r == Err(OutsideBuffer) <==>
                                          full && aligned && !Fits(b, vector + 4, 31 * stride))))))
  {
    hide U16, U32, S32, Slice;
  }
}
