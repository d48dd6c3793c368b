/** What the checks of the verifier come to: alignment, and that all there is to read lies in the buffer. */
module VerifierExact {
  import opened Words
  import opened Bytes
  import opened Tables
  import opened Wrappers
  import opened Verifier

  lemma InsideExactly(b: seq<byte>, elem: nat, len: nat)
    ensures Inside(b, elem, len) <==> Fits(b, elem, len) && len != |b|
  {
  }

  lemma SmallModulo(v: int)
    requires v < TWO_TO_THE_64 && v + TWO_TO_THE_64 >= 0
    ensures v % TWO_TO_THE_64 == if v < 0 then v + TWO_TO_THE_64 else v
  {
    if v < 0 {
      assert v % TWO_TO_THE_64 == (v + TWO_TO_THE_64) % TWO_TO_THE_64;
    }
  }

  /**
   A table passes exactly when it can be read, its link is a word and its vtable a half-word in place, and neither is
   the whole buffer. A vtable in front of the buffer never passes, although its place is computed without a sign.
   */
  lemma TableStartExactly(b: seq<byte>, pos: nat)
    requires |b| < MAX_BUFFER && pos < TWO_TO_THE_64 - MAX_BUFFER
    ensures TableStartOk(b, pos) <==>
            && pos % 4 == 0 && |b| > 4 && Readable(b, pos)
            && VTable(b, pos) % 2 == 0 && U16(b, VTable(b, pos)) < |b|
  {
    hide U16;
    if Fits(b, pos, 4) {
      SmallModulo(pos - S32(b, pos));
      hide S32;
    }
  }

  /** A field passes exactly when it is absent, or in place and within the buffer. */
  lemma FieldExactly(b: seq<byte>, pos: nat, id: nat, width: nat, align: nat)
    requires Readable(b, pos) && IsFieldId(id) && IsAlignment(align)
    ensures FieldOk(b, pos, id, width, align) <==>
            FieldFits(b, pos, id, width) &&
            (FieldOffset(b, pos, id) != 0 ==> (pos + FieldOffset(b, pos, id)) % align == 0)
  {
    hide Readable, FieldOffset;
  }

  /** A reference passes exactly when it is absent, or an aligned word that points forward to a byte of the buffer. */
  lemma ReferenceExactly(b: seq<byte>, pos: nat, id: nat)
    requires Readable(b, pos) && IsFieldId(id) && |b| > 1
    ensures ReferenceOk(b, pos, id) <==>
            && FieldFits(b, pos, id, 4)
            && (FieldOffset(b, pos, id) != 0 ==>
                  && (pos + FieldOffset(b, pos, id)) % 4 == 0
                  && var at := pos + FieldOffset(b, pos, id);
                     0 < U32(b, at) < TWO_TO_THE_31 && at + U32(b, at) < |b|)
  {
    hide Readable, FieldOffset, U32;
  }

  /**
   A vector passes exactly when its count is a word in place, all its elements lie in the buffer, and they are fewer
   than would fill the largest buffer. Only a vector that is the whole buffer is refused for nothing.
   */
  lemma VectorExactly(b: seq<byte>, vector: nat, elemSize: nat)
    requires elemSize > 0
    ensures VectorOk(b, vector, elemSize) <==>
            && vector % 4 == 0 && Fits(b, vector, 4) && |b| > 4
            && Fits(b, vector, 4 + elemSize * U32(b, vector)) && 4 + elemSize * U32(b, vector) != |b|
            && U32(b, vector) < MAX_BUFFER / elemSize
  {
    hide U32;
  }

  /** And a string, exactly when a zero stands behind its bytes as well. */
  lemma StringExactly(b: seq<byte>, text: nat)
    ensures StringOk(b, text) <==>
            && text % 4 == 0 && Fits(b, text, 4) && |b| > 4
            && Fits(b, text, 5 + U32(b, text)) && 4 + U32(b, text) != |b| && U32(b, text) < MAX_BUFFER
            && b[text + 4 + U32(b, text)] == 0
  {
    hide U32;
  }

  // ---------------------------------------------------------------------------------------
  // Whole messages, by their schemas
  // ---------------------------------------------------------------------------------------

  /** The table can be read and is in place, and neither it nor its vtable is the whole buffer. */
  predicate SoundTable(b: seq<byte>, pos: nat) {
    && pos % 4 == 0 && |b| > 4 && Readable(b, pos)
    && VTable(b, pos) % 2 == 0 && U16(b, VTable(b, pos)) < |b|
  }

  /** A field of a schema is absent, or in place and within the buffer. */
  predicate SoundField(b: seq<byte>, pos: nat, id: nat, width: nat, align: nat)
    requires Readable(b, pos) && IsFieldId(id) && IsAlignment(align)
  {
    FieldFits(b, pos, id, width) && (FieldOffset(b, pos, id) != 0 ==> (pos + FieldOffset(b, pos, id)) % align == 0)
  }

  /** A reference is absent, or an aligned word that points forward to a byte of the buffer. */
  predicate SoundReference(b: seq<byte>, pos: nat, id: nat)
    requires Readable(b, pos) && IsFieldId(id)
  {
    && SoundField(b, pos, id, 4, 4)
    && (FieldOffset(b, pos, id) != 0 ==>
          var at := pos + FieldOffset(b, pos, id);
          0 < U32(b, at) < TWO_TO_THE_31 && at + U32(b, at) < |b|)
  }

  /** The count of a vector and all its elements lie in place in the buffer. */
  predicate SoundVector(b: seq<byte>, vector: nat, elemSize: nat)
    requires elemSize > 0
  {
    && vector % 4 == 0 && Fits(b, vector, 4) && |b| > 4
    && Fits(b, vector, 4 + elemSize * U32(b, vector)) && 4 + elemSize * U32(b, vector) != |b|
    && U32(b, vector) < MAX_BUFFER / elemSize
  }

  predicate SoundHeader(b: seq<byte>, pos: nat) {
    && SoundTable(b, pos)
    && SoundField(b, pos, 4, 8, 8) && SoundReference(b, pos, 6) && SoundField(b, pos, 8, 8, 8)
    && (GetPointer(b, pos, 6).Some? ==>
          var name := GetPointer(b, pos, 6).value;
          && SoundVector(b, name, 1) && Fits(b, name, 5 + U32(b, name)) && b[name + 4 + U32(b, name)] == 0)
  }

  predicate SoundImu(b: seq<byte>, pos: nat) {
    && SoundTable(b, pos)
    && SoundField(b, pos, 4, 8, 8) && SoundField(b, pos, 6, 8, 8) && SoundField(b, pos, 8, 8, 8)
    && SoundField(b, pos, 10, 8, 8) && SoundField(b, pos, 12, 1, 1) && SoundField(b, pos, 14, 52, 4)
    && SoundField(b, pos, 16, 1, 1)
  }

  predicate SoundState(b: seq<byte>, pos: nat) {
    && SoundTable(b, pos)
    && SoundReference(b, pos, 4)
    && (GetPointer(b, pos, 4).Some? ==> SoundHeader(b, GetPointer(b, pos, 4).value))
    && SoundField(b, pos, 6, 4, 4) && SoundField(b, pos, 8, 4, 4) && SoundField(b, pos, 10, 8, 8)
    && SoundField(b, pos, 12, 8, 8) && SoundField(b, pos, 14, 8, 8) && SoundField(b, pos, 16, 8, 8)
    && SoundField(b, pos, 18, 1, 1)
    && SoundReference(b, pos, 20)
    && (GetPointer(b, pos, 20).Some? ==>
          var imus := GetPointer(b, pos, 20).value;
          && SoundVector(b, imus, 4)
          && forall i | 0 <= i < U32(b, imus) ::
               Fits(b, imus + 4 + 4 * i, 4) && SoundImu(b, imus + 4 + 4 * i + U32(b, imus + 4 + 4 * i)))
    && SoundReference(b, pos, 22)
    && (GetPointer(b, pos, 22).Some? ==> SoundVector(b, GetPointer(b, pos, 22).value, 40))
    && SoundField(b, pos, 24, 8, 8) && SoundField(b, pos, 26, 8, 8) && SoundField(b, pos, 28, 8, 8)
  }

  predicate SoundCommand(b: seq<byte>, pos: nat) {
    && SoundTable(b, pos)
    && SoundReference(b, pos, 4)
    && (GetPointer(b, pos, 4).Some? ==> SoundHeader(b, GetPointer(b, pos, 4).value))
    && SoundField(b, pos, 6, 4, 4) && SoundField(b, pos, 8, 8, 8) && SoundField(b, pos, 10, 8, 8)
    && SoundField(b, pos, 12, 8, 8) && SoundField(b, pos, 14, 8, 8) && SoundField(b, pos, 16, 8, 8)
    && SoundField(b, pos, 18, 8, 8)
    && SoundReference(b, pos, 20)
    && (GetPointer(b, pos, 20).Some? ==> SoundVector(b, GetPointer(b, pos, 20).value, 20))
    && SoundField(b, pos, 22, 1, 1) && SoundField(b, pos, 24, 16, 4)
  }

  lemma FieldSound(b: seq<byte>, pos: nat, id: nat, width: nat, align: nat)
    requires Readable(b, pos) && IsFieldId(id) && IsAlignment(align)
    ensures FieldOk(b, pos, id, width, align) <==> SoundField(b, pos, id, width, align)
  {
    hide Readable, FieldOffset, FieldOk;
    FieldExactly(b, pos, id, width, align);
  }

  lemma ReferenceSound(b: seq<byte>, pos: nat, id: nat)
    requires Readable(b, pos) && IsFieldId(id) && |b| > 4
    ensures ReferenceOk(b, pos, id) <==> SoundReference(b, pos, id)
  {
    hide Readable, FieldOffset, ReferenceOk, U32;
    ReferenceExactly(b, pos, id);
  }

  /** The checks on fields and references, at any slot. */
  lemma FieldsExactly(b: seq<byte>, pos: nat)
    requires Readable(b, pos) && |b| > 4
    ensures forall id: nat, width: nat, align: nat | IsFieldId(id) && IsAlignment(align) ::
              FieldOk(b, pos, id, width, align) <==> SoundField(b, pos, id, width, align)
    ensures forall id: nat | IsFieldId(id) :: ReferenceOk(b, pos, id) <==> SoundReference(b, pos, id)
  {
    hide Readable, FieldOffset, FieldOk, ReferenceOk, SoundField, SoundReference;
    forall id: nat, width: nat, align: nat | IsFieldId(id) && IsAlignment(align)
      ensures FieldOk(b, pos, id, width, align) <==> SoundField(b, pos, id, width, align)
    {
      FieldSound(b, pos, id, width, align);
    }
    forall id: nat | IsFieldId(id)
      ensures ReferenceOk(b, pos, id) <==> SoundReference(b, pos, id)
    {
      ReferenceSound(b, pos, id);
    }
  }

  lemma VectorSound(b: seq<byte>, vector: nat, elemSize: nat)
    requires elemSize > 0
    ensures VectorOk(b, vector, elemSize) <==> SoundVector(b, vector, elemSize)
  {
    hide VectorOk, U32;
    VectorExactly(b, vector, elemSize);
  }

  lemma NameSound(b: seq<byte>, name: nat)
    ensures StringOk(b, name) <==>
            SoundVector(b, name, 1) && Fits(b, name, 5 + U32(b, name)) && b[name + 4 + U32(b, name)] == 0
  {
    hide StringOk, U32;
    StringExactly(b, name);
  }

  lemma HeaderExactly(b: seq<byte>, pos: nat)
    requires |b| < MAX_BUFFER && pos < MAX_BUFFER
    ensures HeaderOk(b, pos) <==> SoundHeader(b, pos)
  {
    hide Readable, U32, U16, VTable, ReferenceOk, FieldOk, StringOk, SoundField, TableStartOk, SoundReference,
         SoundVector, FieldOffset;
    TableStartExactly(b, pos);
    if TableStartOk(b, pos) {
      FieldsExactly(b, pos);
      if ReferenceOk(b, pos, 6) && Target(b, pos, 6).Some? {
        NameSound(b, Target(b, pos, 6).value);
      }
    }
  }

  lemma ImuExactly(b: seq<byte>, pos: nat)
    requires |b| < MAX_BUFFER && pos < TWO_TO_THE_64 - MAX_BUFFER
    ensures ImuOk(b, pos) <==> SoundImu(b, pos)
  {
    hide Readable, U16, VTable, FieldOk, SoundField, TableStartOk, FieldOffset;
    TableStartExactly(b, pos);
    if TableStartOk(b, pos) {
      FieldsExactly(b, pos);
    }
  }

  /** The place a sound reference points to lies in the buffer. */
  lemma TargetInside(b: seq<byte>, pos: nat, id: nat)
    requires Readable(b, pos) && IsFieldId(id) && SoundReference(b, pos, id)
    ensures GetPointer(b, pos, id).Some? ==> 0 <= GetPointer(b, pos, id).value < |b|
  {
    hide Readable, FieldOffset, U32;
  }

  lemma ImusExactly(b: seq<byte>, imus: nat)
    requires |b| < MAX_BUFFER && VectorOk(b, imus, 4)
    ensures ImusOk(b, imus) <==>
            forall i | 0 <= i < U32(b, imus) ::
              Fits(b, imus + 4 + 4 * i, 4) && SoundImu(b, imus + 4 + 4 * i + U32(b, imus + 4 + 4 * i))
  {
    hide U32, ImuOk, SoundImu;
    forall i | 0 <= i < U32(b, imus)
      ensures Fits(b, imus + 4 + 4 * i, 4)
      ensures ImuOk(b, Element(b, imus, i)) <==> SoundImu(b, imus + 4 + 4 * i + U32(b, imus + 4 + 4 * i))
    {
      ImuExactly(b, Element(b, imus, i));
    }
  }

  /** A state passes exactly when its tables, strings and vectors are sound, field by field of their schemas. */
  lemma StateExactly(b: seq<byte>, pos: nat)
    requires |b| < MAX_BUFFER && pos < MAX_BUFFER
    ensures StateOk(b, pos) <==> SoundState(b, pos)
  {
    hide Readable, U32, U16, VTable, ReferenceOk, FieldOk, SoundField, TableStartOk, SoundReference, SoundVector,
         VectorOk, ImusOk, HeaderOk, SoundHeader, SoundImu, FieldOffset, GetPointer;
    TableStartExactly(b, pos);
    if TableStartOk(b, pos) {
      FieldsExactly(b, pos);
      if ReferenceOk(b, pos, 4) && Target(b, pos, 4).Some? {
        TargetInside(b, pos, 4);
        HeaderExactly(b, Target(b, pos, 4).value);
      }
      if ReferenceOk(b, pos, 20) && Target(b, pos, 20).Some? {
        VectorSound(b, Target(b, pos, 20).value, 4);
        if VectorOk(b, Target(b, pos, 20).value, 4) {
          ImusExactly(b, Target(b, pos, 20).value);
        }
      }
      if ReferenceOk(b, pos, 22) && Target(b, pos, 22).Some? {
        VectorSound(b, Target(b, pos, 22).value, 40);
      }
    }
  }

  /** A command passes exactly when its tables, string and vector are sound, field by field of their schemas. */
  lemma CommandExactly(b: seq<byte>, pos: nat)
    requires |b| < MAX_BUFFER && pos < MAX_BUFFER
    ensures CommandOk(b, pos) <==> SoundCommand(b, pos)
  {
    hide Readable, U32, U16, VTable, ReferenceOk, FieldOk, SoundField, TableStartOk, SoundReference, SoundVector,
         VectorOk, HeaderOk, SoundHeader, FieldOffset, GetPointer;
    TableStartExactly(b, pos);
    if TableStartOk(b, pos) {
      FieldsExactly(b, pos);
      if ReferenceOk(b, pos, 4) && Target(b, pos, 4).Some? {
        TargetInside(b, pos, 4);
        HeaderExactly(b, Target(b, pos, 4).value);
      }
      if ReferenceOk(b, pos, 20) && Target(b, pos, 20).Some? {
        VectorSound(b, Target(b, pos, 20).value, 20);
      }
    }
  }

  /** A buffer passes as a command exactly when it has eight bytes and begins with the place of a sound command. */
  lemma CommandBufferExactly(b: seq<byte>)
    requires |b| < MAX_BUFFER
    ensures CommandBufferOk(b) <==>
            |b| >= 8 && 0 < U32(b, 0) < |b| && U32(b, 0) < TWO_TO_THE_31 && SoundCommand(b, U32(b, 0))
  {
    hide U32, SoundCommand, CommandOk;
    if |b| >= 8 && U32(b, 0) < MAX_BUFFER {
      CommandExactly(b, U32(b, 0));
    }
  }

  /** The tables of a state are itself, its header if it has one, and its IMU samples. */
  lemma TablesCounted(b: seq<byte>, pos: nat)
    requires |b| < MAX_BUFFER && StateOk(b, pos)
    ensures FieldFits(b, pos, 4, 4) && FieldFits(b, pos, 20, 4)
    ensures var headers := if FieldOffset(b, pos, 4) == 0 then 0 else 1;
            var imus := GetPointer(b, pos, 20);
            TableCount(b, pos) == 1 + headers + (if imus == None then 0 else U32(b, imus.value))
  {
    hide TableStartOk, HeaderOk, NumbersOk, JointsFieldOk, LastNumbersOk, ImusOk, U32, FieldOffset, Readable;
  }
}
