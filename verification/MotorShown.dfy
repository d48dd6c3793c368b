/** What the motors of a message are, said with the accessors of any table instead of the decoder's own. */
module MotorShown {
  import opened Bytes
  import opened Tables
  import opened Wrappers
  import opened MotorCodec

  /** The scalar of a field, as it stands in the table, or the default when the field is absent. */
  ghost predicate ShowsScalar(b: seq<byte>, pos: int, id: nat, width: nat, r: Reading) {
    && Readable(b, pos) && IsFieldId(id) && FieldFits(b, pos, id, width)
    && (if FieldOffset(b, pos, id) == 0 then r == Zero else r == Scalar(Slice(b, pos + FieldOffset(b, pos, id), width)))
  }

  /** The four fields that are read of a motor, by the slots of the schema. */
  ghost predicate ShowsMotor(b: seq<byte>, pos: int, m: Motor) {
    && ShowsScalar(b, pos, 12, 4, m.q) && ShowsScalar(b, pos, 14, 4, m.dq)
    && ShowsScalar(b, pos, 18, 4, m.tauEst) && ShowsScalar(b, pos, 26, 1, m.temperature)
  }

  /** A field that is there lies behind the link of its table and within its size. */
  predicate WithinTable(b: seq<byte>, pos: int, id: nat, width: nat, size: nat)
    requires Readable(b, pos) && IsFieldId(id)
  {
    var offset := FieldOffset(b, pos, id);
    offset != 0 ==> 4 <= offset && offset + width <= size
  }

  predicate NoOverlap(b: seq<byte>, pos: int, id: nat, width: nat, other: nat, otherWidth: nat)
    requires Readable(b, pos) && IsFieldId(id) && IsFieldId(other)
  {
    var x, y := FieldOffset(b, pos, id), FieldOffset(b, pos, other);
    x != 0 && y != 0 ==> x + width <= y || y + otherWidth <= x
  }

  /** A table that is read as a motor: it lies in the buffer with its vtable, and its fields lie apart within it. */
  ghost predicate SoundMotor(b: seq<byte>, pos: int) {
    && Readable(b, pos) && Fits(b, VTable(b, pos), 4) && 4 <= U16(b, VTable(b, pos))
    && var size := U16(b, VTable(b, pos) + 2);
       && 4 <= size && Fits(b, pos, size)
       && WithinTable(b, pos, 12, 4, size) && WithinTable(b, pos, 14, 4, size) && WithinTable(b, pos, 18, 4, size)
       && WithinTable(b, pos, 26, 1, size)
       && NoOverlap(b, pos, 12, 4, 14, 4) && NoOverlap(b, pos, 12, 4, 18, 4) && NoOverlap(b, pos, 12, 4, 26, 1)
       && NoOverlap(b, pos, 14, 4, 18, 4) && NoOverlap(b, pos, 14, 4, 26, 1) && NoOverlap(b, pos, 18, 4, 26, 1)
  }

  lemma OffsetsAgree(b: seq<byte>, pos: int, i: nat)
    requires Fits(b, pos, 4) && SoundVTable(b, pos - S32(b, pos)) && i < |FIELDS|
    ensures Readable(b, pos) && IsFieldId(FIELDS[i].id)
    ensures OffsetOf(b, pos - S32(b, pos), i) == FieldOffset(b, pos, FIELDS[i].id)
  {
    hide U16, S32;
  }

  lemma RangesAgree(b: seq<byte>, pos: int)
    requires Fits(b, pos, 4) && SoundVTable(b, pos - S32(b, pos)) && Readable(b, pos)
    ensures var size := ObjectSize(b, pos - S32(b, pos));
            AllInRange(b, pos - S32(b, pos)) <==>
            WithinTable(b, pos, 12, 4, size) && WithinTable(b, pos, 14, 4, size) && WithinTable(b, pos, 18, 4, size) &&
            WithinTable(b, pos, 26, 1, size)
  {
    hide U16, S32, FieldOffset, OffsetOf, SoundVTable, ObjectSize;
    var vtable := pos - S32(b, pos);
    OffsetsAgree(b, pos, 0);
    OffsetsAgree(b, pos, 1);
    OffsetsAgree(b, pos, 2);
    OffsetsAgree(b, pos, 3);
    assert AllInRange(b, vtable) <==>
           InRange(b, vtable, 0) && InRange(b, vtable, 1) && InRange(b, vtable, 2) && InRange(b, vtable, 3);
  }

  lemma ApartAgrees(b: seq<byte>, pos: int)
    requires Fits(b, pos, 4) && SoundVTable(b, pos - S32(b, pos)) && Readable(b, pos)
    ensures AllApart(b, pos - S32(b, pos)) <==>
            NoOverlap(b, pos, 12, 4, 14, 4) && NoOverlap(b, pos, 12, 4, 18, 4) && NoOverlap(b, pos, 12, 4, 26, 1) &&
            NoOverlap(b, pos, 14, 4, 18, 4) && NoOverlap(b, pos, 14, 4, 26, 1) && NoOverlap(b, pos, 18, 4, 26, 1)
  {
    hide U16, S32, FieldOffset, OffsetOf, SoundVTable;
    var vtable := pos - S32(b, pos);
    OffsetsAgree(b, pos, 0);
    OffsetsAgree(b, pos, 1);
    OffsetsAgree(b, pos, 2);
    OffsetsAgree(b, pos, 3);
    assert AllApart(b, vtable) <==>
           Apart(b, vtable, 0, 1) && Apart(b, vtable, 0, 2) && Apart(b, vtable, 0, 3) && Apart(b, vtable, 1, 2) &&
           Apart(b, vtable, 1, 3) && Apart(b, vtable, 2, 3);
  }

  lemma SoundnessAgrees(b: seq<byte>, pos: int)
    requires Fits(b, pos, 4)
    ensures var vtable := pos - S32(b, pos);
            SoundMotor(b, pos) <==>
            SoundVTable(b, vtable) && AllInRange(b, vtable) && AllApart(b, vtable) &&
            Fits(b, pos, ObjectSize(b, vtable))
  {
    var vtable := pos - S32(b, pos);
    if SoundVTable(b, vtable) {
      hide U16, S32, FieldOffset, OffsetOf, SoundVTable;
      OffsetsAgree(b, pos, 0);
      OffsetsAgree(b, pos, 1);
      OffsetsAgree(b, pos, 2);
      OffsetsAgree(b, pos, 3);
      RangesAgree(b, pos);
      ApartAgrees(b, pos);
    }
  }

  lemma NoMotorOutside(b: seq<byte>, pos: int)
    requires !Fits(b, pos, 4)
    ensures !SoundMotor(b, pos)
  {
  }

  lemma ReadingsAgree(b: seq<byte>, pos: int)
    requires SoundMotor(b, pos) && SoundVTable(b, pos - S32(b, pos)) && Fits(b, pos, ObjectSize(b, pos - S32(b, pos)))
    requires AllInRange(b, pos - S32(b, pos))
    ensures var vtable := pos - S32(b, pos);
            && InRange(b, vtable, 0) && InRange(b, vtable, 1) && InRange(b, vtable, 2) && InRange(b, vtable, 3)
            && ShowsScalar(b, pos, 12, 4, FieldAt(b, pos, vtable, 0))
            && ShowsScalar(b, pos, 14, 4, FieldAt(b, pos, vtable, 1))
            && ShowsScalar(b, pos, 18, 4, FieldAt(b, pos, vtable, 2))
            && ShowsScalar(b, pos, 26, 1, FieldAt(b, pos, vtable, 3))
  {
    hide U16, S32, FieldOffset, OffsetOf, SoundVTable, Slice;
    OffsetsAgree(b, pos, 0);
    OffsetsAgree(b, pos, 1);
    OffsetsAgree(b, pos, 2);
    OffsetsAgree(b, pos, 3);
  }

  /** A motor is read exactly from a sound table, and is the one that the table shows. */
  lemma MotorExactly(b: seq<byte>, pos: int, m: Motor)
    ensures MotorAt(b, pos).Ok? <==> SoundMotor(b, pos)
    ensures MotorAt(b, pos) == Ok(m) <==> SoundMotor(b, pos) && ShowsMotor(b, pos, m)
  {
    hide U16, S32, PlanOf, SoundVTable, AllInRange, AllApart, Slice, SoundMotor, ObjectSize, InRange, OffsetOf,
         FieldOffset;
    if Fits(b, pos, 4) {
      PlanExists(b, pos - S32(b, pos));
      SoundnessAgrees(b, pos);
      if SoundMotor(b, pos) {
        ReadingsAgree(b, pos);
      }
    } else {
      NoMotorOutside(b, pos);
    }
  }

  /** The table that element `i` of a vector of references points to. */
  function TableAt(b: seq<byte>, first: int, i: nat): int
    requires Fits(b, first + 4 * i, 4)
  {
    first + 4 * i + U32(b, first + 4 * i)
  }

  /** The motors that the first `n` elements of a vector show. */
  ghost predicate ShowsMotors(b: seq<byte>, first: int, n: nat, ms: seq<Motor>) {
    && |ms| == n
    && forall i | 0 <= i < n ::
         && Fits(b, first + 4 * i, 4) && U32(b, first + 4 * i) >= 4
         && SoundMotor(b, TableAt(b, first, i)) && ShowsMotor(b, TableAt(b, first, i), ms[i])
  }

  lemma {:induction false} MotorsCount(b: seq<byte>, first: int, n: nat)
    requires Fits(b, first, 4 * n)
    ensures MotorsFrom(b, first, n).Ok? ==> |MotorsFrom(b, first, n).value| == n
    decreases n
  {
    hide U32, MotorAt;
    if n > 0 {
      MotorsCount(b, first, n - 1);
    }
  }

  lemma MotorsShownNext(b: seq<byte>, first: int, n: nat, ms: seq<Motor>)
    requires n > 0 && |ms| == n && Fits(b, first, 4 * n)
    ensures ShowsMotors(b, first, n, ms) <==>
            && ShowsMotors(b, first, n - 1, ms[..n - 1]) && U32(b, first + 4 * (n - 1)) >= 4
            && SoundMotor(b, TableAt(b, first, n - 1)) && ShowsMotor(b, TableAt(b, first, n - 1), ms[n - 1])
  {
    hide U32, SoundMotor, ShowsMotor;
  }

  lemma {:induction false} MotorsExactly(b: seq<byte>, first: int, n: nat, ms: seq<Motor>)
    requires Fits(b, first, 4 * n)
    ensures MotorsFrom(b, first, n) == Ok(ms) <==> ShowsMotors(b, first, n, ms)
    decreases n
  {
    hide U32, SoundMotor, ShowsMotor, MotorAt;
    if n > 0 {
      if |ms| == n {
        MotorsExactly(b, first, n - 1, ms[..n - 1]);
        MotorExactly(b, TableAt(b, first, n - 1), ms[n - 1]);
        assert ms == ms[..n - 1] + [ms[n - 1]];
        MotorsShownNext(b, first, n, ms);
      } else {
        MotorsCount(b, first, n);
      }
    } else if ms != [] {
      MotorsCount(b, first, n);
    }
  }

  /**
   A message has the motors `ms` exactly when its vector lies in the buffer, every element points forward to a sound
   table, and the tables show them, in order. A message without the vector has none.
   */
  lemma MessageExactly(b: seq<byte>, root: nat, offset: nat, ms: seq<Motor>)
    ensures MotorsOf(b, root, offset) == Ok(ms) <==>
            if offset == 0 then ms == []
            else
              && Fits(b, root + offset, 4)
              && var vector := root + offset + U32(b, root + offset);
                 && Fits(b, vector, 4) && Fits(b, vector + 4, 4 * U32(b, vector))
                 && ShowsMotors(b, vector + 4, U32(b, vector), ms)
  {
    hide U32, ShowsMotors, MotorsFrom;
    if offset != 0 && Fits(b, root + offset, 4) {
      var vector := root + offset + U32(b, root + offset);
      if Fits(b, vector, 4) && Fits(b, vector + 4, 4 * U32(b, vector)) {
        MotorsExactly(b, vector + 4, U32(b, vector), ms);
      }
    }
  }

  /** Why a vtable has no plan, by the first reason that holds. */
  lemma PlanRefusals(b: seq<byte>, vtable: int)
    ensures var r := PlanOf(b, vtable);
            var headed := Fits(b, vtable, 4);
            && (!headed ==> r == Err(OutsideBuffer))
            && (headed ==>
                  var length, size := U16(b, vtable), U16(b, vtable + 2);
                  var sized := 4 <= length && length % 2 == 0 && 4 <= size;
                  && (r == Err(InvalidVTable) <==> !sized)
                  && (r == Err(OutsideBuffer) <==> sized && !Fits(b, vtable, length))
                  && (sized && Fits(b, vtable, length) ==>
                        && SoundVTable(b, vtable)
                        && (r == Err(ScalarOutsideTable) <==> !AllInRange(b, vtable))
                        && (r == Err(Overlapping) <==> AllInRange(b, vtable) && !AllApart(b, vtable))))
  {
    PlanExists(b, vtable);
    hide U16, AllApart, InRange, PresentFields, Sorted, Runs, Parts, Indices;
  }
}
