/**
 The verifier of untrusted FlatBuffers, as the BODY state decoder uses it: each check by itself, the checks
 of the three tables of a state, and the object that counts tables and their depth while it runs them.
 */
module Verifier {
  import opened Words
  import opened BodyShape
  import opened Bytes
  import opened Tables
  import opened Wrappers

  const MIN_BUFFER: nat := 8
  const MAX_BUFFER: nat := TWO_TO_THE_31 - 1

  const IMU_SIZE := 52
  const QUAT_SIZE := 16

  // ---------------------------------------------------------------------------------------
  // Single checks. Places are 64-bit offsets from the start of the buffer.
  // ---------------------------------------------------------------------------------------

  /** A range lies in the buffer; a range as long as the buffer does not pass. */
  predicate Inside(b: seq<byte>, elem: nat, len: nat) {
    len < |b| && elem <= |b| - len
  }

  /** An aligned word in the buffer. */
  predicate WordOk(b: seq<byte>, elem: nat, width: nat)
    requires IsAlignment(width)
  {
    elem % width == 0 && Inside(b, elem, width)
  }

  /** The link of a table and its vtable. The place of the vtable is computed modulo 2^64. */
  predicate TableStartOk(b: seq<byte>, pos: nat): (ok: bool)
    requires |b| < MAX_BUFFER
    ensures ok ==> Readable(b, pos)
  {
    && WordOk(b, pos, 4)
    && var vtable := (pos - S32(b, pos)) % TWO_TO_THE_64;
       && WordOk(b, vtable, 2)
       && U16(b, vtable) % 2 == 0
       && Inside(b, vtable, U16(b, vtable))
  }

  predicate FieldOk(b: seq<byte>, pos: nat, id: nat, width: nat, align: nat): (ok: bool)
    requires Readable(b, pos) && IsFieldId(id) && IsAlignment(align)
    ensures ok ==> FieldFits(b, pos, id, width)
  {
    var offset := FieldOffset(b, pos, id);
    offset == 0 || ((pos + offset) % align == 0 && Inside(b, pos + offset, width))
  }

  /** A reference that points forward to a byte of the buffer. */
  predicate ReferenceOk(b: seq<byte>, pos: nat, id: nat): (ok: bool)
    requires Readable(b, pos) && IsFieldId(id)
    ensures ok ==> FieldFits(b, pos, id, 4)
  {
    var offset := FieldOffset(b, pos, id);
    || offset == 0
    || (&& WordOk(b, pos + offset, 4)
        && var distance := U32(b, pos + offset);
           distance != 0 && distance < TWO_TO_THE_31 && Inside(b, pos + offset + distance, 1))
  }

  /** The place that a checked reference points to. */
  function Target(b: seq<byte>, pos: nat, id: nat): (r: Option<nat>)
    requires Readable(b, pos) && IsFieldId(id) && FieldFits(b, pos, id, 4)
    ensures r == GetPointer(b, pos, id)
  {
    GetPointer(b, pos, id)
  }

  predicate VectorOk(b: seq<byte>, vector: nat, elemSize: nat): (ok: bool)
    requires elemSize > 0
    ensures ok ==> Fits(b, vector, 4) && Fits(b, vector, 4 + elemSize * U32(b, vector))
  {
    && WordOk(b, vector, 4)
    && U32(b, vector) < MAX_BUFFER / elemSize
    && Inside(b, vector, 4 + elemSize * U32(b, vector))
  }

  predicate StringOk(b: seq<byte>, text: nat) {
    && VectorOk(b, text, 1)
    && var end := text + 4 + U32(b, text);
       Inside(b, end, 1) && b[end] == 0
  }

  // ---------------------------------------------------------------------------------------
  // The tables of a state
  // ---------------------------------------------------------------------------------------

  predicate HeaderOk(b: seq<byte>, pos: nat)
    requires |b| < MAX_BUFFER
  {
    && TableStartOk(b, pos)
    && FieldOk(b, pos, 4, 8, 8)
    && ReferenceOk(b, pos, 6)
    && (Target(b, pos, 6).Some? ==> StringOk(b, Target(b, pos, 6).value))
    && FieldOk(b, pos, 8, 8, 8)
  }

  predicate ImuOk(b: seq<byte>, pos: nat)
    requires |b| < MAX_BUFFER
  {
    && TableStartOk(b, pos)
    && FieldOk(b, pos, 4, 8, 8) && FieldOk(b, pos, 6, 8, 8) && FieldOk(b, pos, 8, 8, 8) && FieldOk(b, pos, 10, 8, 8)
    && FieldOk(b, pos, 12, 1, 1) && FieldOk(b, pos, 14, IMU_SIZE, 4) && FieldOk(b, pos, 16, 1, 1)
  }

  /** The table that element `i` of a checked vector of references points to. */
  function Element(b: seq<byte>, vector: nat, i: nat): nat
    requires VectorOk(b, vector, 4) && i < U32(b, vector)
  {
    vector + 4 + 4 * i + U32(b, vector + 4 + 4 * i)
  }

  predicate ImusOk(b: seq<byte>, vector: nat)
    requires |b| < MAX_BUFFER && VectorOk(b, vector, 4)
  {
    forall i | 0 <= i < U32(b, vector) :: ImuOk(b, Element(b, vector, i))
  }

  predicate NumbersOk(b: seq<byte>, pos: nat)
    requires Readable(b, pos)
  {
    && FieldOk(b, pos, 6, 4, 4) && FieldOk(b, pos, 8, 4, 4) && FieldOk(b, pos, 10, 8, 8) && FieldOk(b, pos, 12, 8, 8)
    && FieldOk(b, pos, 14, 8, 8) && FieldOk(b, pos, 16, 8, 8) && FieldOk(b, pos, 18, 1, 1)
  }

  predicate LastNumbersOk(b: seq<byte>, pos: nat)
    requires Readable(b, pos)
  {
    FieldOk(b, pos, 24, 8, 8) && FieldOk(b, pos, 26, 8, 8) && FieldOk(b, pos, 28, 8, 8)
  }

  predicate HeaderFieldOk(b: seq<byte>, pos: nat)
    requires |b| < MAX_BUFFER && Readable(b, pos)
  {
    && ReferenceOk(b, pos, 4)
    && (Target(b, pos, 4).Some? ==> HeaderOk(b, Target(b, pos, 4).value))
  }

  predicate ImusFieldOk(b: seq<byte>, pos: nat)
    requires |b| < MAX_BUFFER && Readable(b, pos)
  {
    && ReferenceOk(b, pos, 20)
    && (Target(b, pos, 20).Some? ==>
          VectorOk(b, Target(b, pos, 20).value, 4) && ImusOk(b, Target(b, pos, 20).value))
  }

  predicate JointsFieldOk(b: seq<byte>, pos: nat)
    requires Readable(b, pos)
  {
    && ReferenceOk(b, pos, 22)
    && (Target(b, pos, 22).Some? ==> VectorOk(b, Target(b, pos, 22).value, JOINT_STATE_SIZE))
  }

  predicate StateOk(b: seq<byte>, pos: nat)
    requires |b| < MAX_BUFFER
  {
    && TableStartOk(b, pos)
    && HeaderFieldOk(b, pos)
    && NumbersOk(b, pos)
    && ImusFieldOk(b, pos)
    && JointsFieldOk(b, pos)
    && LastNumbersOk(b, pos)
  }

  /** How many tables a state is made of. */
  function TableCount(b: seq<byte>, pos: nat): nat
    requires |b| < MAX_BUFFER && StateOk(b, pos)
  {
    var imus := Target(b, pos, 20);
    1 + (if Target(b, pos, 4).Some? then 1 else 0) + (if imus.Some? then U32(b, imus.value) else 0)
  }

  // ---------------------------------------------------------------------------------------
  // The tables of a command
  // ---------------------------------------------------------------------------------------

  predicate CommandNumbersOk(b: seq<byte>, pos: nat)
    requires Readable(b, pos)
  {
    && FieldOk(b, pos, 6, 4, 4) && FieldOk(b, pos, 8, 8, 8) && FieldOk(b, pos, 10, 8, 8) && FieldOk(b, pos, 12, 8, 8)
    && FieldOk(b, pos, 14, 8, 8) && FieldOk(b, pos, 16, 8, 8) && FieldOk(b, pos, 18, 8, 8)
  }

  predicate CommandJointsOk(b: seq<byte>, pos: nat)
    requires Readable(b, pos)
  {
    && ReferenceOk(b, pos, 20)
    && (Target(b, pos, 20).Some? ==> VectorOk(b, Target(b, pos, 20).value, JOINT_COMMAND_SIZE))
  }

  predicate CommandOk(b: seq<byte>, pos: nat)
    requires |b| < MAX_BUFFER
  {
    && TableStartOk(b, pos)
    && HeaderFieldOk(b, pos)
    && CommandNumbersOk(b, pos)
    && CommandJointsOk(b, pos)
    && FieldOk(b, pos, 22, 1, 1) && FieldOk(b, pos, 24, QUAT_SIZE, 4)
  }

  /** The place of the root: an aligned word at the front that points forward to a byte of the buffer. */
  predicate RootOk(b: seq<byte>) {
    && WordOk(b, 0, 4)
    && 0 < U32(b, 0) < TWO_TO_THE_31 && Inside(b, U32(b, 0), 1)
  }

  /** A buffer that holds a command. */
  predicate CommandBufferOk(b: seq<byte>)
    requires |b| < MAX_BUFFER
  {
    |b| >= MIN_BUFFER && RootOk(b) && CommandOk(b, U32(b, 0))
  }

  // ---------------------------------------------------------------------------------------
  // The object
  // ---------------------------------------------------------------------------------------

  const MAX_DEPTH: nat := 64
  const MAX_TABLES: nat := 1_000_000

  class CountingVerifier {
    const buf: seq<byte>
    var depth: nat
    var numTables: nat

    constructor (buf: seq<byte>)
      ensures this.buf == buf && depth == numTables == 0
    {
      this.buf := buf;
      depth, numTables := 0, 0;
    }

    method VerifyComplexity() returns (ok: bool)
      modifies this
      ensures depth == old(depth) + 1 && numTables == old(numTables) + 1
      ensures ok <==> depth <= MAX_DEPTH && numTables <= MAX_TABLES
    {
      depth := depth + 1;
      numTables := numTables + 1;
      ok := depth <= MAX_DEPTH && numTables <= MAX_TABLES;
    }

    /** Leaves a table. Only a table that was entered is left. */
    method EndTable()
      requires depth > 0
      modifies this
      ensures depth == old(depth) - 1 && numTables == old(numTables)
    {
      depth := depth - 1;
    }

    method VerifyTableStart(pos: nat) returns (ok: bool)
      requires |buf| < MAX_BUFFER
      modifies this
      ensures ok <==> TableStartOk(buf, pos) && old(depth) < MAX_DEPTH && old(numTables) < MAX_TABLES
      ensures ok ==> depth == old(depth) + 1 && numTables == old(numTables) + 1
    {
      if !WordOk(buf, pos, 4) {
        return false;
      }
      var vtable := (pos - S32(buf, pos)) % TWO_TO_THE_64;
      var within := VerifyComplexity();
      ok := within && WordOk(buf, vtable, 2) && U16(buf, vtable) % 2 == 0 && Inside(buf, vtable, U16(buf, vtable));
    }

    method VerifyImu(pos: nat) returns (ok: bool)
      requires |buf| < MAX_BUFFER
      modifies this
      ensures ok <==> ImuOk(buf, pos) && old(depth) < MAX_DEPTH && old(numTables) < MAX_TABLES
      ensures ok ==> depth == old(depth) && numTables == old(numTables) + 1
    {
      hide TableStartOk, FieldOk;
      var started := VerifyTableStart(pos);
      if !started {
        return false;
      }
      ok := && FieldOk(buf, pos, 4, 8, 8) && FieldOk(buf, pos, 6, 8, 8) && FieldOk(buf, pos, 8, 8, 8)
            && FieldOk(buf, pos, 10, 8, 8) && FieldOk(buf, pos, 12, 1, 1) && FieldOk(buf, pos, 14, IMU_SIZE, 4)
            && FieldOk(buf, pos, 16, 1, 1);
      if ok {
        EndTable();
      }
    }

    method VerifyHeader(pos: nat) returns (ok: bool)
      requires |buf| < MAX_BUFFER
      modifies this
      ensures ok <==> HeaderOk(buf, pos) && old(depth) < MAX_DEPTH && old(numTables) < MAX_TABLES
      ensures ok ==> depth == old(depth) && numTables == old(numTables) + 1
    {
      hide TableStartOk, FieldOk, ReferenceOk, StringOk;
      var started := VerifyTableStart(pos);
      if !started || !FieldOk(buf, pos, 4, 8, 8) || !ReferenceOk(buf, pos, 6) {
        return false;
      }
      var node := Target(buf, pos, 6);
      if node.Some? && !StringOk(buf, node.value) {
        return false;
      }
      ok := FieldOk(buf, pos, 8, 8, 8);
      if ok {
        EndTable();
      }
    }

    /** The tables that a checked vector of references points to. It stops at the first that fails. */
    method VerifyVectorOfTables(vector: nat) returns (ok: bool)
      requires |buf| < MAX_BUFFER && VectorOk(buf, vector, 4) && depth < MAX_DEPTH && numTables <= MAX_TABLES
      modifies this
      ensures ok <==> ImusOk(buf, vector) && old(numTables) + U32(buf, vector) <= MAX_TABLES
      ensures ok ==> depth == old(depth) && numTables == old(numTables) + U32(buf, vector)
    {
      hide VectorOk, ImuOk, Element;
      var i := 0;
      while i < U32(buf, vector)
        invariant 0 <= i <= U32(buf, vector)
        invariant depth == old(depth) && numTables == old(numTables) + i <= MAX_TABLES
        invariant forall j | 0 <= j < i :: ImuOk(buf, Element(buf, vector, j))
      {
        var good := VerifyImu(Element(buf, vector, i));
        if !good {
          return false;
        }
        i := i + 1;
      }
      ok := true;
    }

    method VerifyBodyState(pos: nat) returns (ok: bool)
      requires |buf| < MAX_BUFFER && depth == numTables == 0
      modifies this
      ensures ok <==> StateOk(buf, pos) && TableCount(buf, pos) <= MAX_TABLES
      ensures ok ==> depth == 0
    {
      var started := VerifyTableStart(pos);
      if !started || !ReferenceOk(buf, pos, 4) {
        return false;
      }
      hide TableStartOk, NumbersOk, HeaderOk, ImusOk, LastNumbersOk, VectorOk, ReferenceOk;
      var header := Target(buf, pos, 4);
      if header.Some? {
        var good := VerifyHeader(header.value);
        if !good {
          return false;
        }
      }
      if !NumbersOk(buf, pos) || !ReferenceOk(buf, pos, 20) {
        return false;
      }
      var imus := Target(buf, pos, 20);
      if imus.Some? {
        if !VectorOk(buf, imus.value, 4) {
          return false;
        }
        var good := VerifyVectorOfTables(imus.value);
        if !good {
          return false;
        }
      }
      if !JointsFieldOk(buf, pos) || !LastNumbersOk(buf, pos) {
        return false;
      }
      EndTable();
      ok := true;
    }

    method VerifyBodyCmd(pos: nat) returns (ok: bool)
      requires |buf| < MAX_BUFFER && depth == numTables == 0
      modifies this
      ensures ok <==> CommandOk(buf, pos)
      ensures ok ==> depth == 0
    {
      hide TableStartOk, CommandNumbersOk, HeaderOk, VectorOk, ReferenceOk, FieldOk;
      var started := VerifyTableStart(pos);
      if !started || !ReferenceOk(buf, pos, 4) {
        return false;
      }
      var header := Target(buf, pos, 4);
      if header.Some? {
        var good := VerifyHeader(header.value);
        if !good {
          return false;
        }
      }
      if !CommandNumbersOk(buf, pos) || !CommandJointsOk(buf, pos) {
        return false;
      }
      ok := FieldOk(buf, pos, 22, 1, 1) && FieldOk(buf, pos, 24, QUAT_SIZE, 4);
      if ok {
        EndTable();
      }
    }

    /** Runs over a whole buffer that should hold a command. */
    method VerifyBodyCmdBuffer() returns (ok: bool)
      requires |buf| < MAX_BUFFER && depth == numTables == 0
      modifies this
      ensures ok <==> CommandBufferOk(buf)
    {
      hide CommandOk;
      if |buf| < MIN_BUFFER || !RootOk(buf) {
        return false;
      }
      ok := VerifyBodyCmd(U32(buf, 0));
    }
  }
}
