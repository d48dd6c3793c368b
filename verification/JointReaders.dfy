/** The two readers of a state's joints, the native decoder and the bulk reader, agree. */
module JointReaders {
  import opened BodyShape
  import opened Bytes
  import opened Tables
  import opened Verifier
  import opened BodyStateDecoder
  import BulkReader

  /** The joints of fixed-stride rows. */
  function JointsOfRows(rows: seq<byte>, n: nat): (r: seq<JointState>)
    requires |rows| == JOINT_STATE_SIZE * n
    ensures |r| == n
  {
    seq(n, i requires 0 <= i < n => JointAt(rows, JOINT_STATE_SIZE * i))
  }

  lemma WordMoves(b: seq<byte>, at: int, len: nat, i: nat)
    requires Fits(b, at, len)
    ensures i + 8 <= len ==> U64(Slice(b, at, len), i) == U64(b, at + i)
    ensures i + 4 <= len ==> U32(Slice(b, at, len), i) == U32(b, at + i)
  {
    if i + 8 <= len { SliceOfSlice(b, at, len, i, 8); }
    if i + 4 <= len { SliceOfSlice(b, at, len, i, 4); }
  }

  lemma JointMoves(b: seq<byte>, at: int, len: nat, i: nat)
    requires Fits(b, at, len) && i + JOINT_STATE_SIZE <= len
    ensures JointAt(Slice(b, at, len), i) == JointAt(b, at + i)
  {
    hide U32, U64, Slice;
    WordMoves(b, at, len, i);
    WordMoves(b, at, len, i + 8);
    WordMoves(b, at, len, i + 16);
    WordMoves(b, at, len, i + 24);
    WordMoves(b, at, len, i + 28);
    WordMoves(b, at, len, i + 32);
    WordMoves(b, at, len, i + 36);
  }

  lemma {:induction false} JointsAtEach(b: seq<byte>, vector: nat, n: nat, i: nat)
    requires Fits(b, vector + 4, JOINT_STATE_SIZE * n) && i < n
    ensures JointsAt(b, vector, n)[i] == JointAt(b, vector + 4 + JOINT_STATE_SIZE * i)
  {
    hide JointAt;
    if i < n - 1 {
      JointsAtEach(b, vector, n - 1, i);
    }
  }

  lemma RowsAreJoints(b: seq<byte>, vector: nat, n: nat)
    requires Fits(b, vector + 4, JOINT_STATE_SIZE * n)
    ensures JointsOfRows(Slice(b, vector + 4, JOINT_STATE_SIZE * n), n) == JointsAt(b, vector, n)
  {
    var rows := Slice(b, vector + 4, JOINT_STATE_SIZE * n);
    forall i | 0 <= i < n
      ensures JointsOfRows(rows, n)[i] == JointsAt(b, vector, n)[i]
    {
      JointMoves(b, vector + 4, JOINT_STATE_SIZE * n, JOINT_STATE_SIZE * i);
      JointsAtEach(b, vector, n, i);
    }
    hide JointAt, Slice;
  }

  /**
   On a verified state that the bulk reader accepts as well, both readers give the same joints. The bulk
   reader is stricter: it wants the joints aligned to eight bytes and the field inside the table's size.
   */
  lemma ReadersAgree(b: seq<byte>, pos: nat)
    requires Verified(b, pos) && BulkReader.VectorFieldData(b, pos, 22, JOINT_STATE_SIZE, 8).Ok?
    ensures JointCountOk(b, pos)
    ensures StateAt(b, pos).joints ==
            match BulkReader.VectorFieldData(b, pos, 22, JOINT_STATE_SIZE, 8).value
            case None => []
            case Some(rows) => JointsOfRows(rows, SLOTS)
  {
    hide StateOk, U32, FieldOffset, JointsAt, JointsOfRows, Slice, ImusAt, BulkReader.VectorFieldData,
         NumbersAt;
    BulkReader.BulkReadsExactly(b, pos, 22, JOINT_STATE_SIZE, 8);
    var joints := Target(b, pos, 22);
    if joints.Some? {
      assert BulkReader.VectorStandsAt(b, joints.value, JOINT_STATE_SIZE, 8);
      RowsAreJoints(b, joints.value, SLOTS);
    }
  }
}
