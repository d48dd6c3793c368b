/**
 The native decoder of BODY states. It verifies the table it was pointed at and then reads raw offsets;
 here every raw read demands that its bytes lie in the buffer, so the decoder is memory safe because these
 demands are met. Floating-point values are opaque 32-bit words.
 */
module BodyStateDecoder {
  import opened BodyShape
  import opened Bytes
  import opened Tables
  import opened Wrappers
  import opened Verifier

  datatype JointState = JointState(acquiredUs: Word64, ingestedUs: Word64, assembledUs: Word64,
                                   q: Word32, dq: Word32, tauEst: Word32, errorCode: Word32)

  datatype ImuState = ImuState(quaternion: seq<Word32>, gyroscope: seq<Word32>, accelerometer: seq<Word32>,
                               rpy: seq<Word32>)

  datatype Imu = Imu(location: byte, status: byte, sampledUs: Word64, acquiredUs: Word64, ingestedUs: Word64,
                     assembledUs: Word64, state: Option<ImuState>)

  datatype Numbers = Numbers(protocol: Word32, roster: Word32, id: Word64, realUs: Word64, pubUs: Word64,
                             consumedUs: Word64, attitude: bool, session: Word64, sequence: Word64, outputUs: Word64)

  datatype State = State(numbers: Numbers, joints: seq<JointState>, imus: seq<Imu>)

  datatype DecodeError =
    | InvalidRootOffset
    | InvalidTableOffset
    | InvalidFlatBuffer
    | IncompatibleVersion
    | WrongJointCount

  // ---------------------------------------------------------------------------------------
  // Reading
  // ---------------------------------------------------------------------------------------

  function NumberField(b: seq<byte>, pos: int, id: nat): Word64
    requires Readable(b, pos) && IsFieldId(id) && FieldFits(b, pos, id, 8)
  {
    var offset := FieldOffset(b, pos, id);
    if offset == 0 then 0 else U64(b, pos + offset)
  }

  function ShortField(b: seq<byte>, pos: int, id: nat): Word32
    requires Readable(b, pos) && IsFieldId(id) && FieldFits(b, pos, id, 4)
  {
    var offset := FieldOffset(b, pos, id);
    if offset == 0 then 0 else U32(b, pos + offset)
  }

  function ByteField(b: seq<byte>, pos: int, id: nat): byte
    requires Readable(b, pos) && IsFieldId(id) && FieldFits(b, pos, id, 1)
  {
    var offset := FieldOffset(b, pos, id);
    if offset == 0 then 0 else b[pos + offset]
  }

  function WordsAt(b: seq<byte>, at: int, n: nat): (r: seq<Word32>)
    requires Fits(b, at, 4 * n)
    ensures |r| == n
    decreases n
  {
    if n == 0 then [] else [U32(b, at)] + WordsAt(b, at + 4, n - 1)
  }

  function JointAt(b: seq<byte>, at: int): JointState
    requires Fits(b, at, JOINT_STATE_SIZE)
  {
    JointState(U64(b, at), U64(b, at + 8), U64(b, at + 16), U32(b, at + 24), U32(b, at + 28), U32(b, at + 32),
               U32(b, at + 36))
  }

  function ImuStateAt(b: seq<byte>, at: int): ImuState
    requires Fits(b, at, IMU_SIZE)
  {
    ImuState(WordsAt(b, at, 4), WordsAt(b, at + 16, 3), WordsAt(b, at + 28, 3), WordsAt(b, at + 40, 3))
  }

  function ImuAt(b: seq<byte>, pos: nat): Imu
    requires |b| < MAX_BUFFER && ImuOk(b, pos)
  {
    var state := GetStruct(b, pos, 14, IMU_SIZE);
    Imu(ByteField(b, pos, 12), ByteField(b, pos, 16), NumberField(b, pos, 4), NumberField(b, pos, 6),
        NumberField(b, pos, 8), NumberField(b, pos, 10),
        if state.Some? then Some(ImuStateAt(state.value, 0)) else None)
  }

  /** The first `n` joints of a checked vector. */
  function JointsAt(b: seq<byte>, vector: nat, n: nat): (r: seq<JointState>)
    requires Fits(b, vector + 4, JOINT_STATE_SIZE * n)
    ensures |r| == n
  {
    if n == 0 then [] else JointsAt(b, vector, n - 1) + [JointAt(b, vector + 4 + JOINT_STATE_SIZE * (n - 1))]
  }

  /** The first `n` IMU samples of a checked vector of tables. */
  function ImusAt(b: seq<byte>, vector: nat, n: nat): (r: seq<Imu>)
    requires |b| < MAX_BUFFER && VectorOk(b, vector, 4) && n <= U32(b, vector) && ImusOk(b, vector)
    ensures |r| == n
  {
    if n == 0 then [] else ImusAt(b, vector, n - 1) + [ImuAt(b, Element(b, vector, n - 1))]
  }

  function NumbersAt(b: seq<byte>, pos: nat): Numbers
    requires |b| < MAX_BUFFER && StateOk(b, pos)
  {
    Numbers(ShortField(b, pos, 6), ShortField(b, pos, 8), NumberField(b, pos, 10), NumberField(b, pos, 12),
            NumberField(b, pos, 14), NumberField(b, pos, 16), ByteField(b, pos, 18) != 0, NumberField(b, pos, 24),
            NumberField(b, pos, 26), NumberField(b, pos, 28))
  }

  // ---------------------------------------------------------------------------------------
  // What is accepted
  // ---------------------------------------------------------------------------------------

  /** The table to decode: the one asked for, or the root of the buffer. */
  function TableToDecode(b: seq<byte>, offset: nat): Result<nat, DecodeError> {
    if offset != 0 then Ok(offset)
    else if |b| < 4 || U32(b, 0) == 0 then Err(InvalidRootOffset)
    else Ok(U32(b, 0))
  }

  predicate TableOffsetOk(b: seq<byte>, pos: nat) {
    |b| < MAX_BUFFER && pos <= |b| && |b| - pos >= 4 && pos % 4 == 0
  }

  predicate Verified(b: seq<byte>, pos: nat) {
    TableOffsetOk(b, pos) && StateOk(b, pos) && TableCount(b, pos) <= MAX_TABLES
  }

  /** The number of joints a state has; none when the vector is absent. */
  predicate JointCountOk(b: seq<byte>, pos: nat)
    requires Verified(b, pos)
  {
    var joints := Target(b, pos, 22);
    joints.Some? ==> U32(b, joints.value) == SLOTS
  }

  function StateAt(b: seq<byte>, pos: nat): State
    requires Verified(b, pos)
  {
    var joints, imus := Target(b, pos, 22), Target(b, pos, 20);
    State(NumbersAt(b, pos),
          if joints.Some? then JointsAt(b, joints.value, U32(b, joints.value)) else [],
          if imus.Some? then ImusAt(b, imus.value, U32(b, imus.value)) else [])
  }

  /** What decoding a buffer gives. */
  function Decoded(b: seq<byte>, offset: nat): Result<State, DecodeError> {
    match TableToDecode(b, offset)
    case Err(e) => Err(e)
    case Ok(pos) =>
      if !TableOffsetOk(b, pos) then Err(InvalidTableOffset)
      else if !Verified(b, pos) then Err(InvalidFlatBuffer)
      else if ShortField(b, pos, 6) != 2 then Err(IncompatibleVersion)
      else if !JointCountOk(b, pos) then Err(WrongJointCount)
      else Ok(StateAt(b, pos))
  }

  // ---------------------------------------------------------------------------------------
  // Memory safety
  // ---------------------------------------------------------------------------------------

  /** Every field of an IMU table lies in the buffer, its 52-byte struct included. */
  predicate ImuInside(b: seq<byte>, pos: int) {
    && Readable(b, pos)
    && FieldFits(b, pos, 4, 8) && FieldFits(b, pos, 6, 8) && FieldFits(b, pos, 8, 8) && FieldFits(b, pos, 10, 8)
    && FieldFits(b, pos, 12, 1) && FieldFits(b, pos, 14, IMU_SIZE) && FieldFits(b, pos, 16, 1)
  }

  predicate NumbersInside(b: seq<byte>, pos: int)
    requires Readable(b, pos)
  {
    && FieldFits(b, pos, 6, 4) && FieldFits(b, pos, 8, 4) && FieldFits(b, pos, 10, 8) && FieldFits(b, pos, 12, 8)
    && FieldFits(b, pos, 14, 8) && FieldFits(b, pos, 16, 8) && FieldFits(b, pos, 18, 1) && FieldFits(b, pos, 24, 8)
    && FieldFits(b, pos, 26, 8) && FieldFits(b, pos, 28, 8)
  }

  predicate JointsInside(b: seq<byte>, joints: int) {
    && Fits(b, joints, 4)
    && forall i | 0 <= i < U32(b, joints) :: Fits(b, joints + 4 + JOINT_STATE_SIZE * i, JOINT_STATE_SIZE)
  }

  predicate ImusInside(b: seq<byte>, imus: int) {
    && Fits(b, imus, 4) && Fits(b, imus + 4, 4 * U32(b, imus))
    && forall i | 0 <= i < U32(b, imus) :: ImuInside(b, imus + 4 + 4 * i + U32(b, imus + 4 + 4 * i))
  }

  /** Every field of a state lies in the buffer: numbers, all elements of its joints, all tables of its samples. */
  predicate StateInside(b: seq<byte>, pos: int) {
    && Readable(b, pos)
    && NumbersInside(b, pos)
    && FieldFits(b, pos, 22, 4)
    && (GetPointer(b, pos, 22).Some? ==> JointsInside(b, GetPointer(b, pos, 22).value))
    && FieldFits(b, pos, 20, 4)
    && (GetPointer(b, pos, 20).Some? ==> ImusInside(b, GetPointer(b, pos, 20).value))
  }

  lemma ImuOkInside(b: seq<byte>, pos: nat)
    requires |b| < MAX_BUFFER && ImuOk(b, pos)
    ensures ImuInside(b, pos)
  {
    hide TableStartOk, FieldOk, FieldFits;
  }

  lemma NumbersOkInside(b: seq<byte>, pos: nat)
    requires Readable(b, pos) && NumbersOk(b, pos) && LastNumbersOk(b, pos)
    ensures NumbersInside(b, pos)
  {
    hide Readable, FieldOk, FieldFits;
  }

  lemma VectorOkInside(b: seq<byte>, joints: nat)
    requires VectorOk(b, joints, JOINT_STATE_SIZE)
    ensures JointsInside(b, joints)
  {
    hide U32;
  }

  lemma ImusOkInside(b: seq<byte>, imus: nat)
    requires |b| < MAX_BUFFER && VectorOk(b, imus, 4) && ImusOk(b, imus)
    ensures ImusInside(b, imus)
  {
    forall i | 0 <= i < U32(b, imus)
      ensures ImuInside(b, imus + 4 + 4 * i + U32(b, imus + 4 + 4 * i))
    {
      assert ImuOk(b, Element(b, imus, i));
      ImuOkInside(b, Element(b, imus, i));
    }
  }

  /** For every byte string: what the verifier accepts can be read without leaving the buffer. */
  lemma VerifiedReadsInside(b: seq<byte>, pos: nat)
    requires |b| < MAX_BUFFER && StateOk(b, pos)
    ensures StateInside(b, pos)
  {
    hide TableStartOk, HeaderFieldOk, NumbersOk, LastNumbersOk, ImusOk, VectorOk, JointsInside, ImusInside,
         NumbersInside, U32, Readable, FieldOffset, U16, ReferenceOk;
    NumbersOkInside(b, pos);
    var joints, imus := Target(b, pos, 22), Target(b, pos, 20);
    if joints.Some? {
      VectorOkInside(b, joints.value);
    }
    if imus.Some? {
      ImusOkInside(b, imus.value);
    }
  }

  // ---------------------------------------------------------------------------------------
  // The loops
  // ---------------------------------------------------------------------------------------

  method ReadJoints(b: seq<byte>, vector: nat) returns (joints: seq<JointState>)
    requires VectorOk(b, vector, JOINT_STATE_SIZE)
    ensures joints == JointsAt(b, vector, U32(b, vector))
  {
    hide U32;
    joints := [];
    var i := 0;
    while i < U32(b, vector)
      invariant 0 <= i <= U32(b, vector)
      invariant Fits(b, vector + 4, JOINT_STATE_SIZE * i) && joints == JointsAt(b, vector, i)
    {
      joints := joints + [JointAt(b, vector + 4 + JOINT_STATE_SIZE * i)];
      i := i + 1;
    }
  }

  method ReadImus(b: seq<byte>, vector: nat) returns (imus: seq<Imu>)
    requires |b| < MAX_BUFFER && VectorOk(b, vector, 4) && ImusOk(b, vector)
    ensures imus == ImusAt(b, vector, U32(b, vector))
  {
    hide U32, VectorOk, ImuOk, Element;
    imus := [];
    var i := 0;
    while i < U32(b, vector)
      invariant 0 <= i <= U32(b, vector) && imus == ImusAt(b, vector, i)
    {
      imus := imus + [ImuAt(b, Element(b, vector, i))];
      i := i + 1;
    }
  }

  /** Decodes the state at `offset`, or at the root of the buffer when `offset` is zero. */
  method ReadState(b: seq<byte>, offset: nat) returns (r: Result<State, DecodeError>)
    ensures r == Decoded(b, offset)
  {
    var pos := offset;
    if pos == 0 {
      if |b| < 4 {
        return Err(InvalidRootOffset);
      }
      pos := U32(b, 0);
      if pos == 0 {
        return Err(InvalidRootOffset);
      }
    }
    if |b| >= MAX_BUFFER || pos > |b| || |b| - pos < 4 || pos % 4 != 0 {
      return Err(InvalidTableOffset);
    }
    var verifier := new CountingVerifier(b);
    var ok := verifier.VerifyBodyState(pos);
    if !ok {
      return Err(InvalidFlatBuffer);
    }
    assert Verified(b, pos);
    hide U32, StateOk, VectorOk, ImusOk, TableCount, FieldOffset;
    var numbers := NumbersAt(b, pos);
    if numbers.protocol != 2 {
      return Err(IncompatibleVersion);
    }
    var joints: seq<JointState> := [];
    var jointsAt := Target(b, pos, 22);
    if jointsAt.Some? {
      if U32(b, jointsAt.value) != SLOTS {
        return Err(WrongJointCount);
      }
      joints := ReadJoints(b, jointsAt.value);
    }
    var imus: seq<Imu> := [];
    var imusAt := Target(b, pos, 20);
    if imusAt.Some? {
      imus := ReadImus(b, imusAt.value);
    }
    r := Ok(State(numbers, joints, imus));
  }
}
