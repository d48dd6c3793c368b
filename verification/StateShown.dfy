/**
 What a decoded state is, said apart from the decoder: the state whose structs, written out, are the bytes that the
 accessors of the schema find. There is only one such state.
 */
module StateShown {
  import opened BodyShape
  import opened Bytes
  import opened Tables
  import opened Wrappers
  import opened Verifier
  import opened BodyStateDecoder

  // ---------------------------------------------------------------------------------------
  // Words
  // ---------------------------------------------------------------------------------------

  lemma WordRanges()
    ensures Range(4) == TWO_TO_THE_32 && Range(8) == 0x1_0000_0000_0000_0000
  {
    assert Range(2) == TWO_TO_THE_16;
  }

  lemma WordWritten(b: seq<byte>, i: int)
    ensures Fits(b, i, 4) ==> Slice(b, i, 4) == Le(U32(b, i), 4)
    ensures Fits(b, i, 8) ==> Slice(b, i, 8) == Le(U64(b, i), 8)
  {
    if Fits(b, i, 4) { LeOfWord(Slice(b, i, 4)); }
    if Fits(b, i, 8) { LeOfWord(Slice(b, i, 8)); }
  }

  lemma LeInjective(v: nat, w: nat, width: nat)
    requires v < Range(width) && w < Range(width) && Le(v, width) == Le(w, width)
    ensures v == w
  {
    WordOfLe(v, width);
    WordOfLe(w, width);
  }

  /** Two pieces of bytes in a row. */
  lemma Joined(b: seq<byte>, i: int, m: nat, n: nat)
    requires Fits(b, i, m + n)
    ensures Slice(b, i, m) + Slice(b, i + m, n) == Slice(b, i, m + n)
  {
  }

  lemma Parted(a: seq<byte>, b: seq<byte>, c: seq<byte>, d: seq<byte>)
    requires |a| == |c| && a + b == c + d
    ensures a == c && b == d
  {
    assert a == (a + b)[..|a|] && b == (a + b)[|a|..];
    assert c == (c + d)[..|c|] && d == (c + d)[|c|..];
  }

  // ---------------------------------------------------------------------------------------
  // Joints
  // ---------------------------------------------------------------------------------------

  /** The struct of a joint: three stamps, three values, an error code. */
  function JointStateBytes(j: JointState): (s: seq<byte>)
    ensures |s| == JOINT_STATE_SIZE
  {
    Le(j.acquiredUs, 8) + (Le(j.ingestedUs, 8) + (Le(j.assembledUs, 8) +
    (Le(j.q, 4) + (Le(j.dq, 4) + (Le(j.tauEst, 4) + Le(j.errorCode, 4))))))
  }

  lemma JointWritten(b: seq<byte>, at: int)
    requires Fits(b, at, JOINT_STATE_SIZE)
    ensures Slice(b, at, JOINT_STATE_SIZE) == JointStateBytes(JointAt(b, at))
  {
    hide Slice, Le, U32, U64;
    WordWritten(b, at);
    WordWritten(b, at + 8);
    WordWritten(b, at + 16);
    WordWritten(b, at + 24);
    WordWritten(b, at + 28);
    WordWritten(b, at + 32);
    WordWritten(b, at + 36);
    Joined(b, at + 32, 4, 4);
    Joined(b, at + 28, 4, 8);
    Joined(b, at + 24, 4, 12);
    Joined(b, at + 16, 8, 16);
    Joined(b, at + 8, 8, 24);
    Joined(b, at, 8, 32);
  }

  lemma JointBytesDecide(j: JointState, k: JointState)
    requires JointStateBytes(j) == JointStateBytes(k)
    ensures j == k
  {
    hide Le;
    WordRanges();
    var j6, k6 := Le(j.tauEst, 4) + Le(j.errorCode, 4), Le(k.tauEst, 4) + Le(k.errorCode, 4);
    var j5, k5 := Le(j.dq, 4) + j6, Le(k.dq, 4) + k6;
    var j4, k4 := Le(j.q, 4) + j5, Le(k.q, 4) + k5;
    var j3, k3 := Le(j.assembledUs, 8) + j4, Le(k.assembledUs, 8) + k4;
    var j2, k2 := Le(j.ingestedUs, 8) + j3, Le(k.ingestedUs, 8) + k3;
    Parted(Le(j.acquiredUs, 8), j2, Le(k.acquiredUs, 8), k2);
    Parted(Le(j.ingestedUs, 8), j3, Le(k.ingestedUs, 8), k3);
    Parted(Le(j.assembledUs, 8), j4, Le(k.assembledUs, 8), k4);
    Parted(Le(j.q, 4), j5, Le(k.q, 4), k5);
    Parted(Le(j.dq, 4), j6, Le(k.dq, 4), k6);
    Parted(Le(j.tauEst, 4), Le(j.errorCode, 4), Le(k.tauEst, 4), Le(k.errorCode, 4));
    LeInjective(j.acquiredUs, k.acquiredUs, 8);
    LeInjective(j.ingestedUs, k.ingestedUs, 8);
    LeInjective(j.assembledUs, k.assembledUs, 8);
    LeInjective(j.q, k.q, 4);
    LeInjective(j.dq, k.dq, 4);
    LeInjective(j.tauEst, k.tauEst, 4);
    LeInjective(j.errorCode, k.errorCode, 4);
  }

  /** The vector at `vector` holds exactly these joints. */
  ghost predicate ShowsJoints(b: seq<byte>, vector: int, js: seq<JointState>) {
    && Fits(b, vector, 4) && |js| == U32(b, vector)
    && forall i | 0 <= i < |js| ::
         && Fits(b, vector + 4 + JOINT_STATE_SIZE * i, JOINT_STATE_SIZE)
         && Slice(b, vector + 4 + JOINT_STATE_SIZE * i, JOINT_STATE_SIZE) == JointStateBytes(js[i])
  }

  lemma {:induction false} JointsShown(b: seq<byte>, vector: nat, n: nat, i: nat)
    requires Fits(b, vector + 4, JOINT_STATE_SIZE * n) && i < n
    ensures Fits(b, vector + 4 + JOINT_STATE_SIZE * i, JOINT_STATE_SIZE)
    ensures Slice(b, vector + 4 + JOINT_STATE_SIZE * i, JOINT_STATE_SIZE) == JointStateBytes(JointsAt(b, vector, n)[i])
  {
    hide JointAt, JointStateBytes, Slice;
    if i < n - 1 {
      JointsShown(b, vector, n - 1, i);
    } else {
      JointWritten(b, vector + 4 + JOINT_STATE_SIZE * i);
    }
  }

  // ---------------------------------------------------------------------------------------
  // IMU samples
  // ---------------------------------------------------------------------------------------

  function WordsBytes(ws: seq<Word32>): (s: seq<byte>)
    ensures |s| == 4 * |ws|
  {
    if ws == [] then [] else Le(ws[0], 4) + WordsBytes(ws[1..])
  }

  lemma {:induction false} WordsWritten(b: seq<byte>, at: int, n: nat)
    requires Fits(b, at, 4 * n)
    ensures Slice(b, at, 4 * n) == WordsBytes(WordsAt(b, at, n))
    decreases n
  {
    hide Le, U32;
    if n > 0 {
      hide Slice;
      WordWritten(b, at);
      WordsWritten(b, at + 4, n - 1);
      Joined(b, at, 4, 4 * (n - 1));
      assert WordsAt(b, at, n)[1..] == WordsAt(b, at + 4, n - 1);
    }
  }

  lemma {:induction false} WordsBytesDecide(ws: seq<Word32>, vs: seq<Word32>)
    requires |ws| == |vs| && WordsBytes(ws) == WordsBytes(vs)
    ensures ws == vs
  {
    hide Le;
    if ws != [] {
      WordRanges();
      Parted(Le(ws[0], 4), WordsBytes(ws[1..]), Le(vs[0], 4), WordsBytes(vs[1..]));
      LeInjective(ws[0], vs[0], 4);
      WordsBytesDecide(ws[1..], vs[1..]);
    }
  }

  predicate FullState(v: ImuState) {
    |v.quaternion| == 4 && |v.gyroscope| == 3 && |v.accelerometer| == 3 && |v.rpy| == 3
  }

  /** The struct of an IMU: a quaternion and three vectors. */
  function ImuStateBytes(v: ImuState): (s: seq<byte>)
    requires FullState(v)
    ensures |s| == IMU_SIZE
  {
    WordsBytes(v.quaternion) + (WordsBytes(v.gyroscope) + (WordsBytes(v.accelerometer) + WordsBytes(v.rpy)))
  }

  lemma ImuStateWritten(b: seq<byte>, at: int)
    requires Fits(b, at, IMU_SIZE)
    ensures FullState(ImuStateAt(b, at)) && Slice(b, at, IMU_SIZE) == ImuStateBytes(ImuStateAt(b, at))
  {
    hide Slice, WordsAt, WordsBytes;
    WordsWritten(b, at, 4);
    WordsWritten(b, at + 16, 3);
    WordsWritten(b, at + 28, 3);
    WordsWritten(b, at + 40, 3);
    Joined(b, at + 28, 12, 12);
    Joined(b, at + 16, 12, 24);
    Joined(b, at, 16, 36);
  }

  lemma ImuBytesDecide(v: ImuState, w: ImuState)
    requires FullState(v) && FullState(w) && ImuStateBytes(v) == ImuStateBytes(w)
    ensures v == w
  {
    hide WordsBytes;
    Parted(WordsBytes(v.quaternion), WordsBytes(v.gyroscope) + (WordsBytes(v.accelerometer) + WordsBytes(v.rpy)),
           WordsBytes(w.quaternion), WordsBytes(w.gyroscope) + (WordsBytes(w.accelerometer) + WordsBytes(w.rpy)));
    Parted(WordsBytes(v.gyroscope), WordsBytes(v.accelerometer) + WordsBytes(v.rpy),
           WordsBytes(w.gyroscope), WordsBytes(w.accelerometer) + WordsBytes(w.rpy));
    Parted(WordsBytes(v.accelerometer), WordsBytes(v.rpy), WordsBytes(w.accelerometer), WordsBytes(w.rpy));
    WordsBytesDecide(v.quaternion, w.quaternion);
    WordsBytesDecide(v.gyroscope, w.gyroscope);
    WordsBytesDecide(v.accelerometer, w.accelerometer);
    WordsBytesDecide(v.rpy, w.rpy);
  }

  // ---------------------------------------------------------------------------------------
  // Fields
  // ---------------------------------------------------------------------------------------

  /** The accessor of a number gives `v`; an absent number is zero. */
  predicate ShowsNumber(b: seq<byte>, pos: int, id: nat, v: nat, width: nat)
    requires Readable(b, pos) && IsFieldId(id)
  {
    FieldFits(b, pos, id, width) && GetField(b, pos, id, Le(0, width)) == Le(v, width)
  }

  lemma NumberShown(b: seq<byte>, pos: int, id: nat)
    requires Readable(b, pos) && IsFieldId(id)
    ensures FieldFits(b, pos, id, 8) ==> ShowsNumber(b, pos, id, NumberField(b, pos, id), 8)
    ensures FieldFits(b, pos, id, 4) ==> ShowsNumber(b, pos, id, ShortField(b, pos, id), 4)
  {
    hide Readable, FieldOffset, Le, Slice, U32, U64;
    WordWritten(b, pos + FieldOffset(b, pos, id));
  }

  lemma ByteShown(b: seq<byte>, pos: int, id: nat)
    requires Readable(b, pos) && IsFieldId(id) && FieldFits(b, pos, id, 1)
    ensures GetField(b, pos, id, [0]) == [ByteField(b, pos, id)]
  {
    hide Readable, FieldOffset;
  }

  lemma NumberDecides(b: seq<byte>, pos: int, id: nat, v: nat, w: nat, width: nat)
    requires Readable(b, pos) && IsFieldId(id) && (width == 4 || width == 8)
    requires v < Range(width) && w < Range(width)
    requires ShowsNumber(b, pos, id, v, width) && ShowsNumber(b, pos, id, w, width)
    ensures v == w
  {
    hide Readable, FieldOffset, Le, Range;
    LeInjective(v, w, width);
  }

  ghost predicate ShowsImu(b: seq<byte>, pos: int, imu: Imu) {
    && Readable(b, pos)
    && ShowsNumber(b, pos, 4, imu.sampledUs, 8) && ShowsNumber(b, pos, 6, imu.acquiredUs, 8)
    && ShowsNumber(b, pos, 8, imu.ingestedUs, 8) && ShowsNumber(b, pos, 10, imu.assembledUs, 8)
    && FieldFits(b, pos, 12, 1) && GetField(b, pos, 12, [0]) == [imu.location]
    && FieldFits(b, pos, 16, 1) && GetField(b, pos, 16, [0]) == [imu.status]
    && (imu.state.Some? ==> FullState(imu.state.value))
    && FieldFits(b, pos, 14, IMU_SIZE)
    && GetStruct(b, pos, 14, IMU_SIZE) == if imu.state.Some? then Some(ImuStateBytes(imu.state.value)) else None
  }

  lemma StructSize(b: seq<byte>, pos: int, id: nat, width: nat)
    requires Readable(b, pos) && IsFieldId(id) && FieldFits(b, pos, id, width) && GetStruct(b, pos, id, width).Some?
    ensures |GetStruct(b, pos, id, width).value| == width
  {
  }

  lemma WholeSlice(s: seq<byte>)
    ensures Slice(s, 0, |s|) == s
  {
  }

  lemma ImuShown(b: seq<byte>, pos: nat)
    requires |b| < MAX_BUFFER && ImuOk(b, pos)
    ensures ShowsImu(b, pos, ImuAt(b, pos))
  {
    hide TableStartOk, FieldOk, FieldFits, NumberField, ByteField, ShowsNumber, GetField, ImuStateBytes, ImuStateAt,
         Slice, Readable, FieldOffset, GetStruct;
    NumberShown(b, pos, 4);
    NumberShown(b, pos, 6);
    NumberShown(b, pos, 8);
    NumberShown(b, pos, 10);
    ByteShown(b, pos, 12);
    ByteShown(b, pos, 16);
    var state := GetStruct(b, pos, 14, IMU_SIZE);
    if state.Some? {
      StructSize(b, pos, 14, IMU_SIZE);
      ImuStateWritten(state.value, 0);
      WholeSlice(state.value);
    }
  }

  lemma FieldIds()
    ensures forall id | id in {4, 6, 8, 10, 12, 14, 16, 18, 20, 22, 24, 26, 28} :: IsFieldId(id)
  {
  }

  lemma ImuDecided(b: seq<byte>, pos: int, imu: Imu, other: Imu)
    requires ShowsImu(b, pos, imu) && ShowsImu(b, pos, other)
    ensures imu == other
  {
    hide Readable, FieldFits, ShowsNumber, GetField, GetStruct, ImuStateBytes, FullState, Range, IsFieldId;
    assert IsFieldId(4) && IsFieldId(6) && IsFieldId(8) && IsFieldId(10) by { FieldIds(); }
    WordRanges();
    NumberDecides(b, pos, 4, imu.sampledUs, other.sampledUs, 8);
    NumberDecides(b, pos, 6, imu.acquiredUs, other.acquiredUs, 8);
    NumberDecides(b, pos, 8, imu.ingestedUs, other.ingestedUs, 8);
    NumberDecides(b, pos, 10, imu.assembledUs, other.assembledUs, 8);
    assert [imu.location] == [other.location] && [imu.status] == [other.status];
    assert imu.location == [imu.location][0] == [other.location][0];
    assert imu.status == [imu.status][0] == [other.status][0];
    if imu.state.Some? {
      ImuBytesDecide(imu.state.value, other.state.value);
    }
  }

  /** The place of the table that element `i` of a vector of references points to. */
  function TableOf(b: seq<byte>, vector: int, i: nat): int
    requires Fits(b, vector + 4 + 4 * i, 4)
  {
    vector + 4 + 4 * i + U32(b, vector + 4 + 4 * i)
  }

  /** The vector at `vector` holds exactly these samples. */
  ghost predicate ShowsImus(b: seq<byte>, vector: int, imus: seq<Imu>) {
    && Fits(b, vector, 4) && |imus| == U32(b, vector)
    && forall i | 0 <= i < |imus| :: Fits(b, vector + 4 + 4 * i, 4) && ShowsImu(b, TableOf(b, vector, i), imus[i])
  }

  lemma {:induction false} ImusShown(b: seq<byte>, vector: nat, n: nat, i: nat)
    requires |b| < MAX_BUFFER && VectorOk(b, vector, 4) && n <= U32(b, vector) && ImusOk(b, vector) && i < n
    ensures Fits(b, vector + 4 + 4 * i, 4) && ShowsImu(b, TableOf(b, vector, i), ImusAt(b, vector, n)[i])
  {
    hide ImuOk, ShowsImu, ImuAt, U32;
    if i < n - 1 {
      ImusShown(b, vector, n - 1, i);
    } else {
      assert ImuOk(b, Element(b, vector, i));
      ImuShown(b, Element(b, vector, i));
    }
  }

  // ---------------------------------------------------------------------------------------
  // States
  // ---------------------------------------------------------------------------------------

  ghost predicate ShowsNumbers(b: seq<byte>, pos: int, n: Numbers)
    requires Readable(b, pos)
  {
    && ShowsNumber(b, pos, 6, n.protocol, 4) && ShowsNumber(b, pos, 8, n.roster, 4) && ShowsNumber(b, pos, 10, n.id, 8)
    && ShowsNumber(b, pos, 12, n.realUs, 8) && ShowsNumber(b, pos, 14, n.pubUs, 8)
    && ShowsNumber(b, pos, 16, n.consumedUs, 8)
    && FieldFits(b, pos, 18, 1) && (GetField(b, pos, 18, [0]) != [0] <==> n.attitude)
    && ShowsNumber(b, pos, 24, n.session, 8) && ShowsNumber(b, pos, 26, n.sequence, 8)
    && ShowsNumber(b, pos, 28, n.outputUs, 8)
  }

  /** What the accessors of the schema find in the table at `pos` is the state `s`. */
  ghost predicate Shows(b: seq<byte>, pos: int, s: State) {
    && Readable(b, pos) && ShowsNumbers(b, pos, s.numbers)
    && FieldFits(b, pos, 22, 4) && FieldFits(b, pos, 20, 4)
    && (match GetPointer(b, pos, 22)
        case None => s.joints == []
        case Some(vector) => ShowsJoints(b, vector, s.joints))
    && (match GetPointer(b, pos, 20)
        case None => s.imus == []
        case Some(vector) => ShowsImus(b, vector, s.imus))
  }

  lemma NumbersShown(b: seq<byte>, pos: nat)
    requires |b| < MAX_BUFFER && StateOk(b, pos)
    ensures ShowsNumbers(b, pos, NumbersAt(b, pos))
  {
    hide TableStartOk, HeaderFieldOk, ImusFieldOk, JointsFieldOk, FieldOk, FieldFits, NumberField, ShortField,
         ByteField, ShowsNumber, GetField, Readable;
    NumberShown(b, pos, 6);
    NumberShown(b, pos, 8);
    NumberShown(b, pos, 10);
    NumberShown(b, pos, 12);
    NumberShown(b, pos, 14);
    NumberShown(b, pos, 16);
    ByteShown(b, pos, 18);
    NumberShown(b, pos, 24);
    NumberShown(b, pos, 26);
    NumberShown(b, pos, 28);
  }

  lemma JointsOfVectorShown(b: seq<byte>, vector: nat)
    requires VectorOk(b, vector, JOINT_STATE_SIZE)
    ensures ShowsJoints(b, vector, JointsAt(b, vector, U32(b, vector)))
  {
    hide JointsAt, JointStateBytes, Slice;
    forall i | 0 <= i < U32(b, vector)
      ensures Fits(b, vector + 4 + JOINT_STATE_SIZE * i, JOINT_STATE_SIZE)
      ensures Slice(b, vector + 4 + JOINT_STATE_SIZE * i, JOINT_STATE_SIZE) ==
              JointStateBytes(JointsAt(b, vector, U32(b, vector))[i])
    {
      JointsShown(b, vector, U32(b, vector), i);
    }
  }

  lemma ImusOfVectorShown(b: seq<byte>, vector: nat)
    requires |b| < MAX_BUFFER && VectorOk(b, vector, 4) && ImusOk(b, vector)
    ensures ShowsImus(b, vector, ImusAt(b, vector, U32(b, vector)))
  {
    hide ImusAt, ShowsImu;
    forall i | 0 <= i < U32(b, vector)
      ensures Fits(b, vector + 4 + 4 * i, 4)
      ensures ShowsImu(b, TableOf(b, vector, i), ImusAt(b, vector, U32(b, vector))[i])
    {
      ImusShown(b, vector, U32(b, vector), i);
    }
  }

  lemma VectorsShown(b: seq<byte>, pos: nat)
    requires Verified(b, pos)
    ensures Shows(b, pos, StateAt(b, pos))
  {
    hide TableStartOk, HeaderFieldOk, NumbersOk, LastNumbersOk, ImusOk, NumbersAt, ShowsNumbers, JointStateBytes,
         ShowsImu, Readable, FieldOffset, Slice, U32;
    NumbersShown(b, pos);
    var joints, imus := Target(b, pos, 22), Target(b, pos, 20);
    if joints.Some? {
      JointsOfVectorShown(b, joints.value);
    }
    if imus.Some? {
      ImusOfVectorShown(b, imus.value);
    }
  }

  lemma NumbersDecided(b: seq<byte>, pos: int, n: Numbers, m: Numbers)
    requires Readable(b, pos) && ShowsNumbers(b, pos, n) && ShowsNumbers(b, pos, m)
    ensures n == m
  {
    hide Readable, FieldFits, ShowsNumber, GetField, Range, IsFieldId;
    FieldIds();
    WordRanges();
    NumberDecides(b, pos, 6, n.protocol, m.protocol, 4);
    NumberDecides(b, pos, 8, n.roster, m.roster, 4);
    NumberDecides(b, pos, 10, n.id, m.id, 8);
    NumberDecides(b, pos, 12, n.realUs, m.realUs, 8);
    NumberDecides(b, pos, 14, n.pubUs, m.pubUs, 8);
    NumberDecides(b, pos, 16, n.consumedUs, m.consumedUs, 8);
    NumberDecides(b, pos, 24, n.session, m.session, 8);
    NumberDecides(b, pos, 26, n.sequence, m.sequence, 8);
    NumberDecides(b, pos, 28, n.outputUs, m.outputUs, 8);
  }

  /** No table shows two states. */
  lemma ShownStateIsUnique(b: seq<byte>, pos: int, s: State, t: State)
    requires Shows(b, pos, s) && Shows(b, pos, t)
    ensures s == t
  {
    hide ShowsNumbers, ShowsImu, JointStateBytes, Readable, FieldFits, GetPointer;
    NumbersDecided(b, pos, s.numbers, t.numbers);
    forall i | 0 <= i < |s.joints|
      ensures |s.joints| == |t.joints| && s.joints[i] == t.joints[i]
    {
      JointBytesDecide(s.joints[i], t.joints[i]);
    }
    forall i | 0 <= i < |s.imus|
      ensures |s.imus| == |t.imus| && s.imus[i] == t.imus[i]
    {
      ImuDecided(b, TableOf(b, GetPointer(b, pos, 20).value, i), s.imus[i], t.imus[i]);
    }
    assert s.joints == t.joints && s.imus == t.imus;
  }

  /** The table that a call of the decoder is about: the one at the offset it was given, or the root of the buffer. */
  function TableAsked(b: seq<byte>, offset: nat): nat
    requires offset != 0 || |b| >= 4
  {
    if offset != 0 then offset else U32(b, 0)
  }

  lemma VersionShown(b: seq<byte>, pos: nat)
    requires Verified(b, pos)
    ensures FieldFits(b, pos, 6, 4) && FieldFits(b, pos, 22, 4) && Readable(b, pos)
    ensures GetField(b, pos, 6, Le(0, 4)) == Le(2, 4) <==> ShortField(b, pos, 6) == 2
  {
    hide TableStartOk, HeaderFieldOk, ImusFieldOk, FieldFits, ShortField, GetField, Readable, Le, Range;
    NumberShown(b, pos, 6);
    WordRanges();
    if Le(ShortField(b, pos, 6), 4) == Le(2, 4) {
      LeInjective(ShortField(b, pos, 6), 2, 4);
    }
  }

  /**
   A buffer decodes to a state exactly when its table passes the verifier, is of version 2, has 31 joints or none, and
   shows that state. Each refusal has its own reason, looked at in this order.
   */
  lemma DecodedExactly(b: seq<byte>, offset: nat, s: State)
    ensures var rootless := offset == 0 && (|b| < 4 || U32(b, 0) == 0);
            var r := Decoded(b, offset);
            && (r == Err(InvalidRootOffset) <==> rootless)
            && (!rootless ==>
                  var pos := TableAsked(b, offset);
                  var placed := |b| < MAX_BUFFER && pos + 4 <= |b| && pos % 4 == 0;
                  && (r == Err(InvalidTableOffset) <==> !placed)
                  && (placed ==>
                        var passes := StateOk(b, pos) && TableCount(b, pos) <= MAX_TABLES;
                        && (r == Err(InvalidFlatBuffer) <==> !passes)
                        && (passes ==>
                              var current := GetField(b, pos, 6, Le(0, 4)) == Le(2, 4);
                              var joints := GetPointer(b, pos, 22);
                              var full := joints.Some? ==> U32(b, joints.value) == 31;
                              && (r == Err(IncompatibleVersion) <==> !current)
                              && (r == Err(WrongJointCount) <==> current && !full)
                              && (r == Ok(s) <==> current && full && Shows(b, pos, s)))))
  {
    hide StateOk, TableCount, U32, Shows, StateAt, Le, FieldOffset;
    if !(offset == 0 && (|b| < 4 || U32(b, 0) == 0)) {
      var pos := TableAsked(b, offset);
      if TableOffsetOk(b, pos) && StateOk(b, pos) && TableCount(b, pos) <= MAX_TABLES {
        VersionShown(b, pos);
        VectorsShown(b, pos);
        if Shows(b, pos, s) {
          ShownStateIsUnique(b, pos, s, StateAt(b, pos));
        }
      }
    }
  }
}
