/**
 The array form of a decoded state, and the way back from it. The native decoder flattens joints and IMU
 samples into columns; the Python side can rebuild the state from them, and gets what decoding would give.
 */
module StateArrays {
  import opened Bytes
  import opened Wrappers
  import opened Verifier
  import opened BodyStateDecoder

  const IMU_VALUES := 13

  datatype Arrays = Arrays(numbers: Numbers,
                           q: seq<Word32>, dq: seq<Word32>, tauEst: seq<Word32>, jointStamps: seq<Word64>,
                           errors: seq<Word32>,
                           imuValues: seq<Word32>, imuStamps: seq<Word64>, locations: seq<byte>, status: seq<byte>,
                           present: seq<bool>)

  const NO_ARRAYS := Arrays(Numbers(0, 0, 0, 0, 0, 0, false, 0, 0, 0), [], [], [], [], [], [], [], [], [], [])

  /** A sample with the number of values the wire has. */
  predicate FullImu(imu: Imu) {
    imu.state.Some? ==>
      && |imu.state.value.quaternion| == 4 && |imu.state.value.gyroscope| == 3
      && |imu.state.value.accelerometer| == 3 && |imu.state.value.rpy| == 3
  }

  function NoValues(): (s: seq<Word32>)
    ensures |s| == IMU_VALUES
  {
    [0, 0, 0, 0, 0, 0, 0, 0, 0, 0, 0, 0, 0]
  }

  function ImuRow(imu: Imu): (s: seq<Word32>)
    requires FullImu(imu)
    ensures |s| == IMU_VALUES
  {
    match imu.state
    case None => NoValues()
    case Some(v) => v.quaternion + v.gyroscope + v.accelerometer + v.rpy
  }

  /** One more joint in every joint column. */
  function WithJoint(a: Arrays, j: JointState): Arrays {
    a.(q := a.q + [j.q], dq := a.dq + [j.dq], tauEst := a.tauEst + [j.tauEst],
       jointStamps := a.jointStamps + [j.acquiredUs, j.ingestedUs, j.assembledUs], errors := a.errors + [j.errorCode])
  }

  /** One more sample in every IMU column; an absent state leaves a row of zeros. */
  function WithImu(a: Arrays, imu: Imu): Arrays
    requires FullImu(imu)
  {
    a.(locations := a.locations + [imu.location], status := a.status + [imu.status],
       present := a.present + [imu.state.Some?],
       imuStamps := a.imuStamps + [imu.sampledUs, imu.acquiredUs, imu.ingestedUs, imu.assembledUs],
       imuValues := a.imuValues + ImuRow(imu))
  }

  ghost predicate HoldsJoints(a: Arrays, js: seq<JointState>) {
    var n := |js|;
    && |a.q| == |a.dq| == |a.tauEst| == |a.errors| == n && |a.jointStamps| == 3 * n
    && forall i | 0 <= i < n ::
         && a.q[i] == js[i].q && a.dq[i] == js[i].dq && a.tauEst[i] == js[i].tauEst && a.errors[i] == js[i].errorCode
         && a.jointStamps[3 * i] == js[i].acquiredUs && a.jointStamps[3 * i + 1] == js[i].ingestedUs
         && a.jointStamps[3 * i + 2] == js[i].assembledUs
  }

  function Row(values: seq<Word32>, i: nat): seq<Word32>
    requires IMU_VALUES * (i + 1) <= |values|
  {
    values[IMU_VALUES * i..IMU_VALUES * (i + 1)]
  }

  ghost predicate HoldsImus(a: Arrays, imus: seq<Imu>) {
    var n := |imus|;
    && |a.locations| == |a.status| == |a.present| == n && |a.imuStamps| == 4 * n && |a.imuValues| == IMU_VALUES * n
    && forall i | 0 <= i < n ::
         && FullImu(imus[i])
         && a.locations[i] == imus[i].location && a.status[i] == imus[i].status
         && (a.present[i] <==> imus[i].state.Some?)
         && a.imuStamps[4 * i] == imus[i].sampledUs && a.imuStamps[4 * i + 1] == imus[i].acquiredUs
         && a.imuStamps[4 * i + 2] == imus[i].ingestedUs && a.imuStamps[4 * i + 3] == imus[i].assembledUs
         && Row(a.imuValues, i) == ImuRow(imus[i])
  }

  /** Row by row, the columns hold the joints and the samples of a state. */
  ghost predicate Holds(a: Arrays, s: State) {
    && a.numbers == s.numbers
    && HoldsJoints(a, s.joints)
    && HoldsImus(a, s.imus)
  }

  lemma JointHeld(a: Arrays, js: seq<JointState>, j: JointState)
    requires HoldsJoints(a, js)
    ensures HoldsJoints(WithJoint(a, j), js + [j])
  {
    var b, n := WithJoint(a, j), |js|;
    forall i | 0 <= i < n
      ensures b.jointStamps[3 * i] == a.jointStamps[3 * i] && b.jointStamps[3 * i + 1] == a.jointStamps[3 * i + 1]
      ensures b.jointStamps[3 * i + 2] == a.jointStamps[3 * i + 2]
    {
    }
  }

  lemma RowKept(values: seq<Word32>, more: seq<Word32>, n: nat, i: nat)
    requires |values| == IMU_VALUES * n && |more| == IMU_VALUES && i <= n
    ensures Row(values + more, i) == if i < n then Row(values, i) else more
  {
    if i < n {
      assert IMU_VALUES * (i + 1) <= IMU_VALUES * n;
    }
  }

  lemma ImuHeld(a: Arrays, imus: seq<Imu>, imu: Imu)
    requires HoldsImus(a, imus) && FullImu(imu)
    ensures HoldsImus(WithImu(a, imu), imus + [imu])
  {
    var b, n := WithImu(a, imu), |imus|;
    hide ImuRow, FullImu, Row;
    forall i | 0 <= i < n + 1
      ensures FullImu((imus + [imu])[i]) && Row(b.imuValues, i) == ImuRow((imus + [imu])[i])
    {
      RowKept(a.imuValues, ImuRow(imu), n, i);
      if i < n {
        assert FullImu(imus[i]);
      }
    }
  }

  method FlattenJoints(a0: Arrays, js: seq<JointState>) returns (a: Arrays)
    requires HoldsJoints(a0, [])
    ensures HoldsJoints(a, js)
    ensures a == a0.(q := a.q, dq := a.dq, tauEst := a.tauEst, jointStamps := a.jointStamps, errors := a.errors)
  {
    hide HoldsJoints;
    a := a0;
    var i := 0;
    while i < |js|
      invariant 0 <= i <= |js| && HoldsJoints(a, js[..i])
      invariant a == a0.(q := a.q, dq := a.dq, tauEst := a.tauEst, jointStamps := a.jointStamps, errors := a.errors)
    {
      JointHeld(a, js[..i], js[i]);
      assert js[..i] + [js[i]] == js[..i + 1];
      a := WithJoint(a, js[i]);
      i := i + 1;
    }
    assert js[..i] == js;
  }

  method FlattenImus(a0: Arrays, imus: seq<Imu>) returns (a: Arrays)
    requires HoldsImus(a0, []) && forall imu | imu in imus :: FullImu(imu)
    ensures HoldsImus(a, imus)
    ensures a == a0.(imuValues := a.imuValues, imuStamps := a.imuStamps, locations := a.locations,
                     status := a.status, present := a.present)
  {
    hide HoldsImus, FullImu, ImuRow;
    a := a0;
    var i := 0;
    while i < |imus|
      invariant 0 <= i <= |imus| && HoldsImus(a, imus[..i])
      invariant a == a0.(imuValues := a.imuValues, imuStamps := a.imuStamps, locations := a.locations,
                         status := a.status, present := a.present)
    {
      ImuHeld(a, imus[..i], imus[i]);
      assert imus[..i] + [imus[i]] == imus[..i + 1];
      a := WithImu(a, imus[i]);
      i := i + 1;
    }
    assert imus[..i] == imus;
  }

  lemma {:induction false} ImusFull(b: seq<byte>, vector: nat, n: nat)
    requires |b| < MAX_BUFFER && VectorOk(b, vector, 4) && n <= U32(b, vector) && ImusOk(b, vector)
    ensures forall imu | imu in ImusAt(b, vector, n) :: FullImu(imu)
  {
    if n > 0 {
      ImusFull(b, vector, n - 1);
      assert FullImu(ImuAt(b, Element(b, vector, n - 1)));
      hide ImuAt, FullImu, VectorOk, ImusOk;
    }
  }

  lemma DecodedFull(b: seq<byte>, offset: nat)
    ensures Decoded(b, offset).Ok? ==> forall imu | imu in Decoded(b, offset).value.imus :: FullImu(imu)
  {
    if Decoded(b, offset).Ok? {
      var pos := TableToDecode(b, offset).value;
      var imus := Target(b, pos, 20);
      if imus.Some? {
        ImusFull(b, imus.value, U32(b, imus.value));
      }
      hide FullImu, StateOk, ImusAt, JointsAt, U32;
    }
  }

  /** Decodes into columns: the same buffers as `ReadState`, with the same errors. */
  method DecodeArrays(b: seq<byte>, offset: nat) returns (r: Result<Arrays, DecodeError>)
    ensures match Decoded(b, offset)
            case Err(e) => r == Err(e)
            case Ok(s) => r.Ok? && Holds(r.value, s)
  {
    var state := ReadState(b, offset);
    if state.Err? {
      return Err(state.error);
    }
    DecodedFull(b, offset);
    var none := NO_ARRAYS.(numbers := state.value.numbers);
    assert HoldsJoints(none, []) && HoldsImus(none, []);
    hide Decoded, FullImu;
    var joints := FlattenJoints(none, state.value.joints);
    assert HoldsImus(joints, []);
    hide HoldsImus;
    var a := FlattenImus(joints, state.value.imus);
    r := Ok(a);
  }

  // ---------------------------------------------------------------------------------------
  // The way back
  // ---------------------------------------------------------------------------------------

  predicate JointRows(a: Arrays) {
    |a.q| == |a.dq| == |a.tauEst| == |a.errors| && |a.jointStamps| == 3 * |a.q|
  }

  predicate ImuRows(a: Arrays) {
    && |a.locations| == |a.status| == |a.present|
    && |a.imuStamps| == 4 * |a.locations| && |a.imuValues| == IMU_VALUES * |a.locations|
  }

  function JointRow(a: Arrays, i: nat): JointState
    requires JointRows(a) && i < |a.q|
  {
    JointState(a.jointStamps[3 * i], a.jointStamps[3 * i + 1], a.jointStamps[3 * i + 2], a.q[i], a.dq[i], a.tauEst[i],
               a.errors[i])
  }

  function Joints(a: Arrays): (js: seq<JointState>)
    requires JointRows(a)
  {
    seq(|a.q|, i requires 0 <= i < |a.q| => JointRow(a, i))
  }

  function ImuOf(values: seq<Word32>): ImuState
    requires |values| == IMU_VALUES
  {
    ImuState(values[0..4], values[4..7], values[7..10], values[10..13])
  }

  function ImuRowState(a: Arrays, i: nat): Imu
    requires ImuRows(a) && i < |a.locations|
  {
    Imu(a.locations[i], a.status[i], a.imuStamps[4 * i], a.imuStamps[4 * i + 1], a.imuStamps[4 * i + 2],
        a.imuStamps[4 * i + 3],
        if a.present[i] then Some(ImuOf(Row(a.imuValues, i))) else None)
  }

  method ImuStates(a: Arrays) returns (imus: seq<Imu>)
    requires ImuRows(a)
    ensures |imus| == |a.locations| && forall i | 0 <= i < |imus| :: imus[i] == ImuRowState(a, i)
  {
    imus := [];
    var i := 0;
    while i < |a.locations|
      invariant 0 <= i <= |a.locations| == |a.status| == |a.present|
      invariant |imus| == i && forall k | 0 <= k < i :: imus[k] == ImuRowState(a, k)
    {
      imus := imus + [ImuRowState(a, i)];
      i := i + 1;
    }
  }

  /** The state rebuilt from the columns. */
  method BodyState(a: Arrays) returns (s: State)
    requires JointRows(a) && ImuRows(a)
    ensures s.numbers == a.numbers && s.joints == Joints(a)
    ensures |s.imus| == |a.locations| && forall i | 0 <= i < |s.imus| :: s.imus[i] == ImuRowState(a, i)
  {
    var imus := ImuStates(a);
    s := State(a.numbers, Joints(a), imus);
  }

  lemma JointsRebuilt(a: Arrays, js: seq<JointState>)
    requires HoldsJoints(a, js)
    ensures JointRows(a) && Joints(a) == js
  {
    forall i | 0 <= i < |js|
      ensures JointRow(a, i) == js[i]
    {
    }
    hide JointRow;
  }

  lemma RowParts(q: seq<Word32>, gyro: seq<Word32>, acc: seq<Word32>, rpy: seq<Word32>)
    requires |q| == 4 && |gyro| == 3 && |acc| == 3 && |rpy| == 3
    ensures var row := q + gyro + acc + rpy;
            row[0..4] == q && row[4..7] == gyro && row[7..10] == acc && row[10..13] == rpy
  {
    var row := q + gyro + acc + rpy;
    assert row[..7] == q + gyro && row[7..] == acc + rpy;
    assert row[4..7] == row[..7][4..] && row[7..10] == row[7..][..3] && row[10..13] == row[7..][3..];
  }

  lemma ImuRebuilt(a: Arrays, imus: seq<Imu>, i: nat)
    requires HoldsImus(a, imus) && i < |imus|
    ensures ImuRows(a) && ImuRowState(a, i) == imus[i]
  {
    var row := Row(a.imuValues, i);
    assert FullImu(imus[i]) && row == ImuRow(imus[i]);
    if imus[i].state.Some? {
      var v := imus[i].state.value;
      RowParts(v.quaternion, v.gyroscope, v.accelerometer, v.rpy);
    }
  }

  /** Columns that hold a state determine it: rebuilding gives exactly that state, absent samples included. */
  lemma RebuiltStateIsDecoded(a: Arrays, s: State, rebuilt: State)
    requires Holds(a, s)
    requires JointRows(a) && ImuRows(a) && rebuilt.numbers == a.numbers && rebuilt.joints == Joints(a)
    requires |rebuilt.imus| == |a.locations|
    requires forall i | 0 <= i < |rebuilt.imus| :: rebuilt.imus[i] == ImuRowState(a, i)
    ensures rebuilt == s
  {
    JointsRebuilt(a, s.joints);
    forall i | 0 <= i < |s.imus|
      ensures rebuilt.imus[i] == s.imus[i]
    {
      ImuRebuilt(a, s.imus, i);
    }
    hide ImuRowState, HoldsJoints, Joints;
    assert rebuilt.imus == s.imus;
  }

  /** Decoding into columns and rebuilding is decoding, for every buffer and every offset. */
  method DecodeThroughArrays(b: seq<byte>, offset: nat) returns (r: Result<State, DecodeError>)
    ensures r == Decoded(b, offset)
  {
    var a := DecodeArrays(b, offset);
    if a.Err? {
      return Err(a.error);
    }
    ghost var s := Decoded(b, offset).value;
    hide Decoded, Joints, ImuRowState;
    assert JointRows(a.value) && ImuRows(a.value);
    var rebuilt := BodyState(a.value);
    RebuiltStateIsDecoded(a.value, s, rebuilt);
    r := Ok(rebuilt);
  }

  // ---------------------------------------------------------------------------------------
  // What stands in the columns
  // ---------------------------------------------------------------------------------------

  lemma RowElement(values: seq<Word32>, i: nat, k: nat)
    requires IMU_VALUES * (i + 1) <= |values| && k < IMU_VALUES
    ensures Row(values, i)[k] == values[IMU_VALUES * i + k]
  {
  }

  lemma RowElements(v: ImuState, k: nat)
    requires |v.quaternion| == 4 && |v.gyroscope| == 3 && |v.accelerometer| == 3 && |v.rpy| == 3 && k < IMU_VALUES
    ensures var row := v.quaternion + v.gyroscope + v.accelerometer + v.rpy;
            row[k] == if k < 4 then v.quaternion[k] else if k < 7 then v.gyroscope[k - 4]
                      else if k < 10 then v.accelerometer[k - 7] else v.rpy[k - 10]
  {
  }

  /** The thirteen values of a sample: its quaternion and three vectors, or zeros for a sample without a state. */
  lemma ImuColumnsExactly(a: Arrays, imus: seq<Imu>, i: nat, k: nat)
    requires HoldsImus(a, imus) && i < |imus| && k < IMU_VALUES
    ensures IMU_VALUES * i + k < |a.imuValues|
    ensures a.imuValues[IMU_VALUES * i + k] ==
            match imus[i].state
            case None => 0
            case Some(v) =>
              if k < 4 then v.quaternion[k] else if k < 7 then v.gyroscope[k - 4]
              else if k < 10 then v.accelerometer[k - 7] else v.rpy[k - 10]
  {
    assert Row(a.imuValues, i) == ImuRow(imus[i]) && FullImu(imus[i]);
    assert IMU_VALUES * (i + 1) <= IMU_VALUES * |imus|;
    RowElement(a.imuValues, i, k);
    hide Row;
    if imus[i].state.Some? {
      RowElements(imus[i].state.value, k);
    }
  }
}
