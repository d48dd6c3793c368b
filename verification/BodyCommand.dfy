/**
 The wire form of a body command: the order in which the encoder builds it, and the readers of a finished
 message. Floating-point values are opaque 32-bit words.
 */
module BodyCommand {
  import opened BodyShape
  import opened Bytes
  import opened Tables
  import opened Wrappers
  import opened BuilderModel
  import opened BuilderLayout
  import opened BulkReader

  datatype Joint = Joint(q: Word32, dq: Word32, tau: Word32, kp: Word32, kd: Word32)
  datatype Quat = Quat(w: Word32, x: Word32, y: Word32, z: Word32)

  datatype Command = Command(protocol: Word32, session: Word64, sequence: Word64, inputStateId: Word64,
                             inputStateRealUs: Word64, clientCreatedUs: Word64, clientSendUs: Word64,
                             joints: seq<Joint>, action: byte, rootQuat: Option<Quat>)

  datatype EncodeError = WrongJointCount

  datatype Header = Header(stampNs: Word64, node: seq<byte>, sequence: Word64)

  // ---------------------------------------------------------------------------------------
  // Building
  // ---------------------------------------------------------------------------------------

  function JointBytes(j: Joint): (s: seq<byte>)
    ensures |s| == JOINT_COMMAND_SIZE
  {
    Le(j.q, 4) + Le(j.dq, 4) + Le(j.tau, 4) + Le(j.kp, 4) + Le(j.kd, 4)
  }

  function JointsBytes(js: seq<Joint>): (s: seq<byte>)
    ensures |s| == JOINT_COMMAND_SIZE * |js|
  {
    if js == [] then [] else JointBytes(js[0]) + JointsBytes(js[1..])
  }

  function QuatBytes(q: Quat): (s: seq<byte>)
    ensures |s| == 16
  {
    Le(q.w, 4) + Le(q.x, 4) + Le(q.y, 4) + Le(q.z, 4)
  }

  function Number(id: nat, value: nat, width: nat): Field {
    Scalar(id, Le(value, width), Le(0, width), false)
  }

  function HeaderFields(h: Header, node: nat): seq<Field> {
    [Number(4, h.stampNs, 8), Reference(6, node), Number(8, h.sequence, 8)]
  }

  /** The fields of the command, in the order the encoder adds them. The action is stored even at its default. */
  function CommandFields(c: Command, header: nat, joints: nat): seq<Field> {
    [Reference(4, header), Reference(20, joints), Number(6, c.protocol, 4), Number(8, c.session, 8),
     Number(10, c.sequence, 8), Number(12, c.inputStateId, 8), Number(14, c.inputStateRealUs, 8),
     Number(16, c.clientCreatedUs, 8), Number(18, c.clientSendUs, 8), Scalar(22, [c.action], [18], true),
     Struct(24, if c.rootQuat.Some? then Some(QuatBytes(c.rootQuat.value)) else None, 4)]
  }

  lemma HeaderWellFormed(h: Header, node: nat, size: nat)
    requires node <= size
    ensures AllWellFormed(HeaderFields(h, node), size)
  {
  }

  lemma NumberWellFormed(id: nat, value: nat, width: nat, size: nat)
    requires IsFieldId(id) && IsAlignment(width)
    ensures WellFormed(Number(id, value, width), size)
  {
  }

  lemma CommandWellFormed(c: Command, header: nat, joints: nat, size: nat)
    requires header <= size && joints <= size
    ensures AllWellFormed(CommandFields(c, header, joints), size)
  {
    var fs := CommandFields(c, header, joints);
    assert WellFormed(fs[0], size) && WellFormed(fs[1], size) && WellFormed(fs[9], size) && WellFormed(fs[10], size);
    NumberWellFormed(6, c.protocol, 4, size);
    NumberWellFormed(8, c.session, 8, size);
    NumberWellFormed(10, c.sequence, 8, size);
    NumberWellFormed(12, c.inputStateId, 8, size);
    NumberWellFormed(14, c.inputStateRealUs, 8, size);
    NumberWellFormed(16, c.clientCreatedUs, 8, size);
    NumberWellFormed(18, c.clientSendUs, 8, size);
    hide WellFormed, Number, QuatBytes;
  }

  /** The name of the publisher, unless it is empty. */
  function WithNode(h: Header): Builder {
    if h.node == [] then EMPTY else CreatedString(EMPTY, h.node)
  }

  /** The offset of the name; zero is the null reference. */
  function NodeOffset(h: Header): nat {
    if h.node == [] then 0 else |WithNode(h).data|
  }

  function WithHeader(h: Header): Builder {
    HeaderWellFormed(h, NodeOffset(h), |WithNode(h).data|);
    TableOf(WithNode(h), HeaderFields(h, NodeOffset(h)))
  }

  function HeaderOffset(h: Header): nat {
    HeaderWellFormed(h, NodeOffset(h), |WithNode(h).data|);
    TableOffset(AllPlaced(WithNode(h), HeaderFields(h, NodeOffset(h))))
  }

  function WithJoints(c: Command, h: Header): Builder {
    CreatedVector(WithHeader(h), JointsBytes(c.joints), |c.joints|, 4)
  }

  function WithCommand(c: Command, h: Header): Builder {
    var b := WithJoints(c, h);
    CommandWellFormed(c, HeaderOffset(h), |b.data|, |b.data|);
    TableOf(b, CommandFields(c, HeaderOffset(h), |b.data|))
  }

  function CommandOffset(c: Command, h: Header): nat {
    var b := WithJoints(c, h);
    CommandWellFormed(c, HeaderOffset(h), |b.data|, |b.data|);
    TableOffset(AllPlaced(b, CommandFields(c, HeaderOffset(h), |b.data|)))
  }

  lemma BuiltJoints(c: Command, h: Header)
    ensures IsAlignment(WithJoints(c, h).minAlign) && Idle(WithJoints(c, h))
    ensures HeaderOffset(h) <= |WithJoints(c, h).data|
  {
    HeaderWellFormed(h, NodeOffset(h), |WithNode(h).data|);
    TableMinAlign(WithNode(h), HeaderFields(h, NodeOffset(h)));
    hide AllPlaced, NewVTable, Shared, WellFormed, HeaderFields, NodeOffset, WithNode;
  }

  lemma BuiltCommand(c: Command, h: Header)
    ensures IsAlignment(WithCommand(c, h).minAlign)
    ensures var b := WithCommand(c, h); CommandOffset(c, h) <= |Aligned(PreAligned(b, 4, b.minAlign), 4).data|
  {
    BuiltJoints(c, h);
    var b := WithJoints(c, h);
    CommandWellFormed(c, HeaderOffset(h), |b.data|, |b.data|);
    hide WithJoints, AllPlaced, NewVTable, Shared, WellFormed, CommandFields, HeaderOffset, Padding;
    TableMinAlign(b, CommandFields(c, HeaderOffset(h), |b.data|));
  }

  /** The message of a command: it is refused unless there is one joint for every slot. */
  function Encoded(c: Command, h: Header): Result<seq<byte>, EncodeError> {
    if |c.joints| != SLOTS then Err(WrongJointCount)
    else
      BuiltCommand(c, h);
      Ok(Finished(WithCommand(c, h), CommandOffset(c, h)).data)
  }

  function Message(c: Command, h: Header): seq<byte>
    requires |c.joints| == SLOTS
  {
    Encoded(c, h).value
  }

  /** The asserted bound of the builder: the message stays below 2 GiB. Only the name of the node is unbounded. */
  predicate MessageFits(c: Command, h: Header) {
    |c.joints| == SLOTS && |Message(c, h)| < TWO_TO_THE_31
  }

  // ---------------------------------------------------------------------------------------
  // Reading
  // ---------------------------------------------------------------------------------------

  function JointOf(s: seq<byte>): Joint
    requires |s| == JOINT_COMMAND_SIZE
  {
    Joint(U32(s, 0), U32(s, 4), U32(s, 8), U32(s, 12), U32(s, 16))
  }

  /** One joint after another, as far as whole joints go. */
  function JointsOf(s: seq<byte>): seq<Joint> {
    if |s| < JOINT_COMMAND_SIZE then [] else [JointOf(s[..JOINT_COMMAND_SIZE])] + JointsOf(s[JOINT_COMMAND_SIZE..])
  }

  function QuatOf(s: seq<byte>): Quat
    requires |s| == 16
  {
    Quat(U32(s, 0), U32(s, 4), U32(s, 8), U32(s, 12))
  }

  /** Every field that the accessors of a command read lies in the buffer. */
  predicate CommandFits(b: seq<byte>, pos: int) {
    && Readable(b, pos)
    && FieldFits(b, pos, 4, 4) && FieldFits(b, pos, 6, 4) && FieldFits(b, pos, 8, 8) && FieldFits(b, pos, 10, 8)
    && FieldFits(b, pos, 12, 8) && FieldFits(b, pos, 14, 8) && FieldFits(b, pos, 16, 8) && FieldFits(b, pos, 18, 8)
    && FieldFits(b, pos, 22, 1) && FieldFits(b, pos, 24, 16)
  }

  function U32Field(b: seq<byte>, pos: int, id: nat): Word32
    requires Readable(b, pos) && IsFieldId(id) && FieldFits(b, pos, id, 4)
  {
    U32(GetField(b, pos, id, Le(0, 4)), 0)
  }

  function U64Field(b: seq<byte>, pos: int, id: nat): Word64
    requires Readable(b, pos) && IsFieldId(id) && FieldFits(b, pos, id, 8)
  {
    assert Range(8) == 0x1_0000_0000_0000_0000 by { assert Range(4) == TWO_TO_THE_32; }
    Word(GetField(b, pos, id, Le(0, 8)))
  }

  /** The accessors of a command, with the joints read in bulk. */
  function ReadCommand(b: seq<byte>, pos: int): Result<Command, ReadError>
    requires CommandFits(b, pos)
  {
    var action := GetField(b, pos, 22, [18])[0];
    var quat := GetStruct(b, pos, 24, 16);
    match VectorFieldData(b, pos, 20, JOINT_COMMAND_SIZE, 4)
    case Err(e) => Err(e)
    case Ok(rows) =>
      Ok(Command(U32Field(b, pos, 6), U64Field(b, pos, 8), U64Field(b, pos, 10), U64Field(b, pos, 12),
                 U64Field(b, pos, 14), U64Field(b, pos, 16), U64Field(b, pos, 18),
                 if rows.Some? then JointsOf(rows.value) else [], action,
                 if quat.Some? then Some(QuatOf(quat.value)) else None))
  }

  predicate HeaderFits(b: seq<byte>, pos: int) {
    && Readable(b, pos)
    && FieldFits(b, pos, 4, 8) && FieldFits(b, pos, 6, 4) && FieldFits(b, pos, 8, 8)
    && var name := GetPointer(b, pos, 6);
       name.Some? ==> Fits(b, name.value, 4) && Fits(b, name.value + 4, U32(b, name.value))
  }

  function ReadHeader(b: seq<byte>, pos: int): Header
    requires HeaderFits(b, pos)
  {
    var name := GetPointer(b, pos, 6);
    Header(U64Field(b, pos, 4), if name.Some? then Slice(b, name.value + 4, U32(b, name.value)) else [],
           U64Field(b, pos, 8))
  }
}
