/** An encoded body command reads back as it was, through the accessors and through the bulk reader. */
module CommandRoundTrip {
  import opened BodyShape
  import opened Bytes
  import opened Tables
  import opened Wrappers
  import opened BuilderModel
  import opened BuilderLayout
  import opened TableRoundTrip
  import opened BulkReader
  import opened BodyCommand

  // ---------------------------------------------------------------------------------------
  // Joints
  // ---------------------------------------------------------------------------------------

  /** A run of 32-bit words, cut into its words. */
  lemma WordsParts(a: seq<byte>, word: seq<byte>, b: seq<byte>)
    ensures Slice(a + word + b, |a|, |word|) == word
  {
  }

  lemma JointParts(j: Joint)
    ensures var s := JointBytes(j);
            && Slice(s, 0, 4) == Le(j.q, 4) && Slice(s, 4, 4) == Le(j.dq, 4) && Slice(s, 8, 4) == Le(j.tau, 4)
            && Slice(s, 12, 4) == Le(j.kp, 4) && Slice(s, 16, 4) == Le(j.kd, 4)
  {
    hide Slice, Le;
    var s := JointBytes(j);
    var q, dq, tau, kp, kd := Le(j.q, 4), Le(j.dq, 4), Le(j.tau, 4), Le(j.kp, 4), Le(j.kd, 4);
    assert s == [] + q + (dq + tau + kp + kd);
    WordsParts([], q, dq + tau + kp + kd);
    assert s == q + dq + (tau + kp + kd);
    WordsParts(q, dq, tau + kp + kd);
    assert s == (q + dq) + tau + (kp + kd);
    WordsParts(q + dq, tau, kp + kd);
    WordsParts(q + dq + tau, kp, kd);
    assert s == (q + dq + tau + kp) + kd + [];
    WordsParts(q + dq + tau + kp, kd, []);
  }

  lemma JointReads(j: Joint)
    ensures JointOf(JointBytes(j)) == j
  {
    JointParts(j);
    hide JointBytes, Slice, Le;
    var s := JointBytes(j);
    U32OfLe(s, 0, j.q);
    U32OfLe(s, 4, j.dq);
    U32OfLe(s, 8, j.tau);
    U32OfLe(s, 12, j.kp);
    U32OfLe(s, 16, j.kd);
  }

  lemma QuatParts(q: Quat)
    ensures var s := QuatBytes(q);
            && Slice(s, 0, 4) == Le(q.w, 4) && Slice(s, 4, 4) == Le(q.x, 4)
            && Slice(s, 8, 4) == Le(q.y, 4) && Slice(s, 12, 4) == Le(q.z, 4)
  {
    hide Slice, Le;
    var s := QuatBytes(q);
    var w, x, y, z := Le(q.w, 4), Le(q.x, 4), Le(q.y, 4), Le(q.z, 4);
    assert s == [] + w + (x + y + z);
    WordsParts([], w, x + y + z);
    assert s == w + x + (y + z);
    WordsParts(w, x, y + z);
    WordsParts(w + x, y, z);
    assert s == (w + x + y) + z + [];
    WordsParts(w + x + y, z, []);
  }

  lemma QuatReads(q: Quat)
    ensures QuatOf(QuatBytes(q)) == q
  {
    QuatParts(q);
    hide QuatBytes, Slice, Le;
    var s := QuatBytes(q);
    U32OfLe(s, 0, q.w);
    U32OfLe(s, 4, q.x);
    U32OfLe(s, 8, q.y);
    U32OfLe(s, 12, q.z);
  }

  lemma {:induction false} JointsRead(js: seq<Joint>)
    ensures JointsOf(JointsBytes(js)) == js
  {
    if js != [] {
      var s := JointsBytes(js);
      assert s[..JOINT_COMMAND_SIZE] == JointBytes(js[0]) && s[JOINT_COMMAND_SIZE..] == JointsBytes(js[1..]);
      JointReads(js[0]);
      JointsRead(js[1..]);
    }
  }

  // ---------------------------------------------------------------------------------------
  // The layers of the message
  // ---------------------------------------------------------------------------------------

  lemma TableExtends(b: Builder, fs: seq<Field>)
    requires Idle(b) && AllWellFormed(fs, |b.data|)
    ensures Extends(b.data, TableOf(b, fs).data) && TableOffset(AllPlaced(b, fs)) <= |TableOf(b, fs).data|
  {
    AllPlacedExtends(b, fs);
    var p := AllPlaced(b, fs);
    var _ := EndedTableShape(p, |b.data|);
    ExtendsTransitive(b.data, p.data, TableOf(b, fs).data);
  }

  lemma HeaderExtends(h: Header)
    ensures Extends(WithNode(h).data, WithHeader(h).data) && HeaderOffset(h) <= |WithHeader(h).data|
  {
    HeaderWellFormed(h, NodeOffset(h), |WithNode(h).data|);
    TableExtends(WithNode(h), HeaderFields(h, NodeOffset(h)));
  }

  lemma JointsExtend(c: Command, h: Header)
    requires |c.joints| == SLOTS
    ensures var b := WithJoints(c, h);
            && Extends(WithHeader(h).data, b.data) && |b.data| % 4 == 0
            && Stands(b.data, |b.data|, Le(SLOTS, 4) + JointsBytes(c.joints))
  {
    hide WithHeader;
    VectorStands(WithHeader(h), JointsBytes(c.joints), SLOTS, 4);
  }

  lemma CommandExtends(c: Command, h: Header)
    ensures Extends(WithJoints(c, h).data, WithCommand(c, h).data) && CommandOffset(c, h) <= |WithCommand(c, h).data|
    ensures IsAlignment(WithCommand(c, h).minAlign) && WithCommand(c, h).minAlign >= 4
  {
    BuiltJoints(c, h);
    var b := WithJoints(c, h);
    CommandWellFormed(c, HeaderOffset(h), |b.data|, |b.data|);
    TableExtends(b, CommandFields(c, HeaderOffset(h), |b.data|));
    TableMinAlign(b, CommandFields(c, HeaderOffset(h), |b.data|));
  }

  lemma MessageExtends(c: Command, h: Header)
    requires MessageFits(c, h)
    ensures var data := Message(c, h);
            && Extends(WithCommand(c, h).data, data) && |data| >= 4 && |data| % 4 == 0
            && U32(data, 0) == Place(data, CommandOffset(c, h))
  {
    CommandExtends(c, h);
    FinishedStands(WithCommand(c, h), CommandOffset(c, h));
    Divides(|Message(c, h)|, 4, WithCommand(c, h).minAlign);
  }

  // ---------------------------------------------------------------------------------------
  // Fields
  // ---------------------------------------------------------------------------------------

  lemma CommandIds(c: Command, header: nat, joints: nat)
    ensures var ids := [4, 20, 6, 8, 10, 12, 14, 16, 18, 22, 24];
            && |CommandFields(c, header, joints)| == 11
            && forall i | 0 <= i < 11 :: CommandFields(c, header, joints)[i].id == ids[i]
    ensures forall i | 0 <= i < 11 :: WidthOf(CommandFields(c, header, joints)[i]) <= 16
  {
    hide Le, QuatBytes;
  }

  lemma CommandDistinct(c: Command, header: nat, joints: nat)
    ensures Distinct(CommandFields(c, header, joints))
    ensures forall i | 0 <= i < 11 :: WidthOf(CommandFields(c, header, joints)[i]) <= 16
  {
    hide CommandFields, WidthOf;
    CommandIds(c, header, joints);
  }

  /** The fields of the command as it is built, and the place of its table in the message. */
  function FieldsOf(c: Command, h: Header): seq<Field> {
    CommandFields(c, HeaderOffset(h), |WithJoints(c, h).data|)
  }

  function TableOfMessage(c: Command, h: Header): int
    requires |c.joints| == SLOTS
  {
    Place(Message(c, h), CommandOffset(c, h))
  }

  lemma CommandTable(c: Command, h: Header)
    requires MessageFits(c, h)
    ensures var b, fs := WithJoints(c, h), FieldsOf(c, h);
            && Idle(b) && |fs| == 11 && AllWellFormed(fs, |b.data|) && Distinct(fs) && TableFits(b, fs)
            && NewTable(b, fs) == CommandOffset(c, h) && Extends(TableOf(b, fs).data, Message(c, h))
  {
    var b, fs := WithJoints(c, h), FieldsOf(c, h);
    BuiltJoints(c, h);
    MessageExtends(c, h);
    CommandDistinct(c, HeaderOffset(h), |b.data|);
    CommandWellFormed(c, HeaderOffset(h), |b.data|, |b.data|);
    assert WithCommand(c, h) == TableOf(b, fs);
    hide WithJoints, WithHeader, HeaderOffset, WellFormed, Message, TableOf, Distinct, WithCommand;
    SmallTableFits(b, fs);
  }

  lemma CommandFieldReads(c: Command, h: Header, i: nat)
    requires MessageFits(c, h) && i < 11
    ensures |FieldsOf(c, h)| == 11 && WellFormed(FieldsOf(c, h)[i], |WithJoints(c, h).data|)
    ensures ReadsBack(Message(c, h), TableOfMessage(c, h), FieldsOf(c, h)[i])
    ensures LiesInTable(Message(c, h), TableOfMessage(c, h), FieldsOf(c, h)[i])
  {
    CommandTable(c, h);
    hide WithJoints, FieldsOf, Message, CommandOffset, TableFits, TableOf, NewTable, Distinct, Idle, AllWellFormed,
         WellFormed, LiesInTable, ReadsBack, Extends;
    FieldRoundTrip(WithJoints(c, h), FieldsOf(c, h), i, Message(c, h));
    FieldLiesInTable(WithJoints(c, h), FieldsOf(c, h), i, Message(c, h));
  }

  lemma Number4Reads(data: seq<byte>, pos: int, id: nat, v: Word32)
    requires IsFieldId(id) && ReadsBack(data, pos, Number(id, v, 4))
    ensures FieldFits(data, pos, id, 4) && U32Field(data, pos, id) == v
  {
    hide Readable, FieldOffset, Le;
    assert Slice(Le(v, 4), 0, 4) == Le(v, 4);
    U32OfLe(Le(v, 4), 0, v);
  }

  lemma Number8Reads(data: seq<byte>, pos: int, id: nat, v: Word64)
    requires IsFieldId(id) && ReadsBack(data, pos, Number(id, v, 8))
    ensures FieldFits(data, pos, id, 8) && U64Field(data, pos, id) == v
  {
    assert Range(8) == 0x1_0000_0000_0000_0000 by { assert Range(4) == TWO_TO_THE_32; }
    hide Readable, FieldOffset, Le, Range;
    WordOfLe(v, 8);
  }

  lemma CommandNumber(c: Command, h: Header, i: nat, id: nat, v: nat, width: nat)
    requires MessageFits(c, h) && 2 <= i < 9 && IsFieldId(id)
    requires |FieldsOf(c, h)| == 11 && FieldsOf(c, h)[i] == Number(id, v, width)
    requires (width == 4 && v < TWO_TO_THE_32) || (width == 8 && v < 0x1_0000_0000_0000_0000)
    ensures var b, pos := Message(c, h), TableOfMessage(c, h);
            && Readable(b, pos) && FieldFits(b, pos, id, width)
            && (if width == 4 then U32Field(b, pos, id) else U64Field(b, pos, id)) == v
  {
    CommandFieldReads(c, h, i);
    var b, pos := Message(c, h), TableOfMessage(c, h);
    assert Readable(b, pos);
    hide ReadsBack, Readable, Message, FieldsOf, TableOfMessage, U64Field, U32Field, FieldFits, Number, LiesInTable,
         WithJoints, WellFormed;
    if width == 4 {
      Number4Reads(b, pos, id, v);
    } else {
      Number8Reads(b, pos, id, v);
    }
  }

  lemma NumberFields(c: Command, h: Header)
    ensures var fs := FieldsOf(c, h);
            && |fs| == 11
            && fs[2] == Number(6, c.protocol, 4) && fs[3] == Number(8, c.session, 8)
            && fs[4] == Number(10, c.sequence, 8) && fs[5] == Number(12, c.inputStateId, 8)
            && fs[6] == Number(14, c.inputStateRealUs, 8) && fs[7] == Number(16, c.clientCreatedUs, 8)
            && fs[8] == Number(18, c.clientSendUs, 8)
  {
    hide HeaderOffset, WithJoints, Number, QuatBytes;
  }

  lemma NumbersRead(c: Command, h: Header)
    requires MessageFits(c, h)
    ensures var b, pos := Message(c, h), TableOfMessage(c, h);
            && Readable(b, pos)
            && FieldFits(b, pos, 6, 4) && FieldFits(b, pos, 8, 8) && FieldFits(b, pos, 10, 8)
            && FieldFits(b, pos, 12, 8)
            && FieldFits(b, pos, 14, 8) && FieldFits(b, pos, 16, 8) && FieldFits(b, pos, 18, 8)
            && U32Field(b, pos, 6) == c.protocol && U64Field(b, pos, 8) == c.session
            && U64Field(b, pos, 10) == c.sequence && U64Field(b, pos, 12) == c.inputStateId
            && U64Field(b, pos, 14) == c.inputStateRealUs && U64Field(b, pos, 16) == c.clientCreatedUs
            && U64Field(b, pos, 18) == c.clientSendUs
  {
    NumberFields(c, h);
    assert IsFieldId(6) && IsFieldId(8) && IsFieldId(10) && IsFieldId(12) && IsFieldId(14) && IsFieldId(16) &&
           IsFieldId(18);
    hide *;
    CommandNumber(c, h, 2, 6, c.protocol, 4);
    CommandNumber(c, h, 3, 8, c.session, 8);
    CommandNumber(c, h, 4, 10, c.sequence, 8);
    CommandNumber(c, h, 5, 12, c.inputStateId, 8);
    CommandNumber(c, h, 6, 14, c.inputStateRealUs, 8);
    CommandNumber(c, h, 7, 16, c.clientCreatedUs, 8);
    CommandNumber(c, h, 8, 18, c.clientSendUs, 8);
  }

  lemma ActionAndQuatRead(c: Command, h: Header)
    requires MessageFits(c, h)
    ensures var b, pos := Message(c, h), TableOfMessage(c, h);
            && Readable(b, pos) && FieldFits(b, pos, 22, 1) && FieldFits(b, pos, 24, 16)
            && GetField(b, pos, 22, [18]) == [c.action]
            && GetStruct(b, pos, 24, 16) ==
               if c.rootQuat.Some? then Some(QuatBytes(c.rootQuat.value)) else None
  {
    CommandFieldReads(c, h, 9);
    CommandFieldReads(c, h, 10);
    assert FieldsOf(c, h)[9] == Scalar(22, [c.action], [18], true);
    assert FieldsOf(c, h)[10] == Struct(24, if c.rootQuat.Some? then Some(QuatBytes(c.rootQuat.value)) else None, 4);
    hide Readable, FieldOffset, Message, FieldsOf, TableOfMessage, QuatBytes, LiesInTable, WithJoints;
  }

  // ---------------------------------------------------------------------------------------
  // The bulk reader on an encoded message
  // ---------------------------------------------------------------------------------------

  lemma PairParts(word: seq<byte>, payload: seq<byte>)
    ensures Slice(word + payload, 0, |word|) == word && Slice(word + payload, |word|, |payload|) == payload
  {
  }

  lemma PieceReads(data: seq<byte>, v: nat, payload: seq<byte>, stride: nat)
    requires |data| % 4 == 0 && v % 4 == 0 && |payload| == SLOTS * stride
    requires Stands(data, v, Le(SLOTS, 4) + payload)
    ensures VectorStandsAt(data, Place(data, v), stride, 4)
    ensures Slice(data, Place(data, v) + 4, SLOTS * stride) == payload
  {
    hide Slice, Le;
    var piece := Le(SLOTS, 4) + payload;
    PairParts(Le(SLOTS, 4), payload);
    SliceOfSlice(data, Place(data, v), |piece|, 0, 4);
    SliceOfSlice(data, Place(data, v), |piece|, 4, SLOTS * stride);
    U32OfLe(data, Place(data, v), SLOTS);
  }

  /** The count and the joints, where the builder put the vector. */
  lemma JointsStand(c: Command, h: Header)
    requires MessageFits(c, h)
    ensures var b, v := Message(c, h), |WithJoints(c, h).data|;
            && v % 4 == 0 && |b| % 4 == 0
            && VectorStandsAt(b, Place(b, v), JOINT_COMMAND_SIZE, 4)
            && Slice(b, Place(b, v) + 4, SLOTS * JOINT_COMMAND_SIZE) == JointsBytes(c.joints)
  {
    var b, v := Message(c, h), |WithJoints(c, h).data|;
    JointsExtend(c, h);
    CommandExtends(c, h);
    MessageExtends(c, h);
    hide Message, WithJoints, WithCommand, CommandOffset, WithHeader, JointsBytes, Le, Stands, Extends;
    ExtendsTransitive(WithJoints(c, h).data, WithCommand(c, h).data, b);
    ExtendsKeepsStands(WithJoints(c, h).data, b, v, Le(SLOTS, 4) + JointsBytes(c.joints));
    PieceReads(b, v, JointsBytes(c.joints), JOINT_COMMAND_SIZE);
  }

  lemma EndAligned(size: int, at: int)
    requires size % 4 == 0 && (size - at) % 4 == 0
    ensures at % 4 == 0
  {
  }

  lemma Apart(size: int, target: int, at: int, distance: nat)
    requires size % 4 == 0 && target % 4 == 0 && at % 4 == 0 && at + distance == size - target
    ensures distance != 0 ==> distance >= 4
  {
  }

  lemma PresentInVTable(b: seq<byte>, pos: int, slot: nat)
    requires IsFieldId(slot) && Readable(b, pos) && FieldOffset(b, pos, slot) != 0
    ensures slot < U16(b, VTable(b, pos)) && pos >= 0
  {
  }

  /** A reference to an aligned vector is well placed for the bulk reader. */
  lemma ReferenceWellPlaced(b: seq<byte>, pos: int, slot: nat, target: nat, stride: nat)
    requires IsFieldId(slot) && target != 0 && target % 4 == 0 && |b| % 4 == 0
    requires ReadsBack(b, pos, Reference(slot, target)) && LiesInTable(b, pos, Reference(slot, target))
    requires VectorStandsAt(b, Place(b, target), stride, 4)
    ensures SoundTable(b, pos) && FieldFits(b, pos, slot, 4) && WellPlaced(b, pos, slot, stride, 4)
    ensures GetPointer(b, pos, slot) == Some(Place(b, target))
  {
    hide FieldOffset, U16, U32, Readable, VTable;
    PresentInVTable(b, pos, slot);
    var at := pos + FieldOffset(b, pos, slot);
    EndAligned(|b|, at);
    Apart(|b|, target, at, U32(b, at));
  }

  /** The table of a message is sound, and its joints field is well placed for the bulk reader. */
  lemma JointsWellPlaced(c: Command, h: Header)
    requires MessageFits(c, h)
    ensures var b, pos := Message(c, h), TableOfMessage(c, h);
            && SoundTable(b, pos) && FieldFits(b, pos, 20, 4) && WellPlaced(b, pos, 20, JOINT_COMMAND_SIZE, 4)
            && GetPointer(b, pos, 20) == Some(Place(b, |WithJoints(c, h).data|))
  {
    assert FieldsOf(c, h)[1] == Reference(20, |WithJoints(c, h).data|);
    assert IsFieldId(20);
    JointsStand(c, h);
    assert |WithJoints(c, h).data| >= 4;
    CommandFieldReads(c, h, 1);
    hide *;
    ReferenceWellPlaced(Message(c, h), TableOfMessage(c, h), 20, |WithJoints(c, h).data|, JOINT_COMMAND_SIZE);
  }

  // ---------------------------------------------------------------------------------------
  // The header
  // ---------------------------------------------------------------------------------------

  function HeaderFieldsOf(h: Header): seq<Field> {
    HeaderFields(h, NodeOffset(h))
  }

  lemma HeaderInMessage(c: Command, h: Header)
    requires MessageFits(c, h)
    ensures Extends(WithNode(h).data, Message(c, h)) && Extends(WithHeader(h).data, Message(c, h))
  {
    HeaderExtends(h);
    JointsExtend(c, h);
    CommandExtends(c, h);
    MessageExtends(c, h);
    hide Message, WithJoints, WithCommand, WithHeader, WithNode, Extends, Stands;
    ExtendsTransitive(WithJoints(c, h).data, WithCommand(c, h).data, Message(c, h));
    ExtendsTransitive(WithHeader(h).data, WithJoints(c, h).data, Message(c, h));
    ExtendsTransitive(WithNode(h).data, WithHeader(h).data, Message(c, h));
  }

  lemma HeaderFieldReads(c: Command, h: Header, i: nat)
    requires MessageFits(c, h) && i < 3
    ensures IsFieldId(HeaderFieldsOf(h)[i].id)
    ensures ReadsBack(Message(c, h), Place(Message(c, h), HeaderOffset(h)), HeaderFieldsOf(h)[i])
  {
    var b, fs := WithNode(h), HeaderFieldsOf(h);
    HeaderWellFormed(h, NodeOffset(h), |b.data|);
    HeaderInMessage(c, h);
    assert Distinct(fs) && WithHeader(h) == TableOf(b, fs) && HeaderOffset(h) == NewTable(b, fs);
    assert Idle(b) && |TableOf(b, fs).data| <= |Message(c, h)|;
    hide Message, WithNode, ReadsBack, TableOf, NewTable, WellFormed, Extends, HeaderOffset, WithHeader;
    SmallTableFits(b, fs);
    FieldRoundTrip(b, fs, i, Message(c, h));
  }

  lemma PieceParts(text: seq<byte>)
    ensures var piece := Le(|text|, 4) + (text + [0]);
            Slice(piece, 0, 4) == Le(|text|, 4) && Slice(piece, 4, |text|) == text
  {
  }

  /** The length and the bytes of a piece that stands at `v` read back. */
  lemma CountedPieceReads(b: seq<byte>, v: nat, piece: seq<byte>, n: nat)
    requires Stands(b, v, piece) && |piece| == n + 5 && Slice(piece, 0, 4) == Le(n, 4) && |b| < TWO_TO_THE_31
    ensures var at := Place(b, v);
            && v != 0 && Fits(b, at, 4) && U32(b, at) == n && Fits(b, at + 4, n)
            && Slice(b, at + 4, n) == Slice(piece, 4, n)
  {
    hide Le, Slice, U32;
    SliceOfSlice(b, Place(b, v), |piece|, 0, 4);
    SliceOfSlice(b, Place(b, v), |piece|, 4, n);
    U32OfLe(b, Place(b, v), n);
  }

  /** A string that stands at `v` reads back. */
  lemma StringReads(b: seq<byte>, v: nat, text: seq<byte>)
    requires Stands(b, v, Le(|text|, 4) + (text + [0])) && |b| < TWO_TO_THE_31
    ensures var at := Place(b, v);
            && v != 0 && Fits(b, at, 4) && U32(b, at) == |text| && Fits(b, at + 4, |text|)
            && Slice(b, at + 4, |text|) == text
  {
    hide Le, Slice, U32, Stands;
    PieceParts(text);
    CountedPieceReads(b, v, Le(|text|, 4) + (text + [0]), |text|);
  }

  /** The name of the node stands where the header points. */
  lemma NodeStands(c: Command, h: Header)
    requires MessageFits(c, h) && h.node != []
    ensures var b, at := Message(c, h), Place(Message(c, h), NodeOffset(h));
            && NodeOffset(h) != 0 && Fits(b, at, 4) && U32(b, at) == |h.node| && Fits(b, at + 4, |h.node|)
            && Slice(b, at + 4, |h.node|) == h.node
  {
    hide Message, CreatedString, Le, Slice, U32, Extends, WithHeader;
    var b, v := Message(c, h), |WithNode(h).data|;
    StringStands(EMPTY, h.node);
    HeaderInMessage(c, h);
    ExtendsKeepsStands(WithNode(h).data, b, v, Le(|h.node|, 4) + (h.node + [0]));
    StringReads(b, v, h.node);
  }

  lemma HeaderFieldsAre(h: Header)
    ensures |HeaderFieldsOf(h)| == 3
    ensures HeaderFieldsOf(h)[0] == Number(4, h.stampNs, 8) && HeaderFieldsOf(h)[1] == Reference(6, NodeOffset(h))
    ensures HeaderFieldsOf(h)[2] == Number(8, h.sequence, 8)
    ensures NodeOffset(h) == 0 <==> h.node == []
  {
  }

  lemma HeaderReads(c: Command, h: Header)
    requires MessageFits(c, h)
    ensures var b, pos := Message(c, h), Place(Message(c, h), HeaderOffset(h));
            HeaderFits(b, pos) && ReadHeader(b, pos) == h
  {
    hide Message, HeaderOffset, NodeOffset, Number, U64Field, U32, Slice, FieldOffset, Readable, HeaderFieldsOf;
    var b, pos := Message(c, h), Place(Message(c, h), HeaderOffset(h));
    HeaderFieldsAre(h);
    HeaderFieldReads(c, h, 0);
    HeaderFieldReads(c, h, 1);
    HeaderFieldReads(c, h, 2);
    if h.node != [] {
      NodeStands(c, h);
    }
    Number8Reads(b, pos, 4, h.stampNs);
    Number8Reads(b, pos, 8, h.sequence);
    assert ReadsBack(b, pos, Reference(6, NodeOffset(h)));
  }

  // ---------------------------------------------------------------------------------------
  // The round trip
  // ---------------------------------------------------------------------------------------

  lemma JointsSlot()
    ensures IsFieldId(20) && IsAlignment(4)
  {
  }

  lemma BulkReadsJoints(c: Command, h: Header)
    requires MessageFits(c, h)
    ensures VectorFieldData(Message(c, h), TableOfMessage(c, h), 20, JOINT_COMMAND_SIZE, 4) ==
            Ok(Some(JointsBytes(c.joints)))
  {
    hide VectorFieldData, SoundTable, WellPlaced, Message, TableOfMessage, JointsBytes, GetPointer,
         VectorStandsAt, Slice, Readable, WithJoints, FieldFits;
    var b, pos := Message(c, h), TableOfMessage(c, h);
    JointsStand(c, h);
    JointsWellPlaced(c, h);
    JointsSlot();
    BulkReadsExactly(b, pos, 20, JOINT_COMMAND_SIZE, 4);
  }

  lemma HeaderPointer(c: Command, h: Header)
    requires MessageFits(c, h)
    ensures var b, pos := Message(c, h), TableOfMessage(c, h);
            && Readable(b, pos) && FieldFits(b, pos, 4, 4)
            && GetPointer(b, pos, 4) == Some(Place(b, HeaderOffset(h)))
  {
    assert FieldsOf(c, h)[0] == Reference(4, HeaderOffset(h)) && HeaderOffset(h) >= 4;
    CommandFieldReads(c, h, 0);
    hide Message, FieldsOf, TableOfMessage, HeaderOffset, Readable, FieldOffset;
  }

  lemma CommandReads(c: Command, h: Header)
    requires MessageFits(c, h)
    ensures var b, pos := Message(c, h), TableOfMessage(c, h);
            && VectorFieldData(b, pos, 20, JOINT_COMMAND_SIZE, 4) == Ok(Some(JointsBytes(c.joints)))
            && CommandFits(b, pos) && ReadCommand(b, pos) == Ok(c)
  {
    BulkReadsJoints(c, h);
    JointsRead(c.joints);
    NumbersRead(c, h);
    ActionAndQuatRead(c, h);
    HeaderPointer(c, h);
    if c.rootQuat.Some? {
      QuatReads(c.rootQuat.value);
    }
    hide Message, TableOfMessage, FieldFits, U64Field, U32Field, GetField, GetStruct, GetPointer, VectorFieldData,
         JointsBytes, JointsOf, QuatBytes, QuatOf, MessageFits, Readable, HeaderOffset;
  }

  /**
   Encoding and reading: every message of 31 joints is accepted by the bulk reader, and the accessors and
   the bulk reader together give back the whole command and its header.
   */
  lemma EncodedReadsBack(c: Command, h: Header)
    requires MessageFits(c, h)
    ensures Encoded(c, h) == Ok(Message(c, h)) && Fits(Message(c, h), 0, 4)
    ensures var b := Message(c, h);
            var pos := U32(b, 0);
            && VectorFieldData(b, pos, 20, JOINT_COMMAND_SIZE, 4) == Ok(Some(JointsBytes(c.joints)))
            && CommandFits(b, pos) && ReadCommand(b, pos) == Ok(c)
            && var header := GetPointer(b, pos, 4);
               header.Some? && HeaderFits(b, header.value) && ReadHeader(b, header.value) == h
  {
    MessageExtends(c, h);
    assert U32(Message(c, h), 0) == TableOfMessage(c, h);
    CommandReads(c, h);
    HeaderReads(c, h);
    HeaderPointer(c, h);
    hide Message, TableOfMessage, HeaderFits, ReadHeader, CommandFits, ReadCommand, VectorFieldData, MessageFits,
         HeaderOffset, JointsBytes, Extends, WithCommand, CommandOffset;
  }
}
