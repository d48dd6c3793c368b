/** The encoder of body commands, driving the builder object step by step. */
module BodyCommandEncoder {
  import opened BodyShape
  import opened Bytes
  import opened Wrappers
  import opened BuilderModel
  import opened TableRoundTrip
  import opened BuilderLayout
  import opened BuilderObject
  import opened BodyCommand
  import opened CommandRoundTrip

  /** Adding fields one after another, from field `k` on. */
  lemma PlacedNext(b: Builder, fs: seq<Field>, k: nat)
    requires Idle(b) && AllWellFormed(fs, |b.data|) && k < |fs|
    ensures AllWellFormed(fs[..k], |b.data|) && AllWellFormed(fs[..k + 1], |b.data|)
    ensures WellFormed(fs[k], |AllPlaced(b, fs[..k]).data|)
    ensures AllPlaced(b, fs[..k + 1]) == Placed(AllPlaced(b, fs[..k]), fs[k])
  {
    assert fs[..k + 1][..k] == fs[..k];
    assert |b.data| <= |AllPlaced(b, fs[..k]).data|;
    hide AllPlaced, Placed;
  }

  lemma Associative(a: seq<byte>, b: seq<byte>, c: seq<byte>)
    ensures a + (b + c) == (a + b) + c
  {
  }

  lemma {:induction false} JointsBytesAppend(js: seq<Joint>, j: Joint)
    ensures JointsBytes(js + [j]) == JointsBytes(js) + JointBytes(j)
  {
    hide JointBytes;
    if js == [] {
      assert js + [j] == [j];
      assert JointBytes(j) + [] == JointBytes(j);
    } else {
      JointsBytesAppend(js[1..], j);
      assert (js + [j])[1..] == js[1..] + [j];
      Associative(JointBytes(js[0]), JointsBytes(js[1..]), JointBytes(j));
    }
  }

  /** The joints as the fixed-stride rows of the wire. */
  method MarshalJoints(js: seq<Joint>) returns (rows: seq<byte>)
    ensures rows == JointsBytes(js)
  {
    rows := [];
    var i := 0;
    while i < |js|
      invariant 0 <= i <= |js| && rows == JointsBytes(js[..i])
    {
      JointsBytesAppend(js[..i], js[i]);
      assert js[..i] + [js[i]] == js[..i + 1];
      rows := rows + JointBytes(js[i]);
      i := i + 1;
    }
    assert js[..i] == js;
  }

  /** The table begun on `base` has its first `k` fields. */
  ghost predicate At(b: FlatBufferBuilder, base: Builder, fs: seq<Field>, k: nat)
    reads b, b.buf, b.buf.buf
  {
    && b.Valid() && Idle(base) && AllWellFormed(fs, |base.data|)
    && k <= |fs| && b.State() == AllPlaced(base, fs[..k])
  }

  /** Adds field `k`, a number. */
  method AddNumber(b: FlatBufferBuilder, id: nat, value: nat, width: nat,
                   ghost base: Builder, ghost fs: seq<Field>, ghost k: nat)
    requires At(b, base, fs, k) && !b.forceDefaults && k < |fs| && fs[k] == Number(id, value, width)
    modifies b`minAlign, b`maxVOffset, b`numFieldLoc, b`fields, b.buf, b.buf.buf
    ensures At(b, base, fs, k + 1) && (b.buf.buf == old(b.buf.buf) || fresh(b.buf.buf))
  {
    PlacedNext(base, fs, k);
    hide AllPlaced, Placed, WellFormed, AllWellFormed;
    b.AddElement(id, Le(value, width), Le(0, width));
  }

  /** Adds field `k`, a reference. */
  method AddReference(b: FlatBufferBuilder, id: nat, target: nat,
                      ghost base: Builder, ghost fs: seq<Field>, ghost k: nat)
    requires At(b, base, fs, k) && k < |fs| && fs[k] == Reference(id, target)
    modifies b`minAlign, b`maxVOffset, b`numFieldLoc, b`fields, b.buf, b.buf.buf
    ensures At(b, base, fs, k + 1) && (b.buf.buf == old(b.buf.buf) || fresh(b.buf.buf))
  {
    PlacedNext(base, fs, k);
    hide AllPlaced, Placed, WellFormed, AllWellFormed;
    b.AddOffset(id, target);
  }

  /** A null reference takes no room. */
  lemma NullReference(b: FlatBufferBuilder, id: nat, base: Builder, fs: seq<Field>, k: nat)
    requires At(b, base, fs, k) && k < |fs| && fs[k] == Reference(id, 0)
    ensures At(b, base, fs, k + 1)
  {
    PlacedNext(base, fs, k);
    hide AllPlaced, WellFormed, AllWellFormed;
  }

  // ---------------------------------------------------------------------------------------
  // Sizes
  // ---------------------------------------------------------------------------------------

  predicate SmallFields(fs: seq<Field>) {
    |fs| <= 11 && forall i | 0 <= i < |fs| :: WidthOf(fs[i]) <= 16 && fs[i].id <= 24
  }

  lemma {:induction false} AllPlacedIdsBelow(b: Builder, fs: seq<Field>, bound: nat)
    requires Idle(b) && AllWellFormed(fs, |b.data|) && forall i | 0 <= i < |fs| :: fs[i].id <= bound
    ensures AllPlaced(b, fs).maxVOffset <= bound
    decreases |fs|
  {
    if fs != [] {
      AllPlacedIdsBelow(b, fs[..|fs| - 1], bound);
    }
  }

  lemma {:induction false} AllPlacedIdsAbove(b: Builder, fs: seq<Field>, i: nat)
    requires Idle(b) && AllWellFormed(fs, |b.data|) && i < |fs| && Stores(fs[i])
    ensures AllPlaced(b, fs).maxVOffset >= fs[i].id
    decreases |fs|
  {
    var last := |fs| - 1;
    PlacedFields(AllPlaced(b, fs[..last]), fs[last]);
    if i < last {
      AllPlacedIdsAbove(b, fs[..last], i);
    }
    hide Placed, Stores, WellFormed;
  }

  /** A small table adds little to the buffer, also while it is being ended. */
  lemma SmallTable(b: Builder, fs: seq<Field>)
    requires Idle(b) && AllWellFormed(fs, |b.data|) && SmallFields(fs)
    ensures |Linked(AllPlaced(b, fs), |b.data|).data| <= |b.data| + 400
    ensures |TableOf(b, fs).data| <= |b.data| + 400
  {
    AllPlacedSize(b, fs);
    AllPlacedIdsBelow(b, fs, 24);
    var p := AllPlaced(b, fs);
    assert VTableSize(p) <= 26;
    hide AllPlaced, WellFormed, Filled, VTableBase, Shared;
  }

  lemma HeaderSmall(h: Header)
    ensures Idle(WithNode(h)) && SmallFields(HeaderFields(h, NodeOffset(h)))
  {
    hide Le;
  }

  lemma CommandSmall(c: Command, header: nat, joints: nat)
    ensures SmallFields(CommandFields(c, header, joints))
  {
    var fs := CommandFields(c, header, joints);
    var ids := [4, 20, 6, 8, 10, 12, 14, 16, 18, 22, 24];
    assert forall i | 0 <= i < 11 :: fs[i].id == ids[i];
    assert forall i | 0 <= i < 11 :: WidthOf(fs[i]) <= 16;
    hide CommandFields, WidthOf;
  }

  /** The header fits on top of the name of the node, also while it is being ended. */
  predicate HeaderHasRoom(h: Header) {
    |WithNode(h).data| + 400 < TWO_TO_THE_31
  }

  lemma JointsAreLarge(c: Command, h: Header)
    requires |c.joints| == SLOTS
    ensures |WithHeader(h).data| + 620 <= |WithJoints(c, h).data|
  {
    hide WithHeader;
    var _ := VectorBytes(WithHeader(h), JointsBytes(c.joints), SLOTS, 4);
  }

  lemma MessageIsLongest(c: Command, h: Header)
    requires |c.joints| == SLOTS
    ensures |WithCommand(c, h).data| < |Message(c, h)|
  {
    hide WithCommand, CommandOffset, Padding;
    BuiltCommand(c, h);
  }

  lemma MessageLeavesRoom(c: Command, h: Header)
    requires MessageFits(c, h)
    ensures HeaderHasRoom(h)
  {
    hide WithNode, WithHeader, WithJoints, WithCommand, CommandOffset, Message;
    HeaderExtends(h);
    JointsAreLarge(c, h);
    CommandExtends(c, h);
    MessageIsLongest(c, h);
  }

  // ---------------------------------------------------------------------------------------
  // Tables
  // ---------------------------------------------------------------------------------------

  lemma PlacedGood(b: Builder, fs: seq<Field>)
    requires Idle(b) && AllWellFormed(fs, |b.data|) && GoodVTables(b.data, b.vtables)
    ensures GoodVTables(AllPlaced(b, fs).data, AllPlaced(b, fs).vtables)
  {
    AllPlacedExtends(b, fs);
    hide GoodVTables, AllPlaced, WellFormed, Extends;
    GoodVTablesLater(b.data, AllPlaced(b, fs).data, b.vtables);
  }

  /** A small table on a buffer that is not too large may be ended. */
  lemma SmallCanEnd(b: Builder, fs: seq<Field>)
    requires Idle(b) && AllWellFormed(fs, |b.data|) && SmallFields(fs) && GoodVTables(b.data, b.vtables)
    requires |b.data| + 400 < TWO_TO_THE_31
    ensures CanEnd(AllPlaced(b, fs), |b.data|)
  {
    SmallTable(b, fs);
    PlacedGood(b, fs);
    hide AllPlaced, GoodVTables, SmallFields, WellFormed, Linked;
  }

  lemma HeaderCanEnd(h: Header)
    requires HeaderHasRoom(h)
    ensures AllWellFormed(HeaderFields(h, NodeOffset(h)), |WithNode(h).data|)
    ensures Idle(WithNode(h)) && CanEnd(AllPlaced(WithNode(h), HeaderFields(h, NodeOffset(h))), |WithNode(h).data|)
  {
    var b, fs := WithNode(h), HeaderFields(h, NodeOffset(h));
    HeaderWellFormed(h, NodeOffset(h), |b.data|);
    HeaderSmall(h);
    assert GoodVTables(b.data, b.vtables);
    hide AllPlaced, WithNode, NodeOffset, HeaderFields, WellFormed, SmallFields, CanEnd;
    SmallCanEnd(b, fs);
  }

  /** The fields of the header; a name that is not there is not added. */
  method AddHeaderFields(b: FlatBufferBuilder, h: Header, node: nat, ghost base: Builder)
    requires At(b, base, HeaderFields(h, node), 0) && !b.forceDefaults && (node == 0 <==> h.node == [])
    modifies b`minAlign, b`maxVOffset, b`numFieldLoc, b`fields, b.buf, b.buf.buf
    ensures At(b, base, HeaderFields(h, node), 3) && (b.buf.buf == old(b.buf.buf) || fresh(b.buf.buf))
  {
    ghost var fs := HeaderFields(h, node);
    hide At, Number;
    AddNumber(b, 4, h.stampNs, 8, base, fs, 0);
    if h.node != [] {
      AddReference(b, 6, node, base, fs, 1);
    } else {
      NullReference(b, 6, base, fs, 1);
    }
    AddNumber(b, 8, h.sequence, 8, base, fs, 2);
  }

  lemma AllPlacedNone(base: Builder)
    requires Idle(base)
    ensures AllPlaced(base, []) == base
  {
  }

  /** Builds the header table on top of the node's name. */
  method BuildHeader(b: FlatBufferBuilder, h: Header, node: nat) returns (header: nat)
    requires b.Valid() && !b.nested && !b.forceDefaults && HeaderHasRoom(h)
    requires b.State() == WithNode(h) && node == NodeOffset(h)
    modifies b`nested, b`minAlign, b`maxVOffset, b`numFieldLoc, b`fields, b`vtables, b.buf, b.buf.buf
    ensures b.Valid() && !b.nested && (b.buf.buf == old(b.buf.buf) || fresh(b.buf.buf))
    ensures b.State() == WithHeader(h) && header == HeaderOffset(h)
    ensures GoodVTables(b.State().data, b.State().vtables)
  {
    ghost var base := b.State();
    HeaderCanEnd(h);
    assert node == 0 <==> h.node == [];
    assert b.numFieldLoc == |base.fields| == 0;
    ghost var fs := HeaderFields(h, node);
    AllPlacedNone(base);
    assert |fs| == 3 && fs[..3] == fs && fs[..0] == [];
    hide AllPlaced, HeaderFields, WithNode, WellFormed, AllWellFormed, CanEnd, EndedTable;
    var start := b.StartTable();
    AddHeaderFields(b, h, node, base);
    header := b.EndTable(start);
  }

  /** Adds the action, which is stored even at its default value. */
  method AddAction(b: FlatBufferBuilder, action: byte, ghost base: Builder, ghost fs: seq<Field>, ghost k: nat)
    requires At(b, base, fs, k) && !b.forceDefaults && k < |fs| && fs[k] == Scalar(22, [action], [18], true)
    modifies b`forceDefaults, b`minAlign, b`maxVOffset, b`numFieldLoc, b`fields, b.buf, b.buf.buf
    ensures At(b, base, fs, k + 1) && !b.forceDefaults && (b.buf.buf == old(b.buf.buf) || fresh(b.buf.buf))
  {
    hide AllPlaced, Placed, WellFormed, AllWellFormed, Le, Zeros, OffsetsBytes, FieldsBytes;
    PlacedNext(base, fs, k);
    b.ForceDefaults(true);
    b.AddElement(22, [action], [18]);
    b.ForceDefaults(false);
  }

  /** Adds the root orientation, when the command has one. */
  method AddRootQuat(b: FlatBufferBuilder, quat: Option<Quat>, ghost base: Builder, ghost fs: seq<Field>, ghost k: nat)
    requires At(b, base, fs, k) && k < |fs|
    requires fs[k] == Struct(24, if quat.Some? then Some(QuatBytes(quat.value)) else None, 4)
    modifies b`minAlign, b`maxVOffset, b`numFieldLoc, b`fields, b.buf, b.buf.buf
    ensures At(b, base, fs, k + 1) && (b.buf.buf == old(b.buf.buf) || fresh(b.buf.buf))
  {
    PlacedNext(base, fs, k);
    hide AllPlaced, Placed, WellFormed, AllWellFormed, QuatBytes;
    b.AddStruct(24, if quat.Some? then Some(QuatBytes(quat.value)) else None, 4);
  }

  lemma CommandSteps(c: Command, header: nat, joints: nat)
    ensures var fs := CommandFields(c, header, joints);
            && |fs| == 11 && fs[..11] == fs && fs[..0] == []
            && fs[0] == Reference(4, header) && fs[1] == Reference(20, joints)
            && fs[2] == Number(6, c.protocol, 4) && fs[3] == Number(8, c.session, 8)
            && fs[4] == Number(10, c.sequence, 8) && fs[5] == Number(12, c.inputStateId, 8)
            && fs[6] == Number(14, c.inputStateRealUs, 8) && fs[7] == Number(16, c.clientCreatedUs, 8)
            && fs[8] == Number(18, c.clientSendUs, 8) && fs[9] == Scalar(22, [c.action], [18], true)
            && fs[10] == Struct(24, if c.rootQuat.Some? then Some(QuatBytes(c.rootQuat.value)) else None, 4)
  {
    hide Number, QuatBytes;
  }

  /** The fields of the command, in the order of the encoder. */
  method AddCommandFields(b: FlatBufferBuilder, c: Command, header: nat, joints: nat, ghost base: Builder)
    requires At(b, base, CommandFields(c, header, joints), 0) && !b.forceDefaults
    modifies b`forceDefaults, b`minAlign, b`maxVOffset, b`numFieldLoc, b`fields, b.buf, b.buf.buf
    ensures At(b, base, CommandFields(c, header, joints), 11) && (b.buf.buf == old(b.buf.buf) || fresh(b.buf.buf))
    ensures !b.forceDefaults
  {
    hide At, Number, CommandFields, QuatBytes;
    ghost var fs := CommandFields(c, header, joints);
    CommandSteps(c, header, joints);
    AddReference(b, 4, header, base, fs, 0);
    AddReference(b, 20, joints, base, fs, 1);
    AddNumber(b, 6, c.protocol, 4, base, fs, 2);
    AddNumber(b, 8, c.session, 8, base, fs, 3);
    AddNumber(b, 10, c.sequence, 8, base, fs, 4);
    AddNumber(b, 12, c.inputStateId, 8, base, fs, 5);
    AddNumber(b, 14, c.inputStateRealUs, 8, base, fs, 6);
    AddNumber(b, 16, c.clientCreatedUs, 8, base, fs, 7);
    AddNumber(b, 18, c.clientSendUs, 8, base, fs, 8);
    AddAction(b, c.action, base, fs, 9);
    AddRootQuat(b, c.rootQuat, base, fs, 10);
  }

  lemma JointsGood(c: Command, h: Header)
    requires |c.joints| == SLOTS && GoodVTables(WithHeader(h).data, WithHeader(h).vtables)
    ensures GoodVTables(WithJoints(c, h).data, WithJoints(c, h).vtables)
  {
    assert WithJoints(c, h).vtables == WithHeader(h).vtables;
    VectorStands(WithHeader(h), JointsBytes(c.joints), SLOTS, 4);
    hide GoodVTables, WithHeader, JointsBytes, Stands, Extends, CreatedVector;
    GoodVTablesLater(WithHeader(h).data, WithJoints(c, h).data, WithHeader(h).vtables);
  }

  /** The header's vtable, which has room for its three fields and no more. */
  lemma HeaderVTable(h: Header) returns (vt: seq<byte>)
    ensures IsVTable(vt) && |vt| <= 10
    ensures |WithHeader(h).vtables| == 1 && Stands(WithHeader(h).data, WithHeader(h).vtables[0], vt)
  {
    var b, fs := WithNode(h), HeaderFields(h, NodeOffset(h));
    HeaderWellFormed(h, NodeOffset(h), |b.data|);
    HeaderSmall(h);
    assert b.vtables == [] && forall i | 0 <= i < |fs| :: fs[i].id <= 8;
    hide WithNode, HeaderFields, NodeOffset, SmallFields, WellFormed, IsVTable, Stands, Extends, LeS32, Filled,
         VTableBase, Aligned;
    AllPlacedIdsBelow(b, fs, 8);
    var p := AllPlaced(b, fs);
    vt := NewVTable(p, |b.data|);
    NewVTableIsVTable(p, |b.data|);
    var use := EndedTableShape(p, |b.data|);
  }

  /** A vtable of another size is not shared. */
  lemma SizesDiffer(data: seq<byte>, offset: nat, kept: seq<byte>, vt: seq<byte>)
    requires Stands(data, offset, kept) && IsVTable(kept) && IsVTable(vt) && |kept| < |vt|
    ensures !Matches(data, offset, vt)
  {
    if Matches(data, offset, vt) {
      SliceOfSlice(data, |data| - offset, |kept|, 0, 2);
      SliceOfSlice(data, |data| - offset, |vt|, 0, 2);
    }
  }

  lemma CommandVTableLarge(c: Command, h: Header)
    ensures var b, fs := WithJoints(c, h), CommandFields(c, HeaderOffset(h), |WithJoints(c, h).data|);
            && Idle(b) && AllWellFormed(fs, |b.data|)
            && var p := AllPlaced(b, fs); MayEnd(p, |b.data|) && Laid(p, |b.data|) && |NewVTable(p, |b.data|)| >= 24
  {
    var b, fs := WithJoints(c, h), CommandFields(c, HeaderOffset(h), |WithJoints(c, h).data|);
    BuiltJoints(c, h);
    CommandWellFormed(c, HeaderOffset(h), |b.data|, |b.data|);
    assert fs[9] == Scalar(22, [c.action], [18], true);
    hide WithJoints, CommandFields, HeaderOffset, WellFormed;
    AllPlacedIdsAbove(b, fs, 9);
  }

  lemma StandsWithin(data: seq<byte>, off: nat, bytes: seq<byte>)
    requires Stands(data, off, bytes)
    ensures off <= |data|
  {
  }

  /** The header's vtable is the one kept when the command is begun. */
  lemma KeptVTable(c: Command, h: Header) returns (kept: seq<byte>)
    requires |c.joints| == SLOTS
    ensures IsVTable(kept) && |kept| <= 10
    ensures |WithJoints(c, h).vtables| == 1 && Stands(WithJoints(c, h).data, WithJoints(c, h).vtables[0], kept)
  {
    kept := HeaderVTable(h);
    JointsExtend(c, h);
    assert WithJoints(c, h).vtables == WithHeader(h).vtables;
    hide WithJoints, WithHeader, Stands, Extends, IsVTable;
    var use := WithHeader(h).vtables[0];
    StandsWithin(WithHeader(h).data, use, kept);
    ExtendsKeepsStands(WithHeader(h).data, WithJoints(c, h).data, use, kept);
  }

  lemma OneUnshared(data: seq<byte>, vtables: seq<nat>, vt: seq<byte>)
    requires |vtables| == 1 && !Matches(data, vtables[0], vt)
    ensures Shared(data, vtables, vt) == None
  {
    assert vtables[1..] == [];
  }

  /** A table whose vtable is larger than the one kept vtable gets a vtable of its own. */
  lemma OwnVTable(p: Builder, start: nat, kept: seq<byte>)
    requires MayEnd(p, start) && Laid(p, start) && IsVTable(kept) && |kept| < |NewVTable(p, start)|
    requires |p.vtables| == 1 && Stands(p.data, p.vtables[0], kept)
    ensures |Linked(p, start).data| == |EndedTable(p, start).data|
  {
    hide NewVTable, Laid, Stands, Extends, IsVTable, LeS32, MayEnd;
    NewVTableIsVTable(p, start);
    PrependExtends(Zeros(Padding(|p.data|, 4)), p.data);
    StandsWithin(p.data, p.vtables[0], kept);
    ExtendsKeepsStands(p.data, Aligned(p, 4).data, p.vtables[0], kept);
    SizesDiffer(Aligned(p, 4).data, p.vtables[0], kept, NewVTable(p, start));
    OneUnshared(Aligned(p, 4).data, p.vtables, NewVTable(p, start));
  }

  /** The command has a vtable of its own, so ending its table takes no more room than it keeps. */
  lemma CommandVTableIsNew(c: Command, h: Header)
    requires |c.joints| == SLOTS
    ensures var b, fs := WithJoints(c, h), CommandFields(c, HeaderOffset(h), |WithJoints(c, h).data|);
            && Idle(b) && AllWellFormed(fs, |b.data|) && MayEnd(AllPlaced(b, fs), |b.data|)
            && |Linked(AllPlaced(b, fs), |b.data|).data| == |WithCommand(c, h).data|
  {
    hide WithJoints, CommandFields, HeaderOffset, WellFormed, AllPlaced, NewVTable, Stands, Extends, IsVTable, Laid,
         Linked, EndedTable, MayEnd;
    var b, fs := WithJoints(c, h), CommandFields(c, HeaderOffset(h), |WithJoints(c, h).data|);
    CommandVTableLarge(c, h);
    var p := AllPlaced(b, fs);
    var kept := KeptVTable(c, h);
    AllPlacedExtends(b, fs);
    StandsWithin(b.data, b.vtables[0], kept);
    ExtendsKeepsStands(b.data, p.data, b.vtables[0], kept);
    OwnVTable(p, |b.data|, kept);
  }

  lemma CommandCanEnd(c: Command, h: Header)
    requires MessageFits(c, h)
    requires GoodVTables(WithHeader(h).data, WithHeader(h).vtables)
    ensures var b, fs := WithJoints(c, h), CommandFields(c, HeaderOffset(h), |WithJoints(c, h).data|);
            && Idle(b) && AllWellFormed(fs, |b.data|) && CanEnd(AllPlaced(b, fs), |b.data|)
  {
    hide WithJoints, WithHeader, CommandFields, HeaderOffset, Linked, Message, NewVTable, GoodVTables, WellFormed,
         WithCommand;
    var b, fs := WithJoints(c, h), CommandFields(c, HeaderOffset(h), |WithJoints(c, h).data|);
    CommandVTableLarge(c, h);
    CommandVTableIsNew(c, h);
    MessageIsLongest(c, h);
    JointsGood(c, h);
    PlacedGood(b, fs);
  }

  /** Fills and ends the command table. */
  method BuildCommand(b: FlatBufferBuilder, c: Command, header: nat, joints: nat) returns (root: nat)
    requires b.Valid() && !b.nested && !b.forceDefaults && b.numFieldLoc == 0
    requires At(b, b.State(), CommandFields(c, header, joints), 0)
    requires CanEnd(AllPlaced(b.State(), CommandFields(c, header, joints)), |b.State().data|)
    modifies b`nested, b`forceDefaults, b`minAlign, b`maxVOffset, b`numFieldLoc, b`fields, b`vtables, b.buf, b.buf.buf
    ensures b.Valid() && !b.nested && (b.buf.buf == old(b.buf.buf) || fresh(b.buf.buf))
    ensures var p := AllPlaced(old(b.State()), CommandFields(c, header, joints));
            b.State() == EndedTable(p, |old(b.State()).data|) && root == TableOffset(p)
  {
    hide AllPlaced, CommandFields, WellFormed, AllWellFormed, CanEnd, EndedTable, MayEnd, TableOffset, Number,
         QuatBytes;
    ghost var base := b.State();
    CommandSteps(c, header, joints);
    var start := b.StartTable();
    AddCommandFields(b, c, header, joints, base);
    root := b.EndTable(start);
  }

  /** The name of the node, if there is one, and the header on top of it. */
  method AssembleHeader(b: FlatBufferBuilder, h: Header) returns (header: nat)
    requires b.Valid() && b.State() == EMPTY && !b.nested && !b.forceDefaults && HeaderHasRoom(h)
    modifies b`nested, b`minAlign, b`maxVOffset, b`numFieldLoc, b`fields, b`vtables, b.buf, b.buf.buf
    ensures b.Valid() && !b.nested && (b.buf.buf == old(b.buf.buf) || fresh(b.buf.buf))
    ensures b.State() == WithHeader(h) && header == HeaderOffset(h) && b.numFieldLoc == 0
    ensures GoodVTables(WithHeader(h).data, WithHeader(h).vtables)
  {
    var node := 0;
    if h.node != [] {
      node := b.CreateString(h.node);
    }
    assert b.State() == WithNode(h) && node == NodeOffset(h);
    hide WithNode, NodeOffset, HeaderOffset, GoodVTables;
    header := BuildHeader(b, h, node);
  }

  lemma RootInside(p: Builder, start: nat)
    requires MayEnd(p, start)
    ensures TableOffset(p) <= |EndedTable(p, start).data| && EndedTable(p, start).fields == []
  {
    hide NewVTable, Shared;
  }

  /** The joints, and the command on top of them. */
  method AssembleCommand(b: FlatBufferBuilder, c: Command, h: Header, rows: seq<byte>, header: nat) returns (root: nat)
    requires b.Valid() && b.State() == WithHeader(h) && !b.nested && !b.forceDefaults && b.numFieldLoc == 0
    requires GoodVTables(WithHeader(h).data, WithHeader(h).vtables) && header == HeaderOffset(h)
    requires MessageFits(c, h) && rows == JointsBytes(c.joints)
    modifies b`nested, b`forceDefaults, b`minAlign, b`maxVOffset, b`numFieldLoc, b`fields, b`vtables, b.buf, b.buf.buf
    ensures b.Valid() && !b.nested && (b.buf.buf == old(b.buf.buf) || fresh(b.buf.buf))
    ensures b.State() == WithCommand(c, h) && root == CommandOffset(c, h)
    ensures root <= |b.State().data| && b.numFieldLoc == 0
  {
    hide WithHeader, HeaderOffset, CommandFields, CreatedVector, AllPlaced, EndedTable, GoodVTables, CanEnd, WellFormed,
         JointsBytes, Number, QuatBytes;
    CommandCanEnd(c, h);
    AllPlacedNone(WithJoints(c, h));
    CommandSteps(c, header, |WithJoints(c, h).data|);
    RootInside(AllPlaced(WithJoints(c, h), CommandFields(c, header, |WithJoints(c, h).data|)), |WithJoints(c, h).data|);
    var joints := b.CreateVectorOfStructs(rows, SLOTS, 4);
    root := BuildCommand(b, c, header, joints);
  }

  /** The whole message, on a builder that has nothing yet. */
  method Assemble(b: FlatBufferBuilder, c: Command, h: Header, rows: seq<byte>) returns (message: seq<byte>)
    requires b.Valid() && b.State() == EMPTY && !b.nested && !b.finished && !b.forceDefaults
    requires MessageFits(c, h) && rows == JointsBytes(c.joints)
    modifies b, b.buf, b.buf.buf
    ensures Encoded(c, h) == Ok(message)
  {
    hide WithCommand, WithHeader, HeaderOffset, CommandOffset, GoodVTables, JointsBytes, Finished;
    MessageLeavesRoom(c, h);
    var header := AssembleHeader(b, h);
    var root := AssembleCommand(b, c, h, rows, header);
    b.Finish(root);
    message := b.Bytes();
  }

  /** Encodes a command: one joint for every slot or a refusal. The builder asserts that the message is below 2 GiB. */
  method Encode(c: Command, h: Header) returns (r: Result<seq<byte>, EncodeError>)
    requires |c.joints| == SLOTS ==> MessageFits(c, h)
    ensures r == Encoded(c, h)
  {
    if |c.joints| != SLOTS {
      return Err(WrongJointCount);
    }
    hide Encoded, JointsBytes;
    var rows := MarshalJoints(c.joints);
    var b := new FlatBufferBuilder(256);
    var message := Assemble(b, c, h, rows);
    r := Ok(message);
  }
}
