/** What the encoder accepts passes the verifier, and every reader of the message gets it back. */
module CommandDelivery {
  import opened BodyShape
  import opened Bytes
  import opened Tables
  import opened Wrappers
  import opened BuilderModel
  import opened BuilderExact
  import opened TableRoundTrip
  import opened BulkReader
  import opened BodyCommand
  import opened BodyCommandEncoder
  import opened CommandRoundTrip
  import opened CommandVerified
  import opened Verifier

  const MAX_NODE: nat := 0x7FFF_F000

  lemma NodeSize(h: Header)
    ensures |WithNode(h).data| <= |h.node| + 16
  {
    hide Le;
  }

  lemma HeaderSize(h: Header)
    ensures |WithHeader(h).data| <= |h.node| + 416
  {
    hide HeaderFields, WithNode, TableOf, SmallFields, WellFormed;
    NodeSize(h);
    HeaderSmall(h);
    HeaderWellFormed(h, NodeOffset(h), |WithNode(h).data|);
    SmallTable(WithNode(h), HeaderFields(h, NodeOffset(h)));
  }

  lemma JointsSize(c: Command, h: Header)
    requires |c.joints| == SLOTS
    ensures |WithJoints(c, h).data| <= |h.node| + 1200
  {
    hide WithHeader, JointsBytes, Le;
    HeaderSize(h);
  }

  lemma CommandTableSize(c: Command, h: Header)
    requires |c.joints| == SLOTS
    ensures |WithCommand(c, h).data| <= |h.node| + 1600
  {
    hide WithJoints, CommandFields, HeaderOffset, TableOf, SmallFields, WellFormed;
    var b := WithJoints(c, h);
    BuiltJoints(c, h);
    JointsSize(c, h);
    CommandWellFormed(c, HeaderOffset(h), |b.data|, |b.data|);
    CommandSmall(c, HeaderOffset(h), |b.data|);
    SmallTable(b, CommandFields(c, HeaderOffset(h), |b.data|));
  }

  lemma FinishedSmall(b: Builder, root: nat)
    requires IsAlignment(b.minAlign) && root <= |Aligned(PreAligned(b, 4, b.minAlign), 4).data|
    ensures |Finished(b, root).data| <= |b.data| + 32
  {
  }

  /** Only a name within 4 KiB of 2 GiB can make a message too long. */
  lemma NodesFit(c: Command, h: Header)
    requires |c.joints| == SLOTS && |h.node| <= MAX_NODE
    ensures MessageFits(c, h)
  {
    hide WithCommand, CommandOffset, Finished;
    BuiltCommand(c, h);
    CommandTableSize(c, h);
    FinishedSmall(WithCommand(c, h), CommandOffset(c, h));
  }

  /**
   Whatever `Encode` does not refuse passes the verifier and reads back: the bulk reader finds the joints, the
   accessors every field and the header.
   */
  lemma EncodeReadsBack(c: Command, h: Header)
    requires |c.joints| == SLOTS ==> MessageFits(c, h)
    ensures Encoded(c, h).Ok? <==> |c.joints| == SLOTS
    ensures Encoded(c, h).Ok? ==>
              var b := Encoded(c, h).value;
              && |b| < MAX_BUFFER && CommandBufferOk(b)
              && var pos := U32(b, 0);
                 && VectorFieldData(b, pos, 20, JOINT_COMMAND_SIZE, 4) == Ok(Some(JointsBytes(c.joints)))
                 && CommandFits(b, pos) && ReadCommand(b, pos) == Ok(c)
                 && var header := GetPointer(b, pos, 4);
                    header.Some? && HeaderFits(b, header.value) && ReadHeader(b, header.value) == h
  {
    hide VectorFieldData, CommandFits, ReadCommand, GetPointer, HeaderFits, ReadHeader, JointsBytes, CommandOk;
    if |c.joints| == SLOTS {
      EncodedReadsBack(c, h);
      MessagePasses(c, h);
    }
  }

  // ---------------------------------------------------------------------------------------
  // The layout of a command
  // ---------------------------------------------------------------------------------------

  /** The fields of a command in the order in which they are added. */
  const ORDER: seq<nat> := [4, 20, 6, 8, 10, 12, 14, 16, 18, 22, 24]

  /** Numbers at zero and an absent orientation are left out; the action, the header and the joints never are. */
  predicate LeftOut(c: Command, id: nat) {
    || (id == 6 && c.protocol == 0) || (id == 8 && c.session == 0) || (id == 10 && c.sequence == 0)
    || (id == 12 && c.inputStateId == 0) || (id == 14 && c.inputStateRealUs == 0)
    || (id == 16 && c.clientCreatedUs == 0)
    || (id == 18 && c.clientSendUs == 0) || (id == 24 && c.rootQuat == None)
  }

  lemma LeDecides(v: nat, w: nat, width: nat)
    requires v < Range(width) && w < Range(width)
    ensures Le(v, width) == Le(w, width) <==> v == w
  {
    WordOfLe(v, width);
    WordOfLe(w, width);
  }

  lemma Ranges()
    ensures Range(4) == TWO_TO_THE_32 && Range(8) == 0x1_0000_0000_0000_0000
  {
    assert Range(2) == TWO_TO_THE_16;
  }

  lemma StoredNumber(id: nat, v: nat, width: nat)
    requires (width == 4 && v < TWO_TO_THE_32) || (width == 8 && v < 0x1_0000_0000_0000_0000)
    ensures Number(id, v, width).id == id && (Stores(Number(id, v, width)) <==> v != 0)
  {
    Ranges();
    LeDecides(v, 0, width);
  }

  lemma LastFields(c: Command, h: Header)
    ensures var fs := FieldsOf(c, h);
            && |fs| == 11
            && fs[9].id == 22 && Stores(fs[9]) && fs[10].id == 24 && (Stores(fs[10]) <==> c.rootQuat.Some?)
  {
    hide Number, QuatBytes, HeaderOffset, WithJoints;
  }

  lemma StoredReference(id: nat, target: nat)
    ensures Reference(id, target).id == id && (Stores(Reference(id, target)) <==> target != 0)
  {
  }

  lemma StoredReferences(c: Command, h: Header, i: nat)
    requires i < 2
    ensures |FieldsOf(c, h)| == 11 && FieldsOf(c, h)[i].id == ORDER[i]
    ensures Stores(FieldsOf(c, h)[i]) && !LeftOut(c, ORDER[i])
  {
    hide Number, Stores, FieldsOf, WithJoints, HeaderOffset;
    ReferenceFields(c, h);
    StoredReference(4, HeaderOffset(h));
    StoredReference(20, |WithJoints(c, h).data|);
  }

  lemma StoredNumbers(c: Command, h: Header, i: nat)
    requires 2 <= i < 9
    ensures |FieldsOf(c, h)| == 11 && FieldsOf(c, h)[i].id == ORDER[i]
    ensures Stores(FieldsOf(c, h)[i]) <==> !LeftOut(c, ORDER[i])
  {
    hide Number, Stores, FieldsOf;
    NumberFields(c, h);
    StoredNumber(6, c.protocol, 4);
    StoredNumber(8, c.session, 8);
    StoredNumber(10, c.sequence, 8);
    StoredNumber(12, c.inputStateId, 8);
    StoredNumber(14, c.inputStateRealUs, 8);
    StoredNumber(16, c.clientCreatedUs, 8);
    StoredNumber(18, c.clientSendUs, 8);
  }

  lemma StoredFields(c: Command, h: Header, i: nat)
    requires i < 11
    ensures |FieldsOf(c, h)| == 11 && FieldsOf(c, h)[i].id == ORDER[i]
    ensures Stores(FieldsOf(c, h)[i]) <==> !LeftOut(c, ORDER[i])
  {
    if i < 2 {
      StoredReferences(c, h, i);
    } else if i < 9 {
      StoredNumbers(c, h, i);
    } else {
      LastFields(c, h);
      hide Stores, FieldsOf;
    }
  }

  lemma PresentExactly(b: seq<byte>, pos: int, f: Field)
    requires IsFieldId(f.id) && ReadsBack(b, pos, f)
    ensures Readable(b, pos) && (FieldOffset(b, pos, f.id) == 0 <==> !Stores(f))
  {
  }

  lemma StoredIsWide(f: Field, size: nat, c: Command, h: Header, j: nat)
    requires j < 11 && |FieldsOf(c, h)| == 11 && f == FieldsOf(c, h)[j] && Stores(f)
    ensures WidthOf(f) > 0
  {
    hide Le, HeaderOffset, WithJoints;
  }

  /**
   In an encoded command exactly the fields that are not left out are there, and the encoder's order shows: a field that
   was added later lies in front of one that was added before, so no two of them overlap.
   */
  lemma EncodedLayout(c: Command, h: Header, i: nat, j: nat)
    requires MessageFits(c, h) && i < j < 11
    ensures var b := Encoded(c, h).value;
            && Fits(b, 0, 4) && Readable(b, U32(b, 0)) && IsFieldId(ORDER[i]) && IsFieldId(ORDER[j])
            && (FieldOffset(b, U32(b, 0), ORDER[i]) == 0 <==> LeftOut(c, ORDER[i]))
            && (FieldOffset(b, U32(b, 0), ORDER[j]) == 0 <==> LeftOut(c, ORDER[j]))
            && (!LeftOut(c, ORDER[i]) && !LeftOut(c, ORDER[j]) ==>
                  FieldOffset(b, U32(b, 0), ORDER[j]) < FieldOffset(b, U32(b, 0), ORDER[i]))
  {
    hide Stores, LeftOut, WithJoints, FieldsOf, TableFits, TableOf, NewTable, Extends, FieldOffset, Readable,
         LiesInTable, WidthOf, WellFormed, Distinct, U32, CommandOffset;
    StoredFields(c, h, i);
    StoredFields(c, h, j);
    RootPasses(c, h);
    CommandTable(c, h);
    CommandFieldReads(c, h, i);
    CommandFieldReads(c, h, j);
    PresentExactly(Message(c, h), TableOfMessage(c, h), FieldsOf(c, h)[i]);
    PresentExactly(Message(c, h), TableOfMessage(c, h), FieldsOf(c, h)[j]);
    if Stores(FieldsOf(c, h)[i]) && Stores(FieldsOf(c, h)[j]) {
      FieldsInOrder(WithJoints(c, h), FieldsOf(c, h), i, j, Message(c, h));
      StoredIsWide(FieldsOf(c, h)[j], |WithJoints(c, h).data|, c, h, j);
    }
  }
}
