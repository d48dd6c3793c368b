/**
 The buffer under the FlatBuffers builder: one block of memory that holds data growing down from its end
 and a scratch pad growing up from its start. It is proved to be two independent byte strings.

 Sizes are unbounded naturals here; alignments are powers of two, so the masks of the source are remainders.
 */
module VectorDownward {
  import opened Bytes

  function RoundedUp(n: nat, align: nat): (r: nat)
    requires IsAlignment(align)
    ensures n <= r < n + align && r % align == 0
  {
    n + Padding(n, align)
  }

  /** What a write into a block leaves: it replaces a middle piece. */
  lemma SplicedParts(b: seq<byte>, i: nat, s: seq<byte>, low: nat, high: nat)
    requires low <= i && i + |s| <= high <= |b|
    ensures Splice(b, i, s)[i..] == s + b[i + |s|..]
    ensures Splice(b, i, s)[..i + |s|] == b[..i] + s
    ensures Splice(b, i, s)[..low] == b[..low] && Splice(b, i, s)[high..] == b[high..]
  {
  }

  lemma SplicedZeros(b: seq<byte>, zeroed: seq<byte>, i: nat, count: nat)
    requires i + count <= |b| == |zeroed|
    requires forall j | 0 <= j < |b| :: zeroed[j] == if i <= j < i + count then 0 else b[j]
    ensures zeroed == Splice(b, i, Zeros(count))
  {
  }

  /** Writing over the front of the data, which begins at `cur`. */
  lemma FrontWritten(b: seq<byte>, cur: nat, s: seq<byte>, scratch: nat)
    requires scratch <= cur && cur + |s| <= |b|
    ensures Splice(b, cur, s)[cur..] == s + b[cur..][|s|..]
    ensures Splice(b, cur, s)[..scratch] == b[..scratch]
  {
    SplicedParts(b, cur, s, scratch, cur + |s|);
    assert b[cur + |s|..] == b[cur..][|s|..];
  }

  /** Copies bytes into memory. */
  method WriteAt(memory: array<byte>, at: nat, bytes: seq<byte>)
    requires at + |bytes| <= memory.Length
    modifies memory
    ensures memory[..] == Splice(old(memory[..]), at, bytes)
  {
    forall i | 0 <= i < |bytes| { memory[at + i] := bytes[i]; }
  }

  /** Copies what lies from `high` on to the end of a larger block, and what lies before `low` to its start. */
  method MoveParts(from: array<byte>, high: nat, low: nat, to: array<byte>)
    requires from != to && low <= high <= from.Length <= to.Length
    modifies to
    ensures to[to.Length - (from.Length - high)..] == from[high..] && to[..low] == from[..low]
  {
    var shift := to.Length - from.Length;
    forall i | high <= i < from.Length { to[shift + i] := from[i]; }
    forall i | 0 <= i < low { to[i] := from[i]; }
    forall i | high <= i < from.Length
      ensures to[shift + i] == from[i]
    {
    }
  }

  class Vector {
    const initialSize: nat
    const minAlign: nat
    var buf: array?<byte>
    var size: nat
    var cur: nat
    var scratch: nat

    ghost predicate Valid()
      reads this, buf
    {
      && IsAlignment(minAlign)
      && (buf == null ==> cur == scratch == size == 0)
      && (buf != null ==> scratch <= cur <= buf.Length && size == buf.Length - cur)
    }

    /** What was pushed, the last push first. */
    ghost function Data(): (s: seq<byte>)
      requires Valid()
      reads this, buf
      ensures |s| == size
    {
      if buf == null then [] else buf[cur..]
    }

    /** What was pushed on the scratch pad, the first push first. */
    ghost function Scratch(): (s: seq<byte>)
      requires Valid()
      reads this, buf
      ensures |s| == scratch
    {
      if buf == null then [] else buf[..scratch]
    }

    constructor (initialSize: nat, minAlign: nat)
      requires IsAlignment(minAlign)
      ensures Valid() && Data() == [] && Scratch() == []
      ensures buf == null
    {
      this.initialSize, this.minAlign := initialSize, minAlign;
      buf, size, cur, scratch := null, 0, 0, 0;
    }

    function Unused(): nat
      requires Valid()
      reads this, buf
    {
      cur - scratch
    }

    /** A larger block: the data moves to its end, the scratch pad to its start. */
    method Reallocate(len: nat)
      requires Valid()
      modifies this
      ensures Valid() && fresh(buf) && buf != null
      ensures buf.Length >= (if old(buf) == null then 0 else old(buf.Length)) + len
      ensures Data() == old(Data()) && Scratch() == old(Scratch())
    {
      var oldReserved := if buf == null then 0 else buf.Length;
      var reserved := oldReserved + Max(len, if oldReserved != 0 then oldReserved / 2 else initialSize);
      reserved := RoundedUp(reserved, minAlign);
      var block := new byte[reserved](_ => 0);
      if buf != null {
        MoveParts(buf, cur, scratch, block);
      }
      buf := block;
      cur := reserved - size;
    }

    method EnsureSpace(len: nat)
      requires Valid()
      modifies this
      ensures Valid() && Unused() >= len && (buf == old(buf) || fresh(buf))
      ensures Data() == old(Data()) && Scratch() == old(Scratch())
    {
      if len > Unused() {
        Reallocate(len);
      }
    }

    /** Room for `len` more bytes of data in front; what they hold is not determined. */
    method MakeSpace(len: nat)
      requires Valid()
      modifies this
      ensures Valid() && (buf == old(buf) || fresh(buf))
      ensures size == old(size) + len && (len > 0 ==> buf != null)
      ensures Data()[len..] == old(Data()) && Scratch() == old(Scratch())
    {
      if len != 0 {
        EnsureSpace(len);
        cur := cur - len;
        size := size + len;
      }
    }

    /** Writes bytes into the block. */
    method Store(at: nat, bytes: seq<byte>)
      requires buf != null && at + |bytes| <= buf.Length
      modifies buf
      ensures buf[..] == Splice(old(buf[..]), at, bytes)
    {
      WriteAt(buf, at, bytes);
    }

    method Push(bytes: seq<byte>)
      requires Valid()
      modifies this, buf
      ensures Valid() && (buf == old(buf) || fresh(buf))
      ensures Data() == bytes + old(Data()) && Scratch() == old(Scratch())
    {
      if |bytes| > 0 {
        MakeSpace(|bytes|);
        ghost var block := buf[..];
        assert Data() == block[cur..] && Scratch() == block[..scratch];
        hide Splice;
        Store(cur, bytes);
        FrontWritten(block, cur, bytes, scratch);
        assert Data() == buf[..][cur..] && Scratch() == buf[..][..scratch];
      }
    }

    /** Writes zeros into the block. */
    method ZeroOut(at: nat, count: nat)
      requires buf != null && at + count <= buf.Length
      modifies buf
      ensures buf[..] == Splice(old(buf[..]), at, Zeros(count))
    {
      ghost var block := buf[..];
      var i := 0;
      while i < count
        invariant 0 <= i <= count
        invariant forall j | 0 <= j < buf.Length :: buf[j] == if at <= j < at + i then 0 else block[j]
        modifies buf
      {
        buf[at + i] := 0;
        i := i + 1;
      }
      SplicedZeros(block, buf[..], at, count);
    }

    method Fill(count: nat)
      requires Valid()
      modifies this, buf
      ensures Valid() && (buf == old(buf) || fresh(buf))
      ensures Data() == Zeros(count) + old(Data()) && Scratch() == old(Scratch())
    {
      if count > 0 {
        MakeSpace(count);
        ghost var block := buf[..];
        assert Data() == block[cur..] && Scratch() == block[..scratch];
        hide Splice, Zeros;
        ZeroOut(cur, count);
        FrontWritten(block, cur, Zeros(count), scratch);
        assert Data() == buf[..][cur..] && Scratch() == buf[..][..scratch];
      }
    }

    /** Takes back the last `count` bytes pushed. */
    method Pop(count: nat)
      requires Valid() && count <= size
      modifies this
      ensures Valid() && buf == old(buf)
      ensures Data() == old(Data())[count..] && Scratch() == old(Scratch())
    {
      cur := cur + count;
      size := size - count;
    }

    method ScratchPush(bytes: seq<byte>)
      requires Valid()
      modifies this, buf
      ensures Valid() && (buf == old(buf) || fresh(buf))
      ensures Data() == old(Data()) && Scratch() == old(Scratch()) + bytes
    {
      EnsureSpace(|bytes|);
      if buf != null {
        ghost var block := buf[..];
        assert Data() == block[cur..] && Scratch() == block[..scratch];
        hide Splice;
        Store(scratch, bytes);
        SplicedParts(block, scratch, bytes, scratch, cur);
        scratch := scratch + |bytes|;
        assert Data() == buf[..][cur..] && Scratch() == buf[..][..scratch];
      }
    }

    method ScratchPop(count: nat)
      requires Valid() && count <= scratch
      modifies this
      ensures Valid() && buf == old(buf)
      ensures Data() == old(Data()) && Scratch() == old(Scratch())[..old(scratch) - count]
    {
      scratch := scratch - count;
    }

    method ClearScratch()
      requires Valid()
      modifies this
      ensures Valid() && buf == old(buf)
      ensures Data() == old(Data()) && Scratch() == []
    {
      scratch := 0;
    }

    /** Overwrites data already pushed. The place is counted from the end, as offsets are. */
    method Patch(fromEnd: nat, bytes: seq<byte>)
      requires Valid() && |bytes| <= fromEnd <= size
      modifies buf
      ensures Valid()
      ensures Data() == Splice(old(Data()), size - fromEnd, bytes) && Scratch() == old(Scratch())
    {
      if buf != null {
        var at := buf.Length - fromEnd;
        forall i | 0 <= i < |bytes| { buf[at + i] := bytes[i]; }
      }
    }

    /** The bytes at a place counted from the end. */
    method DataAt(fromEnd: nat, width: nat) returns (s: seq<byte>)
      requires Valid() && width <= fromEnd <= size
      ensures s == Slice(Data(), size - fromEnd, width)
    {
      if buf == null {
        return [];
      }
      s := buf[buf.Length - fromEnd..buf.Length - fromEnd + width];
    }

    method ScratchAt(at: nat, width: nat) returns (s: seq<byte>)
      requires Valid() && at + width <= scratch
      ensures s == Slice(Scratch(), at, width)
    {
      if buf == null {
        return [];
      }
      s := buf[at..at + width];
    }
  }
}
