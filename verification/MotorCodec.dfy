/**
 The bulk decoder of motor states. Each motor is a table with its own vtable; the decoder turns a vtable into
 a plan, one sorted run of pads and scalars, and reads a whole motor with it. Plans are kept per vtable for
 the length of one message.
 */
module MotorCodec {
  import opened Bytes
  import opened Wrappers

  datatype MotorError = OutsideBuffer | InvalidVTable | ScalarOutsideTable | Overlapping | InvalidTableOffset

  /** What is read for a field: its bytes, or the default zero when it is absent. */
  datatype Reading = Zero | Scalar(bytes: seq<byte>)

  datatype Motor = Motor(q: Reading, dq: Reading, tauEst: Reading, temperature: Reading)

  /** A field of the schema: its vtable slot and its width. */
  datatype Slot = Slot(id: nat, width: nat)

  const FIELDS: seq<Slot> := [Slot(12, 4), Slot(14, 4), Slot(18, 4), Slot(26, 1)]

  /** A field that is present: where it is in the table, which field it is, how wide. */
  datatype Present = Present(offset: nat, index: nat, width: nat)

  datatype Part = Pad(count: nat) | Take(width: nat)

  /** `indices[i]` is the place of field `i` among the values read; absent fields name the appended zero. */
  datatype Plan = Plan(parts: seq<Part>, indices: seq<nat>, objectSize: nat)

  // ---------------------------------------------------------------------------------------
  // Per-field access
  // ---------------------------------------------------------------------------------------

  /** The two sizes of the vtable make sense, and all of it lies in the buffer. */
  predicate SoundVTable(data: seq<byte>, vtable: int) {
    && Fits(data, vtable, 4)
    && 4 <= U16(data, vtable) && U16(data, vtable) % 2 == 0 && 4 <= U16(data, vtable + 2)
    && Fits(data, vtable, U16(data, vtable))
  }

  function ObjectSize(data: seq<byte>, vtable: int): nat
    requires SoundVTable(data, vtable)
  {
    U16(data, vtable + 2)
  }

  /** The offset of field `i` in the table, or zero. */
  function OffsetOf(data: seq<byte>, vtable: int, i: nat): nat
    requires SoundVTable(data, vtable) && i < |FIELDS|
  {
    if FIELDS[i].id < U16(data, vtable) then U16(data, vtable + FIELDS[i].id) else 0
  }

  predicate InRange(data: seq<byte>, vtable: int, i: nat)
    requires SoundVTable(data, vtable) && i < |FIELDS|
  {
    var offset := OffsetOf(data, vtable, i);
    offset != 0 ==> 4 <= offset && offset + FIELDS[i].width <= ObjectSize(data, vtable)
  }

  predicate Apart(data: seq<byte>, vtable: int, i: nat, j: nat)
    requires SoundVTable(data, vtable) && i < |FIELDS| && j < |FIELDS|
  {
    var a, b := OffsetOf(data, vtable, i), OffsetOf(data, vtable, j);
    a != 0 && b != 0 ==> a + FIELDS[i].width <= b || b + FIELDS[j].width <= a
  }

  /** The field read at its own offset, as a generated accessor would. */
  function FieldAt(data: seq<byte>, pos: int, vtable: int, i: nat): Reading
    requires SoundVTable(data, vtable) && i < |FIELDS| && InRange(data, vtable, i)
    requires Fits(data, pos, ObjectSize(data, vtable))
  {
    var offset := OffsetOf(data, vtable, i);
    if offset == 0 then Zero else Scalar(Slice(data, pos + offset, FIELDS[i].width))
  }

  // ---------------------------------------------------------------------------------------
  // Plans
  // ---------------------------------------------------------------------------------------

  /** The fields present among the first `n`, in the order of the schema. */
  function PresentFields(data: seq<byte>, vtable: int, n: nat): seq<Present>
    requires SoundVTable(data, vtable) && n <= |FIELDS|
  {
    if n == 0 then []
    else
      var before, offset := PresentFields(data, vtable, n - 1), OffsetOf(data, vtable, n - 1);
      if offset == 0 then before else before + [Present(offset, n - 1, FIELDS[n - 1].width)]
  }

  predicate NotAfter(a: Present, b: Present) {
    a.offset < b.offset || (a.offset == b.offset && a.index <= b.index)
  }

  function Inserted(fs: seq<Present>, f: Present): (r: seq<Present>)
    ensures |r| == |fs| + 1
  {
    if fs == [] || NotAfter(f, fs[0]) then [f] + fs
    else [fs[0]] + Inserted(fs[1..], f)
  }

  /** The fields ordered by where they lie. */
  function Sorted(fs: seq<Present>): (r: seq<Present>)
    ensures |r| == |fs|
  {
    if fs == [] then [] else Inserted(Sorted(fs[1..]), fs[0])
  }

  /** Where the first `n` fields of a sorted run end. */
  function Cursor(fs: seq<Present>, n: nat): nat
    requires n <= |fs|
  {
    if n == 0 then 0 else fs[n - 1].offset + fs[n - 1].width
  }

  /** No field begins before the previous one ends. */
  predicate Runs(fs: seq<Present>, n: nat)
    requires n <= |fs|
  {
    forall k | 0 <= k < n :: Cursor(fs, k) <= fs[k].offset
  }

  function Padded(parts: seq<Part>, gap: nat): seq<Part> {
    if gap > 0 then parts + [Pad(gap)] else parts
  }

  function Parts(fs: seq<Present>, n: nat): seq<Part>
    requires n <= |fs| && Runs(fs, n)
  {
    if n == 0 then []
    else Padded(Parts(fs, n - 1), fs[n - 1].offset - Cursor(fs, n - 1)) + [Take(fs[n - 1].width)]
  }

  function Indices(fs: seq<Present>, n: nat): (r: seq<nat>)
    requires n <= |fs| && forall k | 0 <= k < |fs| :: fs[k].index < |FIELDS|
    ensures |r| == |FIELDS|
  {
    if n == 0 then seq(|FIELDS|, _ => |fs|)
    else Indices(fs, n - 1)[fs[n - 1].index := n - 1]
  }

  function PlanFrom(fs: seq<Present>, objectSize: nat): Result<Plan, MotorError>
    requires forall k | 0 <= k < |fs| :: fs[k].index < |FIELDS|
  {
    if !Runs(fs, |fs|) then Err(Overlapping)
    else Ok(Plan(Parts(fs, |fs|), Indices(fs, |fs|), objectSize))
  }

  // ---------------------------------------------------------------------------------------
  // Sorting
  // ---------------------------------------------------------------------------------------

  ghost predicate Ordered(fs: seq<Present>) {
    forall k, l | 0 <= k < l < |fs| :: NotAfter(fs[k], fs[l])
  }

  lemma {:induction false} InsertedMembers(fs: seq<Present>, f: Present)
    ensures multiset(Inserted(fs, f)) == multiset(fs) + multiset{f}
  {
    if fs == [] || NotAfter(f, fs[0]) {
      assert multiset([f] + fs) == multiset([f]) + multiset(fs);
    } else {
      InsertedMembers(fs[1..], f);
      assert fs == [fs[0]] + fs[1..];
    }
  }

  lemma {:induction false} SortedMultiset(fs: seq<Present>)
    ensures multiset(Sorted(fs)) == multiset(fs)
  {
    if fs != [] {
      SortedMultiset(fs[1..]);
      InsertedMembers(Sorted(fs[1..]), fs[0]);
      assert fs == [fs[0]] + fs[1..];
    }
  }

  /** Sorting neither loses nor adds a field. */
  lemma SortedMembers(fs: seq<Present>)
    ensures forall f :: f in Sorted(fs) <==> f in fs
  {
    SortedMultiset(fs);
    forall f
      ensures f in Sorted(fs) <==> f in fs
    {
      assert f in Sorted(fs) <==> f in multiset(Sorted(fs));
      assert f in fs <==> f in multiset(fs);
    }
  }

  lemma {:induction false} InsertedOrdered(fs: seq<Present>, f: Present)
    requires Ordered(fs)
    ensures Ordered(Inserted(fs, f))
  {
    if fs != [] && !NotAfter(f, fs[0]) {
      InsertedOrdered(fs[1..], f);
      var r := Inserted(fs[1..], f);
      InsertedMembers(fs[1..], f);
      forall k | 0 <= k < |r|
        ensures NotAfter(fs[0], r[k])
      {
        assert r[k] in multiset(r);
        assert r[k] in fs[1..] || r[k] == f;
      }
    }
  }

  lemma {:induction false} SortedOrdered(fs: seq<Present>)
    ensures Ordered(Sorted(fs))
  {
    if fs != [] {
      SortedOrdered(fs[1..]);
      InsertedOrdered(Sorted(fs[1..]), fs[0]);
    }
  }

  ghost predicate Wide(fs: seq<Present>) {
    forall k | 0 <= k < |fs| :: fs[k].width > 0
  }

  /** `fs` are the present ones of the first `n` fields, each once, in any order. */
  ghost predicate FieldsAmong(data: seq<byte>, vtable: int, fs: seq<Present>, n: nat)
    requires SoundVTable(data, vtable) && n <= |FIELDS|
  {
    && (forall k | 0 <= k < |fs| ::
          && fs[k].index < n && fs[k].offset == OffsetOf(data, vtable, fs[k].index) != 0
          && fs[k].width == FIELDS[fs[k].index].width)
    && (forall k, l | 0 <= k < l < |fs| :: fs[k].index != fs[l].index)
    && (forall i | 0 <= i < n && OffsetOf(data, vtable, i) != 0 :: exists k :: 0 <= k < |fs| && fs[k].index == i)
  }

  ghost predicate SameFields(data: seq<byte>, vtable: int, fs: seq<Present>)
    requires SoundVTable(data, vtable)
  {
    FieldsAmong(data, vtable, fs, |FIELDS|)
  }

  lemma {:induction false} InsertedDistinct(fs: seq<Present>, f: Present)
    requires forall k, l | 0 <= k < l < |fs| :: fs[k].index != fs[l].index
    requires forall k | 0 <= k < |fs| :: fs[k].index != f.index
    ensures forall k, l | 0 <= k < l < |Inserted(fs, f)| :: Inserted(fs, f)[k].index != Inserted(fs, f)[l].index
  {
    if fs != [] && !NotAfter(f, fs[0]) {
      InsertedDistinct(fs[1..], f);
      InsertedMembers(fs[1..], f);
      var r := Inserted(fs[1..], f);
      forall k | 0 <= k < |r|
        ensures r[k].index != fs[0].index
      {
        assert r[k] in multiset(r);
        assert r[k] in fs[1..] || r[k] == f;
      }
    }
  }

  lemma {:induction false} SortedDistinct(fs: seq<Present>)
    requires forall k, l | 0 <= k < l < |fs| :: fs[k].index != fs[l].index
    ensures forall k, l | 0 <= k < l < |Sorted(fs)| :: Sorted(fs)[k].index != Sorted(fs)[l].index
  {
    if fs != [] {
      SortedDistinct(fs[1..]);
      SortedMembers(fs[1..]);
      var r := Sorted(fs[1..]);
      forall k | 0 <= k < |r|
        ensures r[k].index != fs[0].index
      {
        assert r[k] in r;
        assert r[k] in fs[1..];
      }
      InsertedDistinct(r, fs[0]);
    }
  }

  lemma MembersKeep(data: seq<byte>, vtable: int, all: seq<Present>, fs: seq<Present>)
    requires SoundVTable(data, vtable) && SameFields(data, vtable, all)
    requires forall f :: f in fs <==> f in all
    requires forall k, l | 0 <= k < l < |fs| :: fs[k].index != fs[l].index
    ensures SameFields(data, vtable, fs)
  {
    hide OffsetOf, SoundVTable;
    forall k | 0 <= k < |fs|
      ensures fs[k] in all
    {
      assert fs[k] in fs;
    }
    forall i | 0 <= i < |FIELDS| && OffsetOf(data, vtable, i) != 0
      ensures exists k :: 0 <= k < |fs| && fs[k].index == i
    {
      var m :| 0 <= m < |all| && all[m].index == i;
      assert all[m] in fs;
    }
  }

  lemma NoneAmong(data: seq<byte>, vtable: int)
    requires SoundVTable(data, vtable)
    ensures FieldsAmong(data, vtable, [], 0)
  {
  }

  lemma OneMoreAmong(data: seq<byte>, vtable: int, fs: seq<Present>, i: nat)
    requires SoundVTable(data, vtable) && i < |FIELDS| && FieldsAmong(data, vtable, fs, i)
    ensures var offset := OffsetOf(data, vtable, i);
            FieldsAmong(data, vtable, if offset == 0 then fs else fs + [Present(offset, i, FIELDS[i].width)], i + 1)
  {
    hide SoundVTable, OffsetOf;
    var offset := OffsetOf(data, vtable, i);
    if offset != 0 {
      var all := fs + [Present(offset, i, FIELDS[i].width)];
      forall m | 0 <= m < i + 1 && OffsetOf(data, vtable, m) != 0
        ensures exists k :: 0 <= k < |all| && all[k].index == m
      {
        if m == i {
          assert all[|fs|].index == i;
        } else {
          var k :| 0 <= k < |fs| && fs[k].index == m;
          assert all[k].index == m;
        }
      }
    }
  }

  lemma {:induction false} PresentAmong(data: seq<byte>, vtable: int, n: nat)
    requires SoundVTable(data, vtable) && n <= |FIELDS|
    ensures FieldsAmong(data, vtable, PresentFields(data, vtable, n), n)
  {
    hide SoundVTable, OffsetOf, FieldsAmong;
    if n == 0 {
      NoneAmong(data, vtable);
    } else {
      PresentAmong(data, vtable, n - 1);
      OneMoreAmong(data, vtable, PresentFields(data, vtable, n - 1), n - 1);
    }
  }

  lemma PresentSame(data: seq<byte>, vtable: int)
    requires SoundVTable(data, vtable)
    ensures SameFields(data, vtable, PresentFields(data, vtable, |FIELDS|))
  {
    PresentAmong(data, vtable, |FIELDS|);
    hide PresentFields, OffsetOf, SoundVTable;
  }

  lemma SameDistinct(data: seq<byte>, vtable: int, fs: seq<Present>)
    requires SoundVTable(data, vtable) && SameFields(data, vtable, fs)
    ensures forall k, l | 0 <= k < l < |fs| :: fs[k].index != fs[l].index
  {
    hide SoundVTable, OffsetOf;
  }

  lemma SameWide(data: seq<byte>, vtable: int, fs: seq<Present>)
    requires SoundVTable(data, vtable) && SameFields(data, vtable, fs)
    ensures Wide(fs)
  {
    hide SoundVTable, OffsetOf;
  }

  lemma SortedFields(data: seq<byte>, vtable: int)
    requires SoundVTable(data, vtable)
    ensures var fs := Sorted(PresentFields(data, vtable, |FIELDS|));
            SameFields(data, vtable, fs) && Ordered(fs) && Wide(fs)
  {
    var all := PresentFields(data, vtable, |FIELDS|);
    PresentSame(data, vtable);
    hide *;
    SortedMembers(all);
    SortedOrdered(all);
    SameDistinct(data, vtable, all);
    SortedDistinct(all);
    MembersKeep(data, vtable, all, Sorted(all));
    SameWide(data, vtable, Sorted(all));
  }

  /** The plan for a vtable, or why there is none. */
  function PlanOf(data: seq<byte>, vtable: int): Result<Plan, MotorError> {
    if !Fits(data, vtable, 4) then Err(OutsideBuffer)
    else
      var length, objectSize := U16(data, vtable), U16(data, vtable + 2);
      if length < 4 || length % 2 != 0 || objectSize < 4 then Err(InvalidVTable)
      else if !Fits(data, vtable, length) then Err(OutsideBuffer)
      else if exists i :: 0 <= i < |FIELDS| && !InRange(data, vtable, i) then Err(ScalarOutsideTable)
      else
        var fs := PresentFields(data, vtable, |FIELDS|);
        SortedFields(data, vtable);
        PlanFrom(Sorted(fs), objectSize)
  }

  // ---------------------------------------------------------------------------------------
  // When there is a plan
  // ---------------------------------------------------------------------------------------

  predicate Before(a: Present, b: Present) {
    a.offset + a.width <= b.offset
  }

  /** In a sorted run it is enough to compare neighbours. */
  lemma {:induction false} RunsBefore(fs: seq<Present>, k: nat, l: nat)
    requires Wide(fs) && Runs(fs, |fs|) && k < l < |fs|
    ensures Before(fs[k], fs[l])
    decreases l
  {
    assert Cursor(fs, l) <= fs[l].offset;
    if k < l - 1 {
      RunsBefore(fs, k, l - 1);
    }
  }

  lemma ApartRuns(fs: seq<Present>)
    requires Ordered(fs) && Wide(fs)
    requires forall k, l | 0 <= k < l < |fs| :: Before(fs[k], fs[l]) || Before(fs[l], fs[k])
    ensures Runs(fs, |fs|)
  {
    forall k | 0 <= k < |fs|
      ensures Cursor(fs, k) <= fs[k].offset
    {
      if k > 0 {
        var a, b := fs[k - 1], fs[k];
        assert NotAfter(a, b) && (Before(a, b) || Before(b, a));
      }
    }
  }

  predicate AllInRange(data: seq<byte>, vtable: int)
    requires SoundVTable(data, vtable)
  {
    forall i | 0 <= i < |FIELDS| :: InRange(data, vtable, i)
  }

  predicate AllApart(data: seq<byte>, vtable: int)
    requires SoundVTable(data, vtable)
  {
    forall i, j | 0 <= i < j < |FIELDS| :: Apart(data, vtable, i, j)
  }

  lemma ApartSymmetric(data: seq<byte>, vtable: int, i: nat, j: nat)
    requires SoundVTable(data, vtable) && AllApart(data, vtable) && i < |FIELDS| && j < |FIELDS| && i != j
    ensures Apart(data, vtable, i, j)
  {
    hide SoundVTable, OffsetOf;
    if j < i {
      assert Apart(data, vtable, j, i);
    }
  }

  lemma ApartSorted(data: seq<byte>, vtable: int, fs: seq<Present>)
    requires SoundVTable(data, vtable) && SameFields(data, vtable, fs) && Ordered(fs) && AllApart(data, vtable)
    ensures Runs(fs, |fs|)
  {
    SameWide(data, vtable, fs);
    forall k, l | 0 <= k < l < |fs|
      ensures Before(fs[k], fs[l]) || Before(fs[l], fs[k])
    {
      ApartSymmetric(data, vtable, fs[k].index, fs[l].index);
    }
    hide SoundVTable, OffsetOf, Runs, Ordered, AllApart;
    ApartRuns(fs);
  }

  lemma SortedApart(data: seq<byte>, vtable: int, fs: seq<Present>, i: nat, j: nat)
    requires SoundVTable(data, vtable) && SameFields(data, vtable, fs) && Runs(fs, |fs|) && i < j < |FIELDS|
    ensures Apart(data, vtable, i, j)
  {
    hide SoundVTable, OffsetOf, Runs, Wide;
    SameWide(data, vtable, fs);
    if OffsetOf(data, vtable, i) != 0 && OffsetOf(data, vtable, j) != 0 {
      var k :| 0 <= k < |fs| && fs[k].index == i;
      var l :| 0 <= l < |fs| && fs[l].index == j;
      if k < l {
        RunsBefore(fs, k, l);
      } else {
        RunsBefore(fs, l, k);
      }
    }
  }

  /**
   There is a plan for exactly the vtables whose sizes make sense, that lie in the buffer, and whose present
   fields lie in the table and do not overlap.
   */
  lemma PlanExists(data: seq<byte>, vtable: int)
    ensures PlanOf(data, vtable).Ok? <==>
            SoundVTable(data, vtable) && AllInRange(data, vtable) && AllApart(data, vtable)
  {
    if SoundVTable(data, vtable) && AllInRange(data, vtable) {
      var fs := Sorted(PresentFields(data, vtable, |FIELDS|));
      SortedFields(data, vtable);
      if AllApart(data, vtable) {
        ApartSorted(data, vtable, fs);
      }
      if Runs(fs, |fs|) {
        forall i, j | 0 <= i < j < |FIELDS|
          ensures Apart(data, vtable, i, j)
        {
          SortedApart(data, vtable, fs, i, j);
        }
      }
    }
    hide Sorted, PresentFields, Runs, U16, Parts, Indices, InRange, Apart;
  }

  // ---------------------------------------------------------------------------------------
  // Reading with a plan
  // ---------------------------------------------------------------------------------------

  function WidthOf(part: Part): nat {
    match part
    case Pad(count) => count
    case Take(width) => width
  }

  function Size(parts: seq<Part>): nat
    decreases |parts|
  {
    if parts == [] then 0 else Size(parts[..|parts| - 1]) + WidthOf(parts[|parts| - 1])
  }

  /** The scalars that a run of parts takes from the bytes at `pos`; pads are skipped. */
  function Values(parts: seq<Part>, data: seq<byte>, pos: int): seq<Reading>
    requires Fits(data, pos, Size(parts))
    decreases |parts|
  {
    if parts == [] then []
    else
      var before := parts[..|parts| - 1];
      Values(before, data, pos) +
      match parts[|parts| - 1]
      case Pad(_) => []
      case Take(width) => [Scalar(Slice(data, pos + Size(before), width))]
  }

  lemma SizeAppend(parts: seq<Part>, part: Part)
    ensures Size(parts + [part]) == Size(parts) + WidthOf(part)
  {
    assert (parts + [part])[..|parts|] == parts;
  }

  lemma PadReads(parts: seq<Part>, gap: nat, data: seq<byte>, pos: int)
    requires Fits(data, pos, Size(parts) + gap)
    ensures Size(Padded(parts, gap)) == Size(parts) + gap
    ensures Values(Padded(parts, gap), data, pos) == Values(parts, data, pos)
  {
    SizeAppend(parts, Pad(gap));
    assert (parts + [Pad(gap)])[..|parts|] == parts;
  }

  lemma TakeReads(parts: seq<Part>, width: nat, data: seq<byte>, pos: int)
    requires Fits(data, pos, Size(parts) + width)
    ensures Size(parts + [Take(width)]) == Size(parts) + width
    ensures Values(parts + [Take(width)], data, pos) ==
            Values(parts, data, pos) + [Scalar(Slice(data, pos + Size(parts), width))]
  {
    SizeAppend(parts, Take(width));
    assert (parts + [Take(width)])[..|parts|] == parts;
  }

  lemma PaddedSize(parts: seq<Part>, gap: nat)
    ensures Size(Padded(parts, gap)) == Size(parts) + gap
  {
    SizeAppend(parts, Pad(gap));
  }

  /** The last step of laying out a run. */
  lemma LastPart(fs: seq<Present>, n: nat)
    requires 0 < n <= |fs| && Runs(fs, n)
    ensures Runs(fs, n - 1) && Cursor(fs, n - 1) <= fs[n - 1].offset
    ensures Parts(fs, n) == Padded(Parts(fs, n - 1), fs[n - 1].offset - Cursor(fs, n - 1)) + [Take(fs[n - 1].width)]
  {
    hide Padded;
  }

  lemma NoParts(fs: seq<Present>)
    ensures Runs(fs, 0) && Parts(fs, 0) == []
  {
  }

  lemma {:induction false} PartsSize(fs: seq<Present>, n: nat)
    requires n <= |fs| && Runs(fs, n)
    ensures Size(Parts(fs, n)) == Cursor(fs, n)
  {
    hide Parts, Padded, Runs;
    if n == 0 {
      NoParts(fs);
    } else {
      LastPart(fs, n);
      var gap := fs[n - 1].offset - Cursor(fs, n - 1);
      PartsSize(fs, n - 1);
      hide Size;
      PaddedSize(Parts(fs, n - 1), gap);
      SizeAppend(Padded(Parts(fs, n - 1), gap), Take(fs[n - 1].width));
    }
  }

  /** The last field of a run is read where it lies; a pad, if there is one, reads nothing. */
  lemma LastRead(fs: seq<Present>, n: nat, data: seq<byte>, pos: int)
    requires 0 < n <= |fs| && Runs(fs, n) && Fits(data, pos, Cursor(fs, n))
    ensures Runs(fs, n - 1) && Cursor(fs, n - 1) <= Cursor(fs, n)
    ensures Size(Parts(fs, n - 1)) == Cursor(fs, n - 1) && Size(Parts(fs, n)) == Cursor(fs, n)
    ensures Values(Parts(fs, n), data, pos) ==
            Values(Parts(fs, n - 1), data, pos) + [Scalar(Slice(data, pos + fs[n - 1].offset, fs[n - 1].width))]
  {
    hide Parts, Runs, Size, Padded, Values, Slice;
    LastPart(fs, n);
    PartsSize(fs, n);
    PartsSize(fs, n - 1);
    var before, gap := Parts(fs, n - 1), fs[n - 1].offset - Cursor(fs, n - 1);
    PadReads(before, gap, data, pos);
    TakeReads(Padded(before, gap), fs[n - 1].width, data, pos);
  }

  ghost predicate ReadsEach(fs: seq<Present>, n: nat, data: seq<byte>, pos: int, vs: seq<Reading>)
    requires n <= |fs|
  {
    && |vs| == n
    && forall k | 0 <= k < n ::
         Fits(data, pos + fs[k].offset, fs[k].width) && vs[k] == Scalar(Slice(data, pos + fs[k].offset, fs[k].width))
  }

  lemma NoneRead(fs: seq<Present>, data: seq<byte>, pos: int)
    requires Fits(data, pos, 0)
    ensures Runs(fs, 0) && Size(Parts(fs, 0)) == 0 && Cursor(fs, 0) == 0
    ensures ReadsEach(fs, 0, data, pos, Values(Parts(fs, 0), data, pos))
  {
  }

  lemma ReadsNext(fs: seq<Present>, n: nat, data: seq<byte>, pos: int, vs: seq<Reading>)
    requires 0 < n <= |fs| && ReadsEach(fs, n - 1, data, pos, vs) && Fits(data, pos + fs[n - 1].offset, fs[n - 1].width)
    ensures ReadsEach(fs, n, data, pos, vs + [Scalar(Slice(data, pos + fs[n - 1].offset, fs[n - 1].width))])
  {
    hide Slice;
  }

  /** A sorted run with pads reads every field at its own offset. */
  lemma {:induction false} PartsRead(fs: seq<Present>, n: nat, data: seq<byte>, pos: int)
    requires n <= |fs| && Runs(fs, n) && Fits(data, pos, Cursor(fs, n))
    ensures Size(Parts(fs, n)) == Cursor(fs, n)
    ensures ReadsEach(fs, n, data, pos, Values(Parts(fs, n), data, pos))
  {
    hide Parts, Size, Runs, Slice, ReadsEach;
    if n == 0 {
      NoneRead(fs, data, pos);
    } else {
      LastRead(fs, n, data, pos);
      PartsRead(fs, n - 1, data, pos);
      hide Values;
      ReadsNext(fs, n, data, pos, Values(Parts(fs, n - 1), data, pos));
    }
  }

  lemma {:induction false} IndicesFind(fs: seq<Present>, n: nat, i: nat)
    requires n <= |fs| && i < |FIELDS|
    requires forall k | 0 <= k < |fs| :: fs[k].index < |FIELDS|
    requires forall k, l | 0 <= k < l < |fs| :: fs[k].index != fs[l].index
    ensures forall k | 0 <= k < n && fs[k].index == i :: Indices(fs, n)[i] == k
    ensures (forall k | 0 <= k < n :: fs[k].index != i) ==> Indices(fs, n)[i] == |fs|
  {
    if n > 0 {
      IndicesFind(fs, n - 1, i);
    }
  }

  /** What a plan reads for field `i`. */
  function PlannedReading(plan: Plan, data: seq<byte>, pos: int, i: nat): Reading
    requires Fits(data, pos, Size(plan.parts)) && i < |plan.indices|
    requires plan.indices[i] <= |Values(plan.parts, data, pos)|
  {
    (Values(plan.parts, data, pos) + [Zero])[plan.indices[i]]
  }

  lemma CursorInObject(data: seq<byte>, vtable: int, fs: seq<Present>)
    requires SoundVTable(data, vtable) && SameFields(data, vtable, fs) && AllInRange(data, vtable)
    ensures Cursor(fs, |fs|) <= ObjectSize(data, vtable)
  {
    hide SoundVTable, OffsetOf, ObjectSize;
    if fs != [] {
      assert InRange(data, vtable, fs[|fs| - 1].index);
    }
  }

  lemma PlanParts(data: seq<byte>, vtable: int) returns (fs: seq<Present>)
    requires PlanOf(data, vtable).Ok?
    ensures SoundVTable(data, vtable) && AllInRange(data, vtable) && SameFields(data, vtable, fs) && Runs(fs, |fs|)
    ensures PlanOf(data, vtable).value == Plan(Parts(fs, |fs|), Indices(fs, |fs|), ObjectSize(data, vtable))
  {
    PlanExists(data, vtable);
    SortedFields(data, vtable);
    fs := Sorted(PresentFields(data, vtable, |FIELDS|));
    hide Sorted, PresentFields, Runs, U16, Parts, Indices, InRange, Apart;
  }

  lemma FieldFound(data: seq<byte>, vtable: int, fs: seq<Present>, pos: int, i: nat, vs: seq<Reading>)
    requires SoundVTable(data, vtable) && SameFields(data, vtable, fs) && i < |FIELDS| && InRange(data, vtable, i)
    requires Fits(data, pos, ObjectSize(data, vtable)) && ReadsEach(fs, |fs|, data, pos, vs)
    ensures |Indices(fs, |fs|)| == |FIELDS| && Indices(fs, |fs|)[i] <= |vs|
    ensures (vs + [Zero])[Indices(fs, |fs|)[i]] == FieldAt(data, pos, vtable, i)
  {
    hide SoundVTable, OffsetOf, Indices, ObjectSize, Slice;
    SameDistinct(data, vtable, fs);
    IndicesFind(fs, |fs|, i);
    if OffsetOf(data, vtable, i) != 0 {
      var k :| 0 <= k < |fs| && fs[k].index == i;
    }
  }

  /**
   One read with a plan stays inside the object and gives, for each field, what the accessor gives: the bytes
   at the field's own offset, or zero when the field is absent.
   */
  lemma PlanReads(data: seq<byte>, vtable: int, pos: int, i: nat)
    requires PlanOf(data, vtable).Ok? && i < |FIELDS|
    requires Fits(data, pos, PlanOf(data, vtable).value.objectSize)
    ensures SoundVTable(data, vtable) && InRange(data, vtable, i)
    ensures var plan := PlanOf(data, vtable).value;
            && plan.objectSize == ObjectSize(data, vtable) && Size(plan.parts) <= plan.objectSize
            && |plan.indices| == |FIELDS| && plan.indices[i] <= |Values(plan.parts, data, pos)|
            && PlannedReading(plan, data, pos, i) == FieldAt(data, pos, vtable, i)
  {
    var fs := PlanParts(data, vtable);
    CursorInObject(data, vtable, fs);
    assert InRange(data, vtable, i);
    hide PlanOf, SoundVTable, OffsetOf, Parts, Indices, Values, Size, Runs, ObjectSize, AllInRange;
    PartsRead(fs, |fs|, data, pos);
    FieldFound(data, vtable, fs, pos, i, Values(Parts(fs, |fs|), data, pos));
  }

  // ---------------------------------------------------------------------------------------
  // Messages
  // ---------------------------------------------------------------------------------------

  /** A motor read field by field, when its vtable is one the decoder accepts. */
  function MotorAt(data: seq<byte>, pos: int): Result<Motor, MotorError> {
    if !Fits(data, pos, 4) then Err(OutsideBuffer)
    else
      var vtable := pos - S32(data, pos);
      match PlanOf(data, vtable)
      case Err(e) => Err(e)
      case Ok(_) =>
        PlanExists(data, vtable);
        if !Fits(data, pos, ObjectSize(data, vtable)) then Err(OutsideBuffer)
        else Ok(Motor(FieldAt(data, pos, vtable, 0), FieldAt(data, pos, vtable, 1), FieldAt(data, pos, vtable, 2),
                      FieldAt(data, pos, vtable, 3)))
  }

  /** The first `n` motors of a vector of tables; the first that is refused refuses all. */
  function MotorsFrom(data: seq<byte>, first: int, n: nat): Result<seq<Motor>, MotorError>
    requires Fits(data, first, 4 * n)
  {
    if n == 0 then Ok([])
    else match MotorsFrom(data, first, n - 1)
      case Err(e) => Err(e)
      case Ok(motors) =>
        var at := first + 4 * (n - 1);
        if U32(data, at) < 4 then Err(InvalidTableOffset)
        else match MotorAt(data, at + U32(data, at))
          case Err(e) => Err(e)
          case Ok(motor) => Ok(motors + [motor])
  }

  /** The motors of a message, every field read by itself and no plan kept. */
  function MotorsOf(data: seq<byte>, root: nat, offset: nat): Result<seq<Motor>, MotorError> {
    if offset == 0 then Ok([])
    else if !Fits(data, root + offset, 4) then Err(OutsideBuffer)
    else
      var vector := root + offset + U32(data, root + offset);
      if !Fits(data, vector, 4) then Err(OutsideBuffer)
      else if !Fits(data, vector + 4, 4 * U32(data, vector)) then Err(OutsideBuffer)
      else MotorsFrom(data, vector + 4, U32(data, vector))
  }

  lemma PresentNext(data: seq<byte>, vtable: int, i: nat)
    requires SoundVTable(data, vtable) && i < |FIELDS|
    ensures PresentFields(data, vtable, i + 1) ==
            var before, offset := PresentFields(data, vtable, i), OffsetOf(data, vtable, i);
            if offset == 0 then before else before + [Present(offset, i, FIELDS[i].width)]
  {
    hide OffsetOf;
  }

  /** Looks at field `i`: it may be absent, present, or outside the table. */
  method CollectField(data: seq<byte>, vtable: int, before: seq<Present>, i: nat) returns (ok: bool, fs: seq<Present>)
    requires SoundVTable(data, vtable) && i < |FIELDS| && before == PresentFields(data, vtable, i)
    ensures ok <==> InRange(data, vtable, i)
    ensures ok ==> fs == PresentFields(data, vtable, i + 1)
  {
    PresentNext(data, vtable, i);
    hide SoundVTable, OffsetOf, ObjectSize, PresentFields;
    fs := before;
    var offset := OffsetOf(data, vtable, i);
    if offset != 0 {
      if offset < 4 || offset + FIELDS[i].width > ObjectSize(data, vtable) {
        return false, fs;
      }
      fs := fs + [Present(offset, i, FIELDS[i].width)];
    }
    ok := true;
  }

  /** Collects the present fields, in the order of the schema. */
  method CollectFields(data: seq<byte>, vtable: int) returns (r: Result<seq<Present>, MotorError>)
    requires SoundVTable(data, vtable)
    ensures r == if AllInRange(data, vtable) then Ok(PresentFields(data, vtable, |FIELDS|)) else Err(ScalarOutsideTable)
  {
    assert PresentFields(data, vtable, 0) == [];
    hide SoundVTable, InRange, PresentFields;
    var fs := [];
    var i := 0;
    while i < |FIELDS|
      invariant 0 <= i <= |FIELDS| && fs == PresentFields(data, vtable, i)
      invariant forall j | 0 <= j < i :: InRange(data, vtable, j)
    {
      var ok;
      ok, fs := CollectField(data, vtable, fs, i);
      if !ok {
        return Err(ScalarOutsideTable);
      }
      i := i + 1;
    }
    r := Ok(fs);
  }

  /** Walks a sorted run: pads the gaps, refuses an overlap, and notes where each field's value will be. */
  method LayOut(fs: seq<Present>, objectSize: nat) returns (r: Result<Plan, MotorError>)
    requires forall k | 0 <= k < |fs| :: fs[k].index < |FIELDS|
    ensures r == PlanFrom(fs, objectSize)
  {
    var indices := seq(|FIELDS|, _ => |fs|);
    var cursor, parts := 0, [];
    var k := 0;
    while k < |fs|
      invariant 0 <= k <= |fs| && Runs(fs, k) && cursor == Cursor(fs, k)
      invariant parts == Parts(fs, k) && indices == Indices(fs, k)
    {
      if fs[k].offset < cursor {
        return Err(Overlapping);
      }
      if fs[k].offset > cursor {
        parts := parts + [Pad(fs[k].offset - cursor)];
      }
      parts := parts + [Take(fs[k].width)];
      indices := indices[fs[k].index := k];
      cursor := fs[k].offset + fs[k].width;
      k := k + 1;
    }
    r := Ok(Plan(parts, indices, objectSize));
  }

  method StatePlan(data: seq<byte>, vtable: int) returns (r: Result<Plan, MotorError>)
    ensures r == PlanOf(data, vtable)
  {
    if !Fits(data, vtable, 4) {
      return Err(OutsideBuffer);
    }
    var length, objectSize := U16(data, vtable), U16(data, vtable + 2);
    if length < 4 || length % 2 != 0 || objectSize < 4 {
      return Err(InvalidVTable);
    }
    if !Fits(data, vtable, length) {
      return Err(OutsideBuffer);
    }
    hide U16, InRange, PresentFields, Sorted, PlanFrom;
    var fs := CollectFields(data, vtable);
    if fs.Err? {
      return Err(fs.error);
    }
    SortedFields(data, vtable);
    r := LayOut(Sorted(fs.value), objectSize);
  }

  /** One motor with the plan of its vtable. */
  method UnpackMotor(data: seq<byte>, pos: int, vtable: int, plan: Plan) returns (motor: Motor)
    requires PlanOf(data, vtable) == Ok(plan) && Fits(data, pos, plan.objectSize)
    ensures SoundVTable(data, vtable) && AllInRange(data, vtable) && plan.objectSize == ObjectSize(data, vtable)
    ensures motor == Motor(FieldAt(data, pos, vtable, 0), FieldAt(data, pos, vtable, 1), FieldAt(data, pos, vtable, 2),
                           FieldAt(data, pos, vtable, 3))
  {
    PlanExists(data, vtable);
    PlanReads(data, vtable, pos, 0);
    PlanReads(data, vtable, pos, 1);
    PlanReads(data, vtable, pos, 2);
    PlanReads(data, vtable, pos, 3);
    hide PlanOf, SoundVTable, Values, Size, FieldAt, ObjectSize, InRange, AllApart;
    var values := Values(plan.parts, data, pos) + [Zero];
    motor := Motor(values[plan.indices[0]], values[plan.indices[1]], values[plan.indices[2]], values[plan.indices[3]]);
  }

  lemma {:induction false} FirstErrorWins(data: seq<byte>, first: int, k: nat, n: nat)
    requires k <= n && Fits(data, first, 4 * n) && MotorsFrom(data, first, k).Err?
    ensures MotorsFrom(data, first, n) == MotorsFrom(data, first, k)
    decreases n
  {
    hide U32, MotorAt;
    if k < n {
      FirstErrorWins(data, first, k, n - 1);
    }
  }

  lemma PlanObject(data: seq<byte>, vtable: int)
    requires PlanOf(data, vtable).Ok?
    ensures SoundVTable(data, vtable) && AllInRange(data, vtable)
    ensures PlanOf(data, vtable).value.objectSize == ObjectSize(data, vtable)
  {
    var _ := PlanParts(data, vtable);
  }

  /** One motor, with the plan kept for its vtable or a new one that is kept from now on. */
  method UnpackTable(data: seq<byte>, pos: int, plans: map<int, Plan>)
    returns (r: Result<Motor, MotorError>, kept: map<int, Plan>)
    requires forall vtable | vtable in plans :: PlanOf(data, vtable) == Ok(plans[vtable])
    ensures forall vtable | vtable in kept :: PlanOf(data, vtable) == Ok(kept[vtable])
    ensures r == MotorAt(data, pos)
  {
    kept := plans;
    if !Fits(data, pos, 4) {
      return Err(OutsideBuffer), kept;
    }
    var vtable := pos - S32(data, pos);
    if vtable !in kept {
      var made := StatePlan(data, vtable);
      if made.Err? {
        return Err(made.error), kept;
      }
      kept := kept[vtable := made.value];
    }
    var plan := kept[vtable];
    assert PlanOf(data, vtable) == Ok(plan);
    PlanObject(data, vtable);
    hide PlanOf, S32;
    if !Fits(data, pos, plan.objectSize) {
      return Err(OutsideBuffer), kept;
    }
    var motor := UnpackMotor(data, pos, vtable, plan);
    r := Ok(motor);
  }

  method UnpackTables(data: seq<byte>, first: int, count: nat) returns (r: Result<seq<Motor>, MotorError>)
    requires Fits(data, first, 4 * count)
    ensures r == MotorsFrom(data, first, count)
  {
    hide U32, MotorAt, PlanOf;
    var plans: map<int, Plan> := map[];
    var motors: seq<Motor> := [];
    var i := 0;
    while i < count
      invariant 0 <= i <= count && MotorsFrom(data, first, i) == Ok(motors)
      invariant forall vtable | vtable in plans :: PlanOf(data, vtable) == Ok(plans[vtable])
    {
      var at := first + 4 * i;
      if U32(data, at) < 4 {
        FirstErrorWins(data, first, i + 1, count);
        return Err(InvalidTableOffset);
      }
      var motor;
      motor, plans := UnpackTable(data, at + U32(data, at), plans);
      if motor.Err? {
        FirstErrorWins(data, first, i + 1, count);
        return Err(motor.error);
      }
      motors := motors + [motor.value];
      i := i + 1;
    }
    r := Ok(motors);
  }

  /**
   The motors of a message. A plan is made once for each vtable and used for every motor that shares it;
   the result is that of reading every field by itself.
   */
  method UnpackMotorStates(data: seq<byte>, root: nat, offset: nat) returns (r: Result<seq<Motor>, MotorError>)
    ensures r == MotorsOf(data, root, offset)
  {
    hide U32, MotorsFrom;
    if offset == 0 {
      return Ok([]);
    }
    var pointer := root + offset;
    if !Fits(data, pointer, 4) {
      return Err(OutsideBuffer);
    }
    var vector := pointer + U32(data, pointer);
    if !Fits(data, vector, 4) {
      return Err(OutsideBuffer);
    }
    var count, first := U32(data, vector), vector + 4;
    if !Fits(data, first, 4 * count) {
      return Err(OutsideBuffer);
    }
    r := UnpackTables(data, first, count);
  }
}
