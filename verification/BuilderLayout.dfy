/** Where vectors, strings and the root of a finished buffer end up, and how they are aligned. */
module BuilderLayout {
  import opened Bytes
  import opened BuilderModel
  import opened TableRoundTrip

  lemma Divides(n: nat, fine: nat, coarse: nat)
    requires IsAlignment(fine) && IsAlignment(coarse) && fine <= coarse && n % coarse == 0
    ensures n % fine == 0
  {
    CoarseMultiples(n);
    match fine
    case 1 =>
    case 2 => if coarse == 2 {} else if coarse == 4 {} else {}
    case 4 => if coarse == 4 {} else {}
    case _ =>
  }

  lemma AlreadyAligned(n: nat, align: nat)
    requires IsAlignment(align) && n % align == 0
    ensures Padding(n, align) == 0
  {
  }

  /** Padding for 4 and then for `align` leaves the end aligned for both. */
  lemma TwicePadded(n: nat, align: nat)
    requires IsAlignment(align)
    ensures var first := Padding(n, 4);
            var both := first + Padding(n + first, align);
            (n + both) % 4 == 0 && (n + both) % align == 0
  {
    hide Padding;
    var first := Padding(n, 4);
    if align == 8 {
      Divides(n + first + Padding(n + first, 8), 4, 8);
    } else {
      Divides(n + first, align, 4);
      AlreadyAligned(n + first, align);
    }
  }

  /** A scalar pushed where it is already aligned stands directly in front. */
  lemma PushedTight(b: Builder, scalar: seq<byte>)
    requires IsAlignment(|scalar|) && |b.data| % |scalar| == 0
    ensures Pushed(b, scalar).data == scalar + b.data
  {
    AlreadyAligned(|b.data|, |scalar|);
    assert Zeros(0) == [];
  }

  /** A scalar in front of a body, which lies on padding: the scalar and the body form one piece. */
  lemma PieceStands(word: seq<byte>, body: seq<byte>, pad: seq<byte>, rest: seq<byte>)
    ensures var data := word + (body + (pad + rest));
            Stands(data, |data|, word + body) && Extends(rest, data)
  {
    assert word + (body + (pad + rest)) == (word + body) + pad + rest;
    LayersStand(word + body, pad, rest);
  }

  lemma VectorBytes(b: Builder, payload: seq<byte>, count: nat, align: nat) returns (pad: seq<byte>)
    requires IsAlignment(align) && payload != []
    ensures CreatedVector(b, payload, count, align).data == Le(count, 4) + (payload + (pad + b.data))
    ensures var len := |payload| + |pad| + |b.data|; len % 4 == 0 && len % align == 0
  {
    var first := PreAligned(b, |payload|, 4);
    var second := PreAligned(first, |payload|, align);
    pad := Zeros(Padding(|first.data| + |payload|, align)) + Zeros(Padding(|b.data| + |payload|, 4));
    assert second.data == pad + b.data;
    TwicePadded(|b.data| + |payload|, align);
    hide Padding, Zeros;
    PushedTight(second.(data := payload + second.data), Le(count, 4));
  }

  /** A vector: its count, then its elements, both aligned. */
  lemma VectorStands(b: Builder, payload: seq<byte>, count: nat, align: nat)
    requires IsAlignment(align) && payload != []
    ensures var v := CreatedVector(b, payload, count, align);
            && Extends(b.data, v.data) && Stands(v.data, |v.data|, Le(count, 4) + payload)
            && |v.data| % 4 == 0 && (|v.data| - 4) % align == 0
  {
    var pad := VectorBytes(b, payload, count, align);
    PieceStands(Le(count, 4), payload, pad, b.data);
    SumAligned(|payload| + |pad| + |b.data|, 4, 4);
  }

  lemma StringBytes(b: Builder, text: seq<byte>) returns (pad: seq<byte>)
    ensures CreatedString(b, text).data == Le(|text|, 4) + ((text + [0]) + (pad + b.data))
    ensures (|text| + 1 + |pad| + |b.data|) % 4 == 0
  {
    var p := PreAligned(b, |text| + 1, 4);
    pad := Zeros(Padding(|b.data| + |text| + 1, 4));
    var body := text + (Zeros(1) + p.data);
    assert Zeros(1) == [0];
    assert body == (text + [0]) + (pad + b.data);
    hide Padding, Zeros;
    PushedTight(p.(data := body), Le(|text|, 4));
  }

  /** A string: its length, its bytes, and a zero. */
  lemma StringStands(b: Builder, text: seq<byte>)
    ensures var v := CreatedString(b, text);
            && Extends(b.data, v.data) && Stands(v.data, |v.data|, Le(|text|, 4) + (text + [0]))
            && |v.data| % 4 == 0
  {
    hide CreatedString, Le, Stands, Extends;
    var pad := StringBytes(b, text);
    SumAligned(|text| + 1 + |pad| + |b.data|, 4, 4);
    PieceStands(Le(|text|, 4), text + [0], pad, b.data);
  }

  lemma AlignedTight(b: Builder)
    requires |b.data| % 4 == 0
    ensures Aligned(b, 4).data == b.data
  {
    AlreadyAligned(|b.data|, 4);
    assert Zeros(0) == [];
  }

  lemma FourLess(n: nat)
    requires (n + 4) % 4 == 0
    ensures n % 4 == 0
  {
  }

  lemma PreAlignedBytes(b: Builder, align: nat)
    requires IsAlignment(align) && align >= 4
    ensures var p, pad := PreAligned(b, 4, align), Zeros(Padding(|b.data| + 4, align));
            p.data == pad + b.data && (|p.data| + 4) % align == 0 && |p.data| % 4 == 0
  {
    hide Padding, Zeros;
    var size := Padding(|b.data| + 4, align) + |b.data|;
    assert (|b.data| + 4) + Padding(|b.data| + 4, align) == size + 4;
    Divides(size + 4, 4, align);
    FourLess(size);
  }

  lemma FinishedBytes(b: Builder, root: nat) returns (pad: seq<byte>)
    requires IsAlignment(b.minAlign) && b.minAlign >= 4 && root <= |b.data|
    ensures var data := Finished(b, root).data;
            && data == Le(|data| - root, 4) + (pad + b.data) && |data| % b.minAlign == 0
  {
    hide Padding, Zeros, PreAligned, Aligned, Le;
    var p := PreAligned(b.(vtables := []), 4, b.minAlign);
    pad := Zeros(Padding(|b.data| + 4, b.minAlign));
    PreAlignedBytes(b.(vtables := []), b.minAlign);
    AlignedTight(p);
    PushedTight(Aligned(p, 4), Le(Distance(p, root), 4));
  }

  lemma FrontStands(word: seq<byte>, pad: seq<byte>, rest: seq<byte>)
    ensures var data := word + (pad + rest);
            Slice(data, 0, |word|) == word && Extends(rest, data)
  {
  }

  /** A finished buffer begins with the distance to its root, and its size is a multiple of every alignment used. */
  lemma FinishedStands(b: Builder, root: nat)
    requires IsAlignment(b.minAlign) && b.minAlign >= 4 && root <= |b.data|
    requires |Finished(b, root).data| < TWO_TO_THE_31
    ensures var data := Finished(b, root).data;
            && Extends(b.data, data) && |data| >= 4 && U32(data, 0) == Place(data, root)
            && |data| % b.minAlign == 0
  {
    var pad := FinishedBytes(b, root);
    var data := Finished(b, root).data;
    FrontStands(Le(|data| - root, 4), pad, b.data);
    hide Finished, Le, Extends, Slice;
    U32OfLe(data, 0, |data| - root);
  }

  // ---------------------------------------------------------------------------------------
  // The coarsest alignment used
  // ---------------------------------------------------------------------------------------

  lemma PlacedMinAlign(b: Builder, f: Field)
    requires WellFormed(f, |b.data|) && IsAlignment(b.minAlign)
    ensures var p := Placed(b, f);
            && IsAlignment(p.minAlign) && b.minAlign <= p.minAlign
            && (Stores(f) ==> AlignmentOf(f) <= p.minAlign)
  {
  }

  lemma {:induction false} AllPlacedMinAlign(b: Builder, fs: seq<Field>)
    requires Idle(b) && AllWellFormed(fs, |b.data|) && IsAlignment(b.minAlign)
    ensures var p := AllPlaced(b, fs);
            && IsAlignment(p.minAlign) && b.minAlign <= p.minAlign
            && forall i | 0 <= i < |fs| && Stores(fs[i]) :: AlignmentOf(fs[i]) <= p.minAlign
    decreases |fs|
  {
    if fs != [] {
      var last := |fs| - 1;
      AllPlacedMinAlign(b, fs[..last]);
      PlacedMinAlign(AllPlaced(b, fs[..last]), fs[last]);
      hide Placed, Stores, AlignmentOf;
      assert forall i | 0 <= i < last :: fs[..last][i] == fs[i];
    }
  }

  lemma TableMinAlign(b: Builder, fs: seq<Field>)
    requires Idle(b) && AllWellFormed(fs, |b.data|) && IsAlignment(b.minAlign)
    ensures var t := TableOf(b, fs);
            && IsAlignment(t.minAlign) && b.minAlign <= t.minAlign && 4 <= t.minAlign && Idle(t)
            && forall i | 0 <= i < |fs| && Stores(fs[i]) :: AlignmentOf(fs[i]) <= t.minAlign
  {
    AllPlacedMinAlign(b, fs);
    hide AllPlaced, Stores, AlignmentOf, Shared, NewVTable, WellFormed;
  }

  // ---------------------------------------------------------------------------------------
  // Sizes
  // ---------------------------------------------------------------------------------------

  lemma {:induction false} AllPlacedSize(b: Builder, fs: seq<Field>)
    requires Idle(b) && AllWellFormed(fs, |b.data|) && forall i | 0 <= i < |fs| :: WidthOf(fs[i]) <= 16
    ensures |b.data| <= |AllPlaced(b, fs).data| <= |b.data| + 24 * |fs|
    decreases |fs|
  {
    if fs != [] {
      var last := |fs| - 1;
      AllPlacedSize(b, fs[..last]);
    }
  }

  /** The table of a schema with small fields is small. */
  lemma SmallTableFits(b: Builder, fs: seq<Field>)
    requires Idle(b) && AllWellFormed(fs, |b.data|) && forall i | 0 <= i < |fs| :: WidthOf(fs[i]) <= 16
    requires |fs| <= 100 && |TableOf(b, fs).data| < TWO_TO_THE_31
    ensures TableFits(b, fs)
  {
    AllPlacedSize(b, fs);
    hide AllPlaced, TableOf;
  }
}
