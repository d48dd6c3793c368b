/** Bytes, and unsigned and signed little-endian words of any width read from and written to byte strings. */
module Bytes {
  type byte = x: int | 0 <= x < 256

  const TWO_TO_THE_32 := 0x1_0000_0000

  type Word32 = x: nat | x < TWO_TO_THE_32
  type Word64 = x: nat | x < 0x1_0000_0000_0000_0000

  const TWO_TO_THE_16 := 0x1_0000
  const TWO_TO_THE_31 := 0x8000_0000

  function Max(a: nat, b: nat): nat {
    if a < b then b else a
  }

  function Zeros(n: nat): (s: seq<byte>)
    ensures |s| == n
    ensures forall i | 0 <= i < n :: s[i] == 0
  {
    seq(n, _ => 0)
  }

  /** The number of values of a word of `width` bytes. */
  function Range(width: nat): (r: nat)
    ensures r > 0
  {
    if width == 0 then 1 else 256 * Range(width - 1)
  }

  /** The word that little-endian bytes denote. */
  function Word(s: seq<byte>): (v: nat)
    ensures v < Range(|s|)
  {
    if s == [] then 0 else s[0] + 256 * Word(s[1..])
  }

  /** The low `width` bytes of a number, lowest first. */
  function Le(v: nat, width: nat): (s: seq<byte>)
    ensures |s| == width
  {
    if width == 0 then [] else [v % 256] + Le(v / 256, width - 1)
  }

  lemma {:induction false} WordOfLe(v: nat, width: nat)
    requires v < Range(width)
    ensures Word(Le(v, width)) == v
  {
    if width > 0 {
      assert Le(v, width)[1..] == Le(v / 256, width - 1);
      WordOfLe(v / 256, width - 1);
    }
  }

  lemma {:induction false} LeOfWord(s: seq<byte>)
    ensures Le(Word(s), |s|) == s
  {
    if s != [] {
      LeOfWord(s[1..]);
      assert Word(s) / 256 == Word(s[1..]) && Word(s) % 256 == s[0];
    }
  }

  predicate Fits(b: seq<byte>, i: int, width: nat) {
    0 <= i && i + width <= |b|
  }

  /** The bytes at a place. */
  function Slice(b: seq<byte>, i: int, width: nat): (s: seq<byte>)
    requires Fits(b, i, width)
    ensures |s| == width
  {
    b[i..i + width]
  }

  function U16(b: seq<byte>, i: int): (v: nat)
    requires Fits(b, i, 2)
    ensures v < TWO_TO_THE_16
  {
    assert Range(2) == TWO_TO_THE_16;
    Word(Slice(b, i, 2))
  }

  function U32(b: seq<byte>, i: int): (v: nat)
    requires Fits(b, i, 4)
    ensures v < TWO_TO_THE_32
  {
    assert Range(4) == TWO_TO_THE_32 by { assert Range(2) == TWO_TO_THE_16; }
    Word(Slice(b, i, 4))
  }

  function U64(b: seq<byte>, i: int): Word64
    requires Fits(b, i, 8)
  {
    assert Range(8) == 0x1_0000_0000_0000_0000 by {
      assert Range(4) == TWO_TO_THE_32 by { assert Range(2) == TWO_TO_THE_16; }
    }
    Word(Slice(b, i, 8))
  }

  function S32(b: seq<byte>, i: int): (v: int)
    requires Fits(b, i, 4)
    ensures -TWO_TO_THE_31 <= v < TWO_TO_THE_31
  {
    var u := U32(b, i);
    if u < TWO_TO_THE_31 then u else u - TWO_TO_THE_32
  }

  /** A signed 32-bit word, in two's complement. */
  function LeS32(v: int): (s: seq<byte>)
    ensures |s| == 4
  {
    Le(v % TWO_TO_THE_32, 4)
  }

  lemma U16OfLe(b: seq<byte>, i: int, v: nat)
    requires v < TWO_TO_THE_16 && Fits(b, i, 2) && Slice(b, i, 2) == Le(v, 2)
    ensures U16(b, i) == v
  {
    assert Range(2) == TWO_TO_THE_16;
    WordOfLe(v, 2);
  }

  lemma U32OfLe(b: seq<byte>, i: int, v: nat)
    requires v < TWO_TO_THE_32 && Fits(b, i, 4) && Slice(b, i, 4) == Le(v, 4)
    ensures U32(b, i) == v
  {
    assert Range(4) == TWO_TO_THE_32 by { assert Range(2) == TWO_TO_THE_16; }
    WordOfLe(v, 4);
  }

  lemma S32OfLe(b: seq<byte>, i: int, v: int)
    requires -TWO_TO_THE_31 <= v < TWO_TO_THE_31 && Fits(b, i, 4) && Slice(b, i, 4) == LeS32(v)
    ensures S32(b, i) == v
  {
    U32OfLe(b, i, v % TWO_TO_THE_32);
  }

  /** What is read does not depend on what stands in front. */
  lemma PrependKeepsSlice(front: seq<byte>, b: seq<byte>, i: int, width: nat)
    requires Fits(b, i, width)
    ensures Slice(front + b, |front| + i, width) == Slice(b, i, width)
  {
  }

  lemma SliceOfSlice(b: seq<byte>, i: int, width: nat, j: nat, w: nat)
    requires Fits(b, i, width) && j + w <= width
    ensures Slice(Slice(b, i, width), j, w) == Slice(b, i + j, w)
  {
    var part := Slice(b, i, width);
    var left, right := Slice(part, j, w), Slice(b, i + j, w);
    forall k | 0 <= k < w
      ensures left[k] == right[k]
    {
      assert part[j + k] == b[i + (j + k)];
    }
  }

  /** `b` with `s` written at a place. */
  function Splice(b: seq<byte>, i: int, s: seq<byte>): (r: seq<byte>)
    requires Fits(b, i, |s|)
    ensures |r| == |b|
  {
    b[..i] + s + b[i + |s|..]
  }

  lemma SpliceReads(b: seq<byte>, i: int, s: seq<byte>)
    requires Fits(b, i, |s|)
    ensures Slice(Splice(b, i, s), i, |s|) == s
  {
  }

  lemma SpliceKeeps(b: seq<byte>, i: int, s: seq<byte>, j: int, width: nat)
    requires Fits(b, i, |s|) && Fits(b, j, width) && (j + width <= i || i + |s| <= j)
    ensures Slice(Splice(b, i, s), j, width) == Slice(b, j, width)
  {
  }

  // ---------------------------------------------------------------------------------------
  // Alignment
  // ---------------------------------------------------------------------------------------

  /** The alignments of scalars, and so of every struct of scalars. */
  predicate IsAlignment(a: int) {
    a == 1 || a == 2 || a == 4 || a == 8
  }

  lemma PaddedToMultiple(size: nat)
    ensures (size + (2 - size % 2)) % 2 == 0
    ensures (size + (4 - size % 4)) % 4 == 0
    ensures (size + (8 - size % 8)) % 8 == 0
  {
  }

  /** How many bytes bring `size` to a multiple of `align`. For powers of two this is the mask of a negation. */
  function Padding(size: nat, align: nat): (p: nat)
    requires IsAlignment(align)
    ensures p < align && (size + p) % align == 0
  {
    PaddedToMultiple(size);
    match align
    case 1 => 0
    case 2 => if size % 2 == 0 then 0 else 2 - size % 2
    case 4 => if size % 4 == 0 then 0 else 4 - size % 4
    case _ => if size % 8 == 0 then 0 else 8 - size % 8
  }

  lemma TwoTimes(q: nat)
    ensures (2 * q) % 2 == 0
  {
  }

  lemma FourTimes(q: nat)
    ensures (4 * q) % 4 == 0
  {
  }

  lemma EightTimes(q: nat)
    ensures (8 * q) % 8 == 0
  {
  }

  lemma MultiplesAdd(n: nat, m: nat)
    ensures n % 2 == 0 && m % 2 == 0 ==> (n + m) % 2 == 0
    ensures n % 4 == 0 && m % 4 == 0 ==> (n + m) % 4 == 0
    ensures n % 8 == 0 && m % 8 == 0 ==> (n + m) % 8 == 0
  {
    if n % 2 == 0 && m % 2 == 0 { TwoTimes(n / 2 + m / 2); }
    if n % 4 == 0 && m % 4 == 0 { FourTimes(n / 4 + m / 4); }
    if n % 8 == 0 && m % 8 == 0 { EightTimes(n / 8 + m / 8); }
  }

  lemma CoarseMultiples(n: nat)
    ensures n % 8 == 0 ==> n % 4 == 0
    ensures n % 4 == 0 ==> n % 2 == 0
  {
    if n % 8 == 0 { FourTimes(2 * (n / 8)); }
    if n % 4 == 0 { TwoTimes(2 * (n / 4)); }
  }
}
