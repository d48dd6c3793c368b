/** What the counts of the joystick reader mean. */
module JoyAccounting {
  import opened Words
  import opened Bytes
  import opened Wrappers
  import opened Joy

  // ---------------------------------------------------------------------------------------
  // Complete histories
  // ---------------------------------------------------------------------------------------

  /** The latest sample is remembered; if it had a publisher, so is its sequence number. */
  predicate Inv(r: Reader) {
    && (r.samplesTotal > 0 <==> r.buttons.Some?)
    && (r.source.Some? ==> r.samplesTotal > 0 && r.source.value in r.sequences)
  }

  lemma ReceivedInv(r: Reader, f: Frame)
    requires Inv(r)
    ensures Inv(Received(r, f))
  {
    hide AcceptedFrom, IsDuplicate, GapOf, GoesBack, Diagnosed;
    if f.Sample? {
      AcceptedKeeps(Warned(r, f), if SourceChanged(r, f) then None else r.buttons, f);
    }
  }

  /** The sample right after the latest one: the same publisher, the next number, as many buttons. */
  predicate Follows(r: Reader, f: Frame) {
    && f.Sample? && r.buttons.Some? && r.source.Some? && r.source.value in r.sequences
    && SourceOf(f) == r.source
    && Distance(r.sequences[r.source.value], f.header.value.sequence) == 1
    && |f.buttons| == |r.buttons.value|
  }

  /** A frame leaves the history complete exactly when it follows the latest sample. */
  lemma StepComplete(r: Reader, f: Frame)
    requires Inv(r)
    ensures !Received(r, f).pending.incomplete <==> !r.pending.incomplete && Follows(r, f)
    ensures Follows(r, f) ==>
              var d := Received(r, f);
              && d.pending.samples == r.pending.samples + 1 && d.sequenceAvailable
              && d.source == r.source && d.buttons == Some(f.buttons)
              && d.sequences[r.source.value] == f.header.value.sequence
  {
    hide AcceptedFrom, Bumped, Distance;
    if f.Sample? {
      AcceptedKeeps(Warned(r, f), if SourceChanged(r, f) then None else r.buttons, f);
    }
  }

  predicate Continues(r: Reader, f: Frame, k: nat)
    requires r.buttons.Some? && r.source.Some? && r.source.value in r.sequences
  {
    && f.Sample? && SourceOf(f) == r.source && |f.buttons| == |r.buttons.value|
    && f.header.value.sequence == (r.sequences[r.source.value] + k + 1) % TWO_TO_THE_64
  }

  /** All frames are samples of the publisher of the latest one, numbered on from it, with as many buttons. */
  ghost predicate Consecutive(r: Reader, frames: seq<Frame>) {
    && r.buttons.Some? && r.source.Some? && r.source.value in r.sequences
    && forall k | 0 <= k < |frames| :: Continues(r, frames[k], k)
  }

  lemma NextNumber(base: Word64, k: nat, to: Word64)
    ensures Distance((base + k) % TWO_TO_THE_64, to) == 1 <==> to == (base + k + 1) % TWO_TO_THE_64
  {
  }

  /** After `n` consecutive samples nothing else is known to have happened. */
  ghost predicate Kept(r: Reader, n: nat, d: Reader)
    requires r.buttons.Some? && r.source.Some? && r.source.value in r.sequences
  {
    && !d.pending.incomplete && d.pending.samples == n && (n > 0 ==> d.sequenceAvailable)
    && d.source == r.source && d.buttons.Some? && |d.buttons.value| == |r.buttons.value|
    && r.source.value in d.sequences
    && d.sequences[r.source.value] == (r.sequences[r.source.value] + n) % TWO_TO_THE_64
  }

  lemma FollowsContinues(r: Reader, n: nat, d: Reader, f: Frame)
    requires r.buttons.Some? && r.source.Some? && r.source.value in r.sequences
    requires Inv(d) && Kept(r, n, d)
    ensures Follows(d, f) <==> Continues(r, f, n)
    ensures Follows(d, f) ==> Kept(r, n + 1, Received(d, f))
  {
    StepComplete(d, f);
    if f.Sample? && f.header.Some? {
      NextNumber(r.sequences[r.source.value], n, f.header.value.sequence);
    }
    hide Received, Distance, Inv;
  }

  /** Without a baseline the first frame already makes the history incomplete. */
  lemma FirstFollows(r: Reader, f: Frame)
    requires r.pending == NOTHING && Follows(r, f)
    ensures r.buttons.Some? && r.source.Some? && r.source.value in r.sequences && Kept(r, 0, r)
  {
  }

  lemma ConsecutiveLast(r: Reader, frames: seq<Frame>)
    requires frames != []
    ensures var n := |frames| - 1;
            Consecutive(r, frames) <==> Consecutive(r, frames[..n]) && Continues(r, frames[n], n)
  {
    hide Continues;
    var n := |frames| - 1;
    if Consecutive(r, frames[..n]) && Continues(r, frames[n], n) {
      forall k | 0 <= k < |frames|
        ensures Continues(r, frames[k], k)
      {
        if k < n {
          assert frames[..n][k] == frames[k];
        }
      }
    }
  }

  lemma {:induction false} DrainedComplete(r: Reader, frames: seq<Frame>)
    requires Inv(r) && r.pending == NOTHING
    ensures Inv(Drained(r, frames))
    ensures frames != [] ==> (!Drained(r, frames).pending.incomplete <==> Consecutive(r, frames))
    ensures Consecutive(r, frames) ==> Kept(r, |frames|, Drained(r, frames))
    decreases |frames|
  {
    if frames != [] {
      var n := |frames| - 1;
      var before, f := Drained(r, frames[..n]), frames[n];
      DrainedComplete(r, frames[..n]);
      ReceivedInv(before, f);
      StepComplete(before, f);
      ConsecutiveLast(r, frames);
      assert n == 0 ==> before == r;
      hide Received, Follows, Continues, Kept, Inv;
      if n == 0 && Follows(before, f) {
        FirstFollows(r, f);
      }
      if Consecutive(r, frames[..n]) {
        FollowsContinues(r, n, before, f);
      }
    }
  }

  /**
   A read that took frames reports a complete history exactly when they are consecutive: all samples, of the
   publisher of the last sample before the read, numbered without a gap modulo 2^64, with as many buttons.
   */
  lemma CompleteMeansConsecutive(r: Reader, frames: seq<Frame>)
    requires Inv(r) && r.pending == NOTHING && frames != []
    ensures SnapshotOf(Drained(r, frames)).complete <==> Consecutive(r, frames)
  {
    DrainedComplete(r, frames);
    hide Drained, Continues;
  }

  // ---------------------------------------------------------------------------------------
  // Presses and releases
  // ---------------------------------------------------------------------------------------

  function Level(button: int): int {
    if Down(button) then 1 else 0
  }

  /** Presses less releases of a button. */
  function Balance(p: Pending, i: nat): int {
    Counted(p.pressed, i) - Counted(p.released, i)
  }

  lemma {:induction false} EdgesBalance(p: Pending, before: seq<int>, after: seq<int>, k: nat, i: nat)
    requires k <= |before| && k <= |after|
    ensures Balance(Edges(p, before, after, k), i) ==
            Balance(p, i) + if i < k then Level(after[i]) - Level(before[i]) else 0
  {
    if k > 0 {
      EdgesBalance(p, before, after, k - 1, i);
    }
  }

  /** The frame is not counted, or it is compared with the latest sample and has as many buttons. */
  predicate KeepsBaseline(r: Reader, f: Frame)
    requires r.buttons.Some?
  {
    f.Sample? && !IsDuplicate(r, f) ==>
      && !SourceChanged(r, f) && |f.buttons| == |r.buttons.value|
      && (Available(f) && SourceOf(f).value in r.sequences ==>
            Distance(r.sequences[SourceOf(f).value], f.header.value.sequence) < TWO_TO_THE_63)
  }

  lemma TakenBalance(r: Reader, f: Frame, available: bool, i: nat)
    requires f.Sample? && r.buttons.Some? && |f.buttons| == |r.buttons.value| && i < |f.buttons|
    ensures Balance(Taken(r, r.buttons, f, available).pending, i) ==
            Balance(r.pending, i) + Level(f.buttons[i]) - Level(r.buttons.value[i])
  {
    EdgesBalance(r.pending, r.buttons.value, f.buttons, |f.buttons|, i);
  }

  lemma StepBalance(r: Reader, f: Frame, i: nat)
    requires r.buttons.Some? && KeepsBaseline(r, f) && i < |r.buttons.value|
    ensures var d := Received(r, f);
            && d.buttons.Some? && |d.buttons.value| == |r.buttons.value|
            && Balance(d.pending, i) == Balance(r.pending, i) + Level(d.buttons.value[i]) - Level(r.buttons.value[i])
  {
    if f.Sample? && !IsDuplicate(r, f) {
      if !Available(f) {
        TakenBalance(r.(sequences := map[], pending := Diagnosed(r.pending, "sequence_unavailable")), f, false, i);
      } else {
        var later := r.(sequences := r.sequences[SourceOf(f).value := f.header.value.sequence]);
        TakenBalance(later, f, true, i);
        if SourceOf(f).value in r.sequences {
          var gap := Distance(r.sequences[SourceOf(f).value], f.header.value.sequence) - 1;
          var counted := r.pending.(missing := r.pending.missing + gap, incomplete := true);
          TakenBalance(later.(missingTotal := r.missingTotal + gap, pending := counted), f, true, i);
        }
      }
    }
    hide Taken, Distance, Counted;
  }

  /**
   As long as no frame breaks the baseline, the presses less the releases of every button are the change of
   its level, whatever gaps, repeated samples and malformed frames there were.
   */
  lemma {:induction false} EdgesBalanceLevels(r: Reader, frames: seq<Frame>, i: nat)
    requires r.buttons.Some? && i < |r.buttons.value|
    requires forall k | 0 <= k < |frames| ::
               Drained(r, frames[..k]).buttons.Some? && KeepsBaseline(Drained(r, frames[..k]), frames[k])
    ensures var d := Drained(r, frames);
            && d.buttons.Some? && |d.buttons.value| == |r.buttons.value|
            && Balance(d.pending, i) == Balance(r.pending, i) + Level(d.buttons.value[i]) - Level(r.buttons.value[i])
    decreases |frames|
  {
    if frames != [] {
      var n := |frames| - 1;
      forall k | 0 <= k < n
        ensures Drained(r, frames[..n][..k]).buttons.Some?
        ensures KeepsBaseline(Drained(r, frames[..n][..k]), frames[..n][k])
      {
        assert frames[..n][..k] == frames[..k];
      }
      hide Balance, Received, KeepsBaseline;
      EdgesBalanceLevels(r, frames[..n], i);
      StepBalance(Drained(r, frames[..n]), frames[n], i);
    }
  }

  // ---------------------------------------------------------------------------------------
  // Samples and gaps
  // ---------------------------------------------------------------------------------------

  /** A sample as its publisher counts it: the number on the wire is this one modulo 2^64. */
  datatype Sent = Sent(source: string, number: nat, buttons: seq<int>)

  function FrameOf(x: Sent): Frame {
    Sample(x.buttons, Some(Header(Some(x.source), x.number % TWO_TO_THE_64)))
  }

  function FramesOf(xs: seq<Sent>): (frames: seq<Frame>)
    ensures |frames| == |xs|
    decreases |xs|
  {
    if xs == [] then [] else FramesOf(xs[..|xs| - 1]) + [FrameOf(xs[|xs| - 1])]
  }

  /** The extent of each source: its first and its last number. */
  datatype Extent = Extent(first: nat, last: nat)

  function Extents(xs: seq<Sent>): map<string, Extent>
    decreases |xs|
  {
    if xs == [] then map[]
    else
      var before, x := Extents(xs[..|xs| - 1]), xs[|xs| - 1];
      before[x.source := Extent(if x.source in before then before[x.source].first else x.number, x.number)]
  }

  predicate MovesOn(extents: map<string, Extent>, x: Sent) {
    x.source in extents ==> extents[x.source].last <= x.number < extents[x.source].last + TWO_TO_THE_63
  }

  /** Every source counts forward; its samples may be repeated, and gaps are shorter than half the range. */
  ghost predicate Forward(xs: seq<Sent>) {
    forall k | 0 <= k < |xs| :: MovesOn(Extents(xs[..k]), xs[k])
  }

  function Length(e: Extent): int {
    e.last - e.first + 1
  }

  /** The lengths of all extents together. */
  ghost function SumOf(m: map<string, Extent>): int
    decreases |m|
  {
    if m == map[] then 0
    else
      var key :| key in m;
      assert |m - {key}| < |m| by { assert (m - {key}).Keys == m.Keys - {key}; }
      Length(m[key]) + SumOf(m - {key})
  }

  lemma {:induction false} SumWithout(m: map<string, Extent>, key: string)
    requires key in m
    ensures SumOf(m) == Length(m[key]) + SumOf(m - {key})
    decreases |m|
  {
    var chosen :| chosen in m && SumOf(m) == Length(m[chosen]) + SumOf(m - {chosen});
    if chosen != key {
      assert |m - {chosen}| < |m| by { assert (m - {chosen}).Keys == m.Keys - {chosen}; }
      assert |m - {key}| < |m| by { assert (m - {key}).Keys == m.Keys - {key}; }
      SumWithout(m - {chosen}, key);
      SumWithout(m - {key}, chosen);
      assert (m - {chosen}) - {key} == (m - {key}) - {chosen};
    }
  }

  lemma SumUpdate(m: map<string, Extent>, key: string, e: Extent)
    ensures SumOf(m[key := e]) == SumOf(m) + Length(e) - if key in m then Length(m[key]) else 0
  {
    SumWithout(m[key := e], key);
    assert m[key := e] - {key} == m - {key};
    if key in m {
      SumWithout(m, key);
    } else {
      assert m - {key} == m;
    }
  }

  lemma WrappedDistance(a: nat, b: nat)
    requires a <= b < a + TWO_TO_THE_63
    ensures Distance(a % TWO_TO_THE_64, b % TWO_TO_THE_64) == b - a
  {
  }

  /** The reader remembers the last number of every source, modulo 2^64. */
  ghost predicate Remembers(r: Reader, extents: map<string, Extent>) {
    && r.sequences.Keys == extents.Keys
    && forall source | source in extents :: r.sequences[source] == extents[source].last % TWO_TO_THE_64
  }

  lemma StepAccounts(r: Reader, extents: map<string, Extent>, x: Sent)
    requires Remembers(r, extents) && MovesOn(extents, x)
    ensures var d := Received(r, FrameOf(x));
            var first := if x.source in extents then extents[x.source].first else x.number;
            && Remembers(d, extents[x.source := Extent(first, x.number)])
            && d.samplesTotal + d.missingTotal == r.samplesTotal + r.missingTotal +
               if x.source in extents then x.number - extents[x.source].last else 1
  {
    hide Distance, AcceptedFrom, Diagnosed;
    if x.source in extents {
      WrappedDistance(extents[x.source].last, x.number);
    }
    var f := FrameOf(x);
    AcceptedKeeps(Warned(r, f), if SourceChanged(r, f) then None else r.buttons, f);
  }

  /**
   Samples accepted and samples missing together are the lengths of what each source counted through, from
   its first to its last number, across wrap-around and however the sources interleave.
   */
  lemma {:induction false} SamplesAccountForSpans(xs: seq<Sent>)
    requires Forward(xs)
    ensures var d := Drained(NEW_READER, FramesOf(xs));
            Remembers(d, Extents(xs)) && d.samplesTotal + d.missingTotal == SumOf(Extents(xs))
    decreases |xs|
  {
    if xs != [] {
      var n := |xs| - 1;
      forall k | 0 <= k < n
        ensures MovesOn(Extents(xs[..n][..k]), xs[..n][k])
      {
        assert xs[..n][..k] == xs[..k];
      }
      SamplesAccountForSpans(xs[..n]);
      assert FramesOf(xs)[..n] == FramesOf(xs[..n]);
      var before, x := Extents(xs[..n]), xs[n];
      var r := Drained(NEW_READER, FramesOf(xs[..n]));
      assert MovesOn(before, x);
      StepAccounts(r, before, x);
      SumUpdate(before, x.source, Extents(xs)[x.source]);
      hide Received, SumOf, Remembers;
    }
  }
}
