/** What a read of the joystick hands out, said over the frames that arrived: every edge, diagnostic and count. */
module JoyEdges {
  import opened Wrappers
  import opened Joy
  import opened JoyAccounting
  import opened JoySplitting

  // ---------------------------------------------------------------------------------------
  // One comparison
  // ---------------------------------------------------------------------------------------

  /** Button `i` goes down from one sample to the next. */
  predicate Rises(before: seq<int>, after: seq<int>, i: nat) {
    i < |before| && i < |after| && before[i] == 0 && after[i] != 0
  }

  /** Button `i` comes up. */
  predicate Falls(before: seq<int>, after: seq<int>, i: nat) {
    i < |before| && i < |after| && before[i] != 0 && after[i] == 0
  }

  lemma {:induction false} EdgesExactly(p: Pending, before: seq<int>, after: seq<int>, k: nat, i: nat)
    requires k <= |before| && k <= |after|
    ensures var q := Edges(p, before, after, k);
            && Counted(q.pressed, i) == Counted(p.pressed, i) + (if i < k && Rises(before, after, i) then 1 else 0)
            && Counted(q.released, i) == Counted(p.released, i) + (if i < k && Falls(before, after, i) then 1 else 0)
  {
    if k > 0 {
      EdgesExactly(p, before, after, k - 1, i);
    }
  }

  /** A comparison counts a press where a button goes down, a release where it comes up, and nothing else. */
  lemma ComparedExactly(p: Pending, before: seq<int>, after: seq<int>, i: nat)
    ensures var q := Compared(p, before, after);
            && Counted(q.pressed, i) == Counted(p.pressed, i) + (if Rises(before, after, i) then 1 else 0)
            && Counted(q.released, i) == Counted(p.released, i) + (if Falls(before, after, i) then 1 else 0)
  {
    var q := if |before| != |after| then Diagnosed(p, "button_count_changed") else p;
    EdgesExactly(q, before, after, Smaller(|before|, |after|), i);
  }

  lemma ComparedDiagnoses(p: Pending, before: seq<int>, after: seq<int>, name: string)
    ensures Counted(Compared(p, before, after).diagnostics, name) ==
            Counted(p.diagnostics, name) +
            if name == "button_count_changed" && |before| != |after| then 1 else 0
  {
    var q := if |before| != |after| then Diagnosed(p, "button_count_changed") else p;
    EdgesKeep(q, before, after, Smaller(|before|, |after|));
  }

  // ---------------------------------------------------------------------------------------
  // One frame
  // ---------------------------------------------------------------------------------------

  /** The publisher that the header of a sample names. */
  function PublisherOf(f: Frame): Option<string>
    requires f.Sample?
  {
    match f.header
    case None => None
    case Some(header) => header.source
  }

  /** A sample after the first that is not of the publisher of the one before. */
  predicate Changes(r: Reader, f: Frame)
    requires f.Sample?
  {
    r.samplesTotal > 0 && PublisherOf(f) != r.source
  }

  /** The sample is compared with the latest one: both are of one source, and it neither repeats nor goes back. */
  predicate Comparable(r: Reader, f: Frame) {
    f.Sample? && r.buttons.Some? && !Changes(r, f) && !IsDuplicate(r, f) && !GoesBack(r, f)
  }

  predicate Presses(r: Reader, f: Frame, i: nat) {
    Comparable(r, f) && Rises(r.buttons.value, f.buttons, i)
  }

  predicate Releases(r: Reader, f: Frame, i: nat) {
    Comparable(r, f) && Falls(r.buttons.value, f.buttons, i)
  }

  /** Does the frame give rise to the diagnostic `name`? */
  predicate Diagnoses(r: Reader, f: Frame, name: string) {
    if f.Malformed? then name == "decode_error"
    else
      || (name == "source_changed" && Changes(r, f))
      || (name == "sequence_unavailable" && PublisherOf(f) == None)
      || (name == "duplicate" && IsDuplicate(r, f))
      || (name == "reset_or_reorder" && GoesBack(r, f))
      || (name == "button_count_changed" && Comparable(r, f) && |r.buttons.value| != |f.buttons|)
  }

  lemma TakenExactly(r: Reader, previous: Option<seq<int>>, f: Frame, available: bool, i: nat)
    requires f.Sample?
    ensures var p, q := r.pending, Taken(r, previous, f, available).pending;
            && Counted(q.pressed, i) ==
               Counted(p.pressed, i) + (if previous.Some? && Rises(previous.value, f.buttons, i) then 1 else 0)
            && Counted(q.released, i) ==
               Counted(p.released, i) + (if previous.Some? && Falls(previous.value, f.buttons, i) then 1 else 0)
  {
    hide Compared, Rises, Falls;
    if previous.Some? {
      ComparedExactly(r.pending, previous.value, f.buttons, i);
    }
  }

  lemma TakenDiagnoses(r: Reader, previous: Option<seq<int>>, f: Frame, available: bool, name: string)
    requires f.Sample?
    ensures Counted(Taken(r, previous, f, available).pending.diagnostics, name) ==
            Counted(r.pending.diagnostics, name) +
            if name == "button_count_changed" && previous.Some? && |previous.value| != |f.buttons| then 1 else 0
  {
    hide Compared;
    if previous.Some? {
      ComparedDiagnoses(r.pending, previous.value, f.buttons, name);
    }
  }

  /** The reader and the baseline that a sample which is taken is counted with. */
  function Prepared(w: Reader, f: Frame): Reader
    requires f.Sample? && !IsDuplicate(w, f)
  {
    var later := w.(sequences := SequencesAfter(w, f));
    if !Available(f) then later.(pending := Diagnosed(w.pending, "sequence_unavailable"))
    else if GoesBack(w, f) then later.(pending := Diagnosed(w.pending, "reset_or_reorder"))
    else if GapOf(w, f) > 0 then WithGap(later, GapOf(w, f))
    else later
  }

  lemma AcceptedByTaking(w: Reader, previous: Option<seq<int>>, f: Frame)
    requires f.Sample?
    ensures AcceptedFrom(w, previous, f) ==
            if IsDuplicate(w, f) then w.(pending := Diagnosed(w.pending, "duplicate"))
            else Taken(Prepared(w, f), if GoesBack(w, f) then None else previous, f, Available(f))
  {
    hide Taken, Distance, Diagnosed;
  }

  /** A frame counts a press or a release of a button exactly when it is compared and the button changed its level. */
  lemma FrameEdges(r: Reader, f: Frame, i: nat)
    ensures var p, q := r.pending, Received(r, f).pending;
            && Counted(q.pressed, i) == Counted(p.pressed, i) + (if Presses(r, f, i) then 1 else 0)
            && Counted(q.released, i) == Counted(p.released, i) + (if Releases(r, f, i) then 1 else 0)
  {
    hide AcceptedFrom, Taken, Distance, Rises, Falls, Bumped;
    if f.Sample? {
      var w, previous := Warned(r, f), if SourceChanged(r, f) then None else r.buttons;
      AcceptedByTaking(w, previous, f);
      if !IsDuplicate(w, f) {
        TakenExactly(Prepared(w, f), if GoesBack(w, f) then None else previous, f, Available(f), i);
      }
    }
  }

  lemma DiagnosedCounts(p: Pending, cause: string, name: string)
    ensures Counted(Diagnosed(p, cause).diagnostics, name) ==
            Counted(p.diagnostics, name) + if name == cause then 1 else 0
  {
  }

  lemma PreparedDiagnoses(w: Reader, f: Frame, name: string)
    requires f.Sample? && !IsDuplicate(w, f)
    ensures Counted(Prepared(w, f).pending.diagnostics, name) ==
            Counted(w.pending.diagnostics, name) +
            if (name == "sequence_unavailable" && !Available(f)) ||
               (name == "reset_or_reorder" && GoesBack(w, f)) then 1
            else 0
  {
    hide Diagnosed, Counted, Distance;
    DiagnosedCounts(w.pending, "sequence_unavailable", name);
    DiagnosedCounts(w.pending, "reset_or_reorder", name);
  }

  lemma AcceptedDiagnoses(w: Reader, previous: Option<seq<int>>, f: Frame, name: string)
    requires f.Sample?
    ensures var baseline := if GoesBack(w, f) then None else previous;
            Counted(AcceptedFrom(w, previous, f).pending.diagnostics, name) ==
            Counted(w.pending.diagnostics, name) +
            if IsDuplicate(w, f) then (if name == "duplicate" then 1 else 0)
            else if (name == "sequence_unavailable" && !Available(f)) ||
                    (name == "reset_or_reorder" && GoesBack(w, f)) ||
                    (name == "button_count_changed" && baseline.Some? && |baseline.value| != |f.buttons|) then 1
            else 0
  {
    hide AcceptedFrom, Taken, Distance, Diagnosed, Prepared, Counted;
    AcceptedByTaking(w, previous, f);
    if IsDuplicate(w, f) {
      DiagnosedCounts(w.pending, "duplicate", name);
    } else {
      PreparedDiagnoses(w, f, name);
      TakenDiagnoses(Prepared(w, f), if GoesBack(w, f) then None else previous, f, Available(f), name);
    }
  }

  /** And exactly the diagnostics that it gives rise to. */
  lemma FrameDiagnostics(r: Reader, f: Frame, name: string)
    ensures Counted(Received(r, f).pending.diagnostics, name) ==
            Counted(r.pending.diagnostics, name) + if Diagnoses(r, f, name) then 1 else 0
  {
    hide AcceptedFrom, Distance, Diagnosed, Counted;
    if f.Sample? {
      DiagnosedCounts(r.pending, "source_changed", name);
      AcceptedDiagnoses(Warned(r, f), if SourceChanged(r, f) then None else r.buttons, f, name);
    } else {
      DiagnosedCounts(r.pending, "decode_error", name);
    }
  }

  /** A sample that is no duplicate becomes the latest one; any other frame leaves the latest sample as it was. */
  lemma FrameLatest(r: Reader, f: Frame)
    ensures var d := Received(r, f);
            if f.Sample? && !IsDuplicate(r, f) then
              && d.buttons == Some(f.buttons) && d.source == PublisherOf(f)
              && (d.sequenceAvailable <==> PublisherOf(f).Some?) && d.samplesTotal == r.samplesTotal + 1
            else
              && d.buttons == r.buttons && d.source == r.source && d.sequenceAvailable == r.sequenceAvailable
              && d.sequences == r.sequences && d.samplesTotal == r.samplesTotal && d.missingTotal == r.missingTotal
  {
    hide AcceptedFrom, Diagnosed;
    if f.Sample? {
      AcceptedKeeps(Warned(r, f), if SourceChanged(r, f) then None else r.buttons, f);
    }
  }

  /** A frame that does not decode is counted, and changes nothing else. */
  lemma MalformedOutcome(r: Reader)
    ensures var d := Received(r, Malformed);
            && d == r.(decodeErrors := r.decodeErrors + 1, pending := d.pending)
            && d.pending == r.pending.(incomplete := true, diagnostics := d.pending.diagnostics)
  {
  }

  // ---------------------------------------------------------------------------------------
  // A read
  // ---------------------------------------------------------------------------------------

  /** How many of the frames press button `i`. */
  function PressesIn(r: Reader, frames: seq<Frame>, i: nat): nat
    decreases |frames|
  {
    if frames == [] then 0
    else
      var n := |frames| - 1;
      PressesIn(r, frames[..n], i) + if Presses(Drained(r, frames[..n]), frames[n], i) then 1 else 0
  }

  function ReleasesIn(r: Reader, frames: seq<Frame>, i: nat): nat
    decreases |frames|
  {
    if frames == [] then 0
    else
      var n := |frames| - 1;
      ReleasesIn(r, frames[..n], i) + if Releases(Drained(r, frames[..n]), frames[n], i) then 1 else 0
  }

  function DiagnosesIn(r: Reader, frames: seq<Frame>, name: string): nat
    decreases |frames|
  {
    if frames == [] then 0
    else
      var n := |frames| - 1;
      DiagnosesIn(r, frames[..n], name) + if Diagnoses(Drained(r, frames[..n]), frames[n], name) then 1 else 0
  }

  lemma {:induction false} DrainedEdges(r: Reader, frames: seq<Frame>, i: nat)
    ensures var p, q := r.pending, Drained(r, frames).pending;
            && Counted(q.pressed, i) == Counted(p.pressed, i) + PressesIn(r, frames, i)
            && Counted(q.released, i) == Counted(p.released, i) + ReleasesIn(r, frames, i)
    decreases |frames|
  {
    hide Received, Presses, Releases, Counted;
    if frames != [] {
      var n := |frames| - 1;
      DrainedEdges(r, frames[..n], i);
      FrameEdges(Drained(r, frames[..n]), frames[n], i);
    }
  }

  lemma {:induction false} DrainedDiagnostics(r: Reader, frames: seq<Frame>, name: string)
    ensures Counted(Drained(r, frames).pending.diagnostics, name) ==
            Counted(r.pending.diagnostics, name) + DiagnosesIn(r, frames, name)
    decreases |frames|
  {
    hide Received, Diagnoses, Counted;
    if frames != [] {
      var n := |frames| - 1;
      DrainedDiagnostics(r, frames[..n], name);
      FrameDiagnostics(Drained(r, frames[..n]), frames[n], name);
    }
  }

  lemma NothingCounted(i: nat, name: string)
    ensures Counted(NOTHING.pressed, i) == Counted(NOTHING.released, i) == Counted(NOTHING.diagnostics, name) == 0
  {
  }

  /**
   What a read hands out after any series of reads: for every button the presses and the releases among the frames it
   took, for every diagnostic the frames that gave rise to it, and totals that grew by exactly what is handed out. The
   next read begins with nothing counted.
   */
  lemma ReadHandsOut(batches: seq<seq<Frame>>, frames: seq<Frame>, i: nat, name: string)
    ensures var r := ReadAll(NEW_READER, batches);
            var shot := SnapshotOf(Drained(r, frames));
            && Counted(shot.pressed, i) == PressesIn(r, frames, i)
            && Counted(shot.released, i) == ReleasesIn(r, frames, i)
            && Counted(shot.diagnostics, name) == DiagnosesIn(r, frames, name)
            && shot.samplesTotal == r.samplesTotal + shot.samples && shot.missingTotal == r.missingTotal + shot.missing
            && var next := ReadAll(NEW_READER, batches + [frames]);
               && next.pending == NOTHING && next.samplesTotal == shot.samplesTotal
               && next.missingTotal == shot.missingTotal && next.decodeErrors == shot.decodeErrors
               && next.historyComplete == shot.complete && next.sequenceAvailable == shot.sequenceAvailable
               && (next.buttons == None ==> shot.buttons == [])
               && (next.buttons.Some? ==> shot.buttons == next.buttons.value)
  {
    hide Drained, Complete, Counted;
    var r := ReadAll(NEW_READER, batches);
    ReadAllInv(batches);
    DrainedEdges(r, frames, i);
    DrainedDiagnostics(r, frames, name);
    TotalsAreHandedOut(r, frames);
    assert (batches + [frames])[..|batches|] == batches;
    NothingCounted(i, name);
  }

  /** A read that finds no frame repeats the verdict of the read before it. */
  lemma QuietRead(batches: seq<seq<Frame>>)
    ensures var r, shot := ReadAll(NEW_READER, batches), SnapshotOf(Drained(ReadAll(NEW_READER, batches), []));
            && (shot.complete <==> r.historyComplete) && shot.samples == 0 && shot.missing == 0
            && shot.pressed == map[] && shot.released == map[] && shot.diagnostics == map[]
  {
    ReadAllInv(batches);
  }

  // ---------------------------------------------------------------------------------------
  // Levels
  // ---------------------------------------------------------------------------------------

  /** The levels of button `i` in the latest sample and in every sample taken after it. */
  function Levels(r: Reader, frames: seq<Frame>, i: nat): (levels: seq<bool>)
    requires r.buttons.Some? && i < |r.buttons.value|
    ensures levels != []
    decreases |frames|
  {
    if frames == [] then [r.buttons.value[i] != 0]
    else
      var n := |frames| - 1;
      var before, f := Levels(r, frames[..n], i), frames[n];
      if f.Sample? && !IsDuplicate(Drained(r, frames[..n]), f) && i < |f.buttons| then before + [f.buttons[i] != 0]
      else before
  }

  function RisingSteps(levels: seq<bool>): nat
    decreases |levels|
  {
    if |levels| < 2 then 0
    else
      var n := |levels| - 1;
      RisingSteps(levels[..n]) + if !levels[n - 1] && levels[n] then 1 else 0
  }

  function FallingSteps(levels: seq<bool>): nat
    decreases |levels|
  {
    if |levels| < 2 then 0
    else
      var n := |levels| - 1;
      FallingSteps(levels[..n]) + if levels[n - 1] && !levels[n] then 1 else 0
  }

  lemma StepsAppend(levels: seq<bool>, level: bool)
    requires levels != []
    ensures var last := levels[|levels| - 1];
            && RisingSteps(levels + [level]) == RisingSteps(levels) + (if !last && level then 1 else 0)
            && FallingSteps(levels + [level]) == FallingSteps(levels) + (if last && !level then 1 else 0)
  {
    assert (levels + [level])[..|levels|] == levels;
  }

  /** What one frame adds on a baseline that it does not break. */
  lemma FrameOnBaseline(r: Reader, f: Frame, i: nat)
    requires r.buttons.Some? && i < |r.buttons.value| && KeepsBaseline(r, f)
    ensures var d, taken := Received(r, f), f.Sample? && !IsDuplicate(r, f);
            && d.buttons == (if taken then Some(f.buttons) else r.buttons)
            && (taken ==> i < |f.buttons|)
            && (Presses(r, f, i) <==> taken && r.buttons.value[i] == 0 && f.buttons[i] != 0)
            && (Releases(r, f, i) <==> taken && r.buttons.value[i] != 0 && f.buttons[i] == 0)
  {
    hide AcceptedFrom, Diagnosed;
    if f.Sample? {
      AcceptedKeeps(Warned(r, f), if SourceChanged(r, f) then None else r.buttons, f);
    }
  }

  lemma EdgesAreStepsNext(r: Reader, frames: seq<Frame>, i: nat)
    requires frames != [] && r.buttons.Some? && i < |r.buttons.value|
    requires var n := |frames| - 1;
             var before, levels := Drained(r, frames[..n]), Levels(r, frames[..n], i);
             && before.buttons.Some? && |before.buttons.value| == |r.buttons.value| && KeepsBaseline(before, frames[n])
             && levels[|levels| - 1] == (before.buttons.value[i] != 0)
             && Counted(before.pending.pressed, i) == Counted(r.pending.pressed, i) + RisingSteps(levels)
             && Counted(before.pending.released, i) == Counted(r.pending.released, i) + FallingSteps(levels)
    ensures var d, levels := Drained(r, frames), Levels(r, frames, i);
            && d.buttons.Some? && |d.buttons.value| == |r.buttons.value|
            && levels[|levels| - 1] == (d.buttons.value[i] != 0)
            && Counted(d.pending.pressed, i) == Counted(r.pending.pressed, i) + RisingSteps(levels)
            && Counted(d.pending.released, i) == Counted(r.pending.released, i) + FallingSteps(levels)
  {
    hide Received, Presses, Releases, Counted, RisingSteps, FallingSteps;
    var n := |frames| - 1;
    var before, f := Drained(r, frames[..n]), frames[n];
    FrameOnBaseline(before, f, i);
    FrameEdges(before, f, i);
    if f.Sample? && !IsDuplicate(before, f) {
      StepsAppend(Levels(r, frames[..n], i), f.buttons[i] != 0);
    }
  }

  /**
   As long as no frame breaks the baseline, the presses of a button are the rising steps of its level over the samples
   that were taken, and its releases the falling ones.
   */
  lemma {:induction false} EdgesAreSteps(r: Reader, frames: seq<Frame>, i: nat)
    requires r.buttons.Some? && i < |r.buttons.value|
    requires forall k | 0 <= k < |frames| ::
               Drained(r, frames[..k]).buttons.Some? && KeepsBaseline(Drained(r, frames[..k]), frames[k])
    ensures var d, levels := Drained(r, frames), Levels(r, frames, i);
            && d.buttons.Some? && |d.buttons.value| == |r.buttons.value|
            && levels[|levels| - 1] == (d.buttons.value[i] != 0)
            && Counted(d.pending.pressed, i) == Counted(r.pending.pressed, i) + RisingSteps(levels)
            && Counted(d.pending.released, i) == Counted(r.pending.released, i) + FallingSteps(levels)
    decreases |frames|
  {
    if frames != [] {
      var n := |frames| - 1;
      forall k | 0 <= k < n
        ensures Drained(r, frames[..n][..k]).buttons.Some?
        ensures KeepsBaseline(Drained(r, frames[..n][..k]), frames[..n][k])
      {
        assert frames[..n][..k] == frames[..k];
      }
      EdgesAreSteps(r, frames[..n], i);
      EdgesAreStepsNext(r, frames, i);
    }
  }
}
