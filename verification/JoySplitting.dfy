/** However arrivals are split into reads, the reads together hand out the same counts. */
module JoySplitting {
  import opened Wrappers
  import opened Joy
  import opened JoyAccounting

  /** The counts `s` are those of `p` and of `q` together. */
  ghost predicate Together(p: Pending, q: Pending, s: Pending) {
    && (forall i :: Counted(s.pressed, i) == Counted(p.pressed, i) + Counted(q.pressed, i))
    && (forall i :: Counted(s.released, i) == Counted(p.released, i) + Counted(q.released, i))
    && (forall name :: Counted(s.diagnostics, name) == Counted(p.diagnostics, name) + Counted(q.diagnostics, name))
    && s.missing == p.missing + q.missing && s.samples == p.samples + q.samples
    && (s.incomplete <==> p.incomplete || q.incomplete)
  }

  /** The reader without what is pending and without the verdict of the last read. */
  function Core(r: Reader): Reader {
    r.(pending := NOTHING, historyComplete := false)
  }

  lemma PressedTogether(p: Pending, q: Pending, s: Pending, i: nat)
    requires Together(p, q, s)
    ensures Together(p, q.(pressed := Bumped<nat>(q.pressed, i)), s.(pressed := Bumped<nat>(s.pressed, i)))
  {
  }

  lemma ReleasedTogether(p: Pending, q: Pending, s: Pending, i: nat)
    requires Together(p, q, s)
    ensures Together(p, q.(released := Bumped<nat>(q.released, i)), s.(released := Bumped<nat>(s.released, i)))
  {
  }

  lemma DiagnosedTogether(p: Pending, q: Pending, s: Pending, name: string)
    requires Together(p, q, s)
    ensures Together(p, Diagnosed(q, name), Diagnosed(s, name))
  {
  }

  lemma {:induction false} EdgesTogether(p: Pending, q: Pending, s: Pending, before: seq<int>, after: seq<int>, k: nat)
    requires Together(p, q, s) && k <= |before| && k <= |after|
    ensures Together(p, Edges(q, before, after, k), Edges(s, before, after, k))
  {
    hide Together, Bumped, Down;
    if k > 0 {
      EdgesTogether(p, q, s, before, after, k - 1);
      var q1, s1 := Edges(q, before, after, k - 1), Edges(s, before, after, k - 1);
      if Down(before[k - 1]) == Down(after[k - 1]) {
      } else if Down(after[k - 1]) {
        PressedTogether(p, q1, s1, k - 1);
      } else {
        ReleasedTogether(p, q1, s1, k - 1);
      }
    }
  }

  lemma ComparedTogether(p: Pending, q: Pending, s: Pending, before: seq<int>, after: seq<int>)
    requires Together(p, q, s)
    ensures Together(p, Compared(q, before, after), Compared(s, before, after))
  {
    DiagnosedTogether(p, q, s, "button_count_changed");
    var changed := |before| != |after|;
    var q1 := if changed then Diagnosed(q, "button_count_changed") else q;
    var s1 := if changed then Diagnosed(s, "button_count_changed") else s;
    EdgesTogether(p, q1, s1, before, after, Smaller(|before|, |after|));
  }

  /** Two readers that differ only in what is pending and in the last verdict. */
  ghost predicate Alike(p: Pending, r: Reader, t: Reader) {
    Core(r) == Core(t) && Together(p, r.pending, t.pending)
  }

  lemma TakenAlike(p: Pending, r: Reader, t: Reader, previous: Option<seq<int>>, f: Frame, available: bool)
    requires Alike(p, r, t) && f.Sample?
    ensures Alike(p, Taken(r, previous, f, available), Taken(t, previous, f, available))
  {
    if previous.Some? {
      ComparedTogether(p, r.pending, t.pending, previous.value, f.buttons);
    }
    hide Compared, Counted;
  }

  lemma DiagnosedAlike(p: Pending, r: Reader, t: Reader, name: string)
    requires Alike(p, r, t)
    ensures Alike(p, r.(pending := Diagnosed(r.pending, name)), t.(pending := Diagnosed(t.pending, name)))
  {
    DiagnosedTogether(p, r.pending, t.pending, name);
    hide Diagnosed, Counted;
  }

  lemma GapAlike(p: Pending, w: Reader, v: Reader, gap: nat)
    requires Alike(p, w, v)
    ensures Alike(p, WithGap(w, gap), WithGap(v, gap))
  {
    hide Counted;
  }

  lemma FromAlike(p: Pending, w: Reader, v: Reader, previous: Option<seq<int>>, f: Frame)
    requires Alike(p, w, v) && f.Sample?
    ensures Alike(p, AcceptedFrom(w, previous, f), AcceptedFrom(v, previous, f))
  {
    hide Taken, Diagnosed, Distance, Together;
    if !Available(f) {
      var name := "sequence_unavailable";
      DiagnosedAlike(p, w, v, name);
      TakenAlike(p, w.(sequences := map[], pending := Diagnosed(w.pending, name)),
                 v.(sequences := map[], pending := Diagnosed(v.pending, name)), previous, f, false);
    } else {
      var latest := w.sequences[SourceOf(f).value := f.header.value.sequence];
      var w1, v1 := w.(sequences := latest), v.(sequences := latest);
      if SourceOf(f).value !in w.sequences {
        TakenAlike(p, w1, v1, previous, f, true);
      } else {
        var distance := Distance(w.sequences[SourceOf(f).value], f.header.value.sequence);
        if distance == 0 {
          DiagnosedAlike(p, w, v, "duplicate");
        } else if distance >= TWO_TO_THE_63 {
          var name := "reset_or_reorder";
          DiagnosedAlike(p, w, v, name);
          TakenAlike(p, w1.(pending := Diagnosed(w.pending, name)), v1.(pending := Diagnosed(v.pending, name)), None, f,
                     true);
        } else if distance > 1 {
          GapAlike(p, w1, v1, distance - 1);
          TakenAlike(p, WithGap(w1, distance - 1), WithGap(v1, distance - 1), previous, f, true);
        } else {
          TakenAlike(p, w1, v1, previous, f, true);
        }
      }
    }
  }

  lemma ReceivedAlike(p: Pending, r: Reader, t: Reader, f: Frame)
    requires Alike(p, r, t)
    ensures Alike(p, Received(r, f), Received(t, f))
  {
    hide Diagnosed, Together, AcceptedFrom;
    match f {
      case Malformed =>
        DiagnosedAlike(p, r, t, "decode_error");
      case Sample(_, _) =>
        DiagnosedAlike(p, r, t, "source_changed");
        FromAlike(p, Warned(r, f), Warned(t, f), if SourceChanged(r, f) then None else r.buttons, f);
    }
  }

  lemma {:induction false} DrainedAlike(p: Pending, r: Reader, t: Reader, frames: seq<Frame>)
    requires Alike(p, r, t)
    ensures Alike(p, Drained(r, frames), Drained(t, frames))
    decreases |frames|
  {
    if frames != [] {
      var n := |frames| - 1;
      DrainedAlike(p, r, t, frames[..n]);
      hide Alike, Received;
      ReceivedAlike(p, Drained(r, frames[..n]), Drained(t, frames[..n]), frames[n]);
    }
  }

  lemma {:induction false} DrainedSplits(r: Reader, xs: seq<Frame>, ys: seq<Frame>)
    ensures Drained(r, xs + ys) == Drained(Drained(r, xs), ys)
    decreases |ys|
  {
    if ys == [] {
      assert xs + ys == xs;
    } else {
      var n := |ys| - 1;
      DrainedSplits(r, xs, ys[..n]);
      assert (xs + ys)[..|xs + ys| - 1] == xs + ys[..n];
      hide Received;
    }
  }

  // ---------------------------------------------------------------------------------------
  // A series of reads
  // ---------------------------------------------------------------------------------------

  function Joined(batches: seq<seq<Frame>>): seq<Frame>
    decreases |batches|
  {
    if batches == [] then [] else Joined(batches[..|batches| - 1]) + batches[|batches| - 1]
  }

  /** The reader after one read for each batch. */
  function ReadAll(r: Reader, batches: seq<seq<Frame>>): Reader
    decreases |batches|
  {
    if batches == [] then r
    else Reset(Drained(ReadAll(r, batches[..|batches| - 1]), batches[|batches| - 1]))
  }

  function AddedCounts<K>(m: map<K, nat>, n: map<K, nat>): map<K, nat> {
    map key | key in m.Keys + n.Keys :: Counted(m, key) + Counted(n, key)
  }

  /** Two reads' worth of counts as one. */
  function Added(p: Pending, q: Pending): Pending {
    Pending(AddedCounts(p.pressed, q.pressed), AddedCounts(p.released, q.released), p.missing + q.missing,
            p.samples + q.samples, p.incomplete || q.incomplete, AddedCounts(p.diagnostics, q.diagnostics))
  }

  /** All that the reads handed out, added up. */
  function Total(r: Reader, batches: seq<seq<Frame>>): Pending
    decreases |batches|
  {
    if batches == [] then NOTHING
    else
      var before := batches[..|batches| - 1];
      Added(Total(r, before), Drained(ReadAll(r, before), batches[|batches| - 1]).pending)
  }

  /** The same counts, whether kept together or added up. */
  ghost predicate SameCounts(p: Pending, q: Pending) {
    && (forall i :: Counted(p.pressed, i) == Counted(q.pressed, i))
    && (forall i :: Counted(p.released, i) == Counted(q.released, i))
    && (forall name :: Counted(p.diagnostics, name) == Counted(q.diagnostics, name))
    && p.missing == q.missing && p.samples == q.samples && (p.incomplete <==> q.incomplete)
  }

  lemma AddedSame(total: Pending, p: Pending, q: Pending, s: Pending)
    requires SameCounts(total, p) && Together(p, q, s)
    ensures SameCounts(Added(total, q), s)
  {
  }

  lemma BothNothing(p: Pending)
    ensures Together(p, NOTHING, p)
  {
  }

  /**
   Reading the same frames in any number of reads leaves the reader as one read would, and hands out the same
   numbers of samples, gaps, presses, releases and diagnostics in all.
   */
  lemma {:induction false} SplittingChangesNothing(r: Reader, batches: seq<seq<Frame>>)
    requires r.pending == NOTHING
    ensures Core(ReadAll(r, batches)) == Core(Drained(r, Joined(batches)))
    ensures ReadAll(r, batches).pending == NOTHING
    ensures SameCounts(Total(r, batches), Drained(r, Joined(batches)).pending)
    decreases |batches|
  {
    if batches != [] {
      var n := |batches| - 1;
      var before, last := batches[..n], batches[n];
      SplittingChangesNothing(r, before);
      var one, many := Drained(r, Joined(before)), ReadAll(r, before);
      DrainedSplits(r, Joined(before), last);
      hide Received, Counted;
      BothNothing(one.pending);
      assert Alike(one.pending, many, one);
      DrainedAlike(one.pending, many, one, last);
      AddedSame(Total(r, before), one.pending, Drained(many, last).pending, Drained(one, last).pending);
    }
  }

  lemma StepTotals(r: Reader, f: Frame)
    ensures var d := Received(r, f);
            && d.samplesTotal - r.samplesTotal == d.pending.samples - r.pending.samples
            && d.missingTotal - r.missingTotal == d.pending.missing - r.pending.missing
  {
    hide AcceptedFrom, IsDuplicate, GapOf, GoesBack, SequencesAfter, Bumped;
    if f.Sample? {
      AcceptedKeeps(Warned(r, f), if SourceChanged(r, f) then None else r.buttons, f);
    }
  }

  /** The totals of the reader are what its reads handed out. */
  lemma {:induction false} TotalsAreHandedOut(r: Reader, frames: seq<Frame>)
    ensures var d := Drained(r, frames);
            && d.samplesTotal - r.samplesTotal == d.pending.samples - r.pending.samples
            && d.missingTotal - r.missingTotal == d.pending.missing - r.pending.missing
    decreases |frames|
  {
    if frames != [] {
      TotalsAreHandedOut(r, frames[..|frames| - 1]);
      StepTotals(Drained(r, frames[..|frames| - 1]), frames[|frames| - 1]);
      hide Received;
    }
  }

  // ---------------------------------------------------------------------------------------
  // Every read of every reader
  // ---------------------------------------------------------------------------------------

  /** Whatever a reader has read, what the verdict on the next read rests on holds. */
  lemma {:induction false} ReadAllInv(batches: seq<seq<Frame>>)
    ensures Inv(ReadAll(NEW_READER, batches)) && ReadAll(NEW_READER, batches).pending == NOTHING
    decreases |batches|
  {
    if batches != [] {
      var before := batches[..|batches| - 1];
      ReadAllInv(before);
      var d := Drained(ReadAll(NEW_READER, before), batches[|batches| - 1]);
      DrainedComplete(ReadAll(NEW_READER, before), batches[|batches| - 1]);
      hide Drained, Complete;
    }
  }

  /**
   After any series of reads, a read that takes frames reports a complete history exactly when they are
   consecutive.
   */
  lemma EveryCompleteReadIsConsecutive(batches: seq<seq<Frame>>, frames: seq<Frame>)
    requires frames != []
    ensures var r := ReadAll(NEW_READER, batches);
            SnapshotOf(Drained(r, frames)).complete <==> Consecutive(r, frames)
  {
    ReadAllInv(batches);
    CompleteMeansConsecutive(ReadAll(NEW_READER, batches), frames);
  }
}
