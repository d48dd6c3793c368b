/**
 Reception of joystick samples: edges and gaps are counted as samples arrive, a read hands out what was
 counted since the read before. Axes and time stamps are carried along unread and are left out.
 */
module Joy {
  import opened Words
  import opened Bytes
  import opened Wrappers

  const TWO_TO_THE_63 := 0x8000_0000_0000_0000

  datatype Header = Header(source: Option<string>, sequence: Word64)

  /** A frame as it was pulled. A frame that does not decode changes nothing but the diagnostics. */
  datatype Frame =
    | Malformed
    | Sample(buttons: seq<int>, header: Option<Header>)

  /** The publisher of a sample; a header may leave it out. */
  function SourceOf(f: Frame): Option<string>
    requires f.Sample?
  {
    if f.header.Some? then f.header.value.source else None
  }

  /** Without a publisher's identity interleaved counters could not be told apart. */
  predicate Available(f: Frame)
    requires f.Sample?
  {
    SourceOf(f).Some?
  }

  /** What is counted between two reads. */
  datatype Pending = Pending(pressed: map<nat, nat>, released: map<nat, nat>, missing: nat, samples: nat,
                             incomplete: bool, diagnostics: map<string, nat>)

  datatype Reader = Reader(buttons: Option<seq<int>>, source: Option<string>, sequences: map<string, Word64>,
                           samplesTotal: nat, missingTotal: nat, decodeErrors: nat,
                           sequenceAvailable: bool, historyComplete: bool, pending: Pending)

  datatype Snapshot = Snapshot(buttons: seq<int>, pressed: map<nat, nat>, released: map<nat, nat>,
                               missing: nat, missingTotal: nat, sequenceAvailable: bool, complete: bool,
                               samples: nat, samplesTotal: nat, diagnostics: map<string, nat>, decodeErrors: nat)

  const NOTHING := Pending(map[], map[], 0, 0, false, map[])
  const NEW_READER := Reader(None, None, map[], 0, 0, 0, false, false, NOTHING)

  function Counted<K>(m: map<K, nat>, key: K): nat {
    if key in m then m[key] else 0
  }

  function Bumped<K>(m: map<K, nat>, key: K): map<K, nat> {
    m[key := Counted(m, key) + 1]
  }

  function Diagnosed(p: Pending, name: string): Pending {
    p.(diagnostics := Bumped(p.diagnostics, name), incomplete := true)
  }

  /** The distance forward from one sequence number to another, around the end of the range. */
  function Distance(from: Word64, to: Word64): nat {
    (to - from) % TWO_TO_THE_64
  }

  predicate Down(level: int) {
    level != 0
  }

  /** The edges of the first `k` buttons. */
  function Edges(p: Pending, before: seq<int>, after: seq<int>, k: nat): Pending
    requires k <= |before| && k <= |after|
  {
    if k == 0 then p
    else
      var q := Edges(p, before, after, k - 1);
      if Down(before[k - 1]) == Down(after[k - 1]) then q
      else if Down(after[k - 1]) then q.(pressed := Bumped<nat>(q.pressed, k - 1))
      else q.(released := Bumped<nat>(q.released, k - 1))
  }

  function Smaller(a: nat, b: nat): nat {
    if a < b then a else b
  }

  /** The edges between two samples, as far as both have buttons. */
  function Compared(p: Pending, before: seq<int>, after: seq<int>): Pending {
    var q := if |before| != |after| then Diagnosed(p, "button_count_changed") else p;
    Edges(q, before, after, Smaller(|before|, |after|))
  }

  /** The edges since the latest sample; without a baseline there are none, and the history is incomplete. */
  function WithEdges(r: Reader, previous: Option<seq<int>>, f: Frame): Reader
    requires f.Sample?
  {
    r.(pending := match previous
                  case None => r.pending.(incomplete := true)
                  case Some(before) => Compared(r.pending, before, f.buttons))
  }

  /** A sample becomes the latest one. */
  function WithLatest(r: Reader, f: Frame, available: bool): Reader
    requires f.Sample?
  {
    r.(buttons := Some(f.buttons), source := SourceOf(f), sequenceAvailable := available,
       samplesTotal := r.samplesTotal + 1, pending := r.pending.(samples := r.pending.samples + 1))
  }

  function Taken(r: Reader, previous: Option<seq<int>>, f: Frame, available: bool): Reader
    requires f.Sample?
  {
    WithLatest(WithEdges(r, previous, f), f, available)
  }

  predicate SourceChanged(r: Reader, f: Frame)
    requires f.Sample?
  {
    r.samplesTotal > 0 && SourceOf(f) != r.source
  }

  /** A reader told of a change of source. */
  function Warned(r: Reader, f: Frame): Reader
    requires f.Sample?
  {
    if SourceChanged(r, f) then r.(pending := Diagnosed(r.pending, "source_changed")) else r
  }

  function WithGap(r: Reader, gap: nat): Reader {
    r.(missingTotal := r.missingTotal + gap,
       pending := r.pending.(missing := r.pending.missing + gap, incomplete := true))
  }

  /** A sample whose baseline is `previous`: its number decides whether it is taken, and what is missing. */
  function AcceptedFrom(w: Reader, previous: Option<seq<int>>, f: Frame): Reader
    requires f.Sample?
  {
    if !Available(f) then
      Taken(w.(sequences := map[], pending := Diagnosed(w.pending, "sequence_unavailable")), previous, f, false)
    else
      var later := w.(sequences := w.sequences[SourceOf(f).value := f.header.value.sequence]);
      if SourceOf(f).value !in w.sequences then Taken(later, previous, f, true)
      else
        var distance := Distance(w.sequences[SourceOf(f).value], f.header.value.sequence);
        if distance == 0 then w.(pending := Diagnosed(w.pending, "duplicate"))
        else if distance >= TWO_TO_THE_63 then
          Taken(later.(pending := Diagnosed(w.pending, "reset_or_reorder")), None, f, true)
        else if distance > 1 then Taken(WithGap(later, distance - 1), previous, f, true)
        else Taken(later, previous, f, true)
  }

  /** One decoded sample. A change of source takes its baseline away. */
  function Accepted(r: Reader, f: Frame): Reader
    requires f.Sample?
  {
    AcceptedFrom(Warned(r, f), if SourceChanged(r, f) then None else r.buttons, f)
  }

  function Received(r: Reader, f: Frame): Reader {
    match f
    case Malformed => r.(decodeErrors := r.decodeErrors + 1, pending := Diagnosed(r.pending, "decode_error"))
    case Sample(_, _) => Accepted(r, f)
  }

  function Drained(r: Reader, frames: seq<Frame>): Reader
    decreases |frames|
  {
    if frames == [] then r
    else Received(Drained(r, frames[..|frames| - 1]), frames[|frames| - 1])
  }

  /** Is the history of edges complete, as a read reports it? */
  predicate Complete(r: Reader) {
    if r.pending.samples > 0 then r.sequenceAvailable && !r.pending.incomplete
    else r.historyComplete && !r.pending.incomplete
  }

  function SnapshotOf(r: Reader): Snapshot {
    Snapshot(if r.buttons.Some? then r.buttons.value else [], r.pending.pressed, r.pending.released,
             r.pending.missing, r.missingTotal, r.sequenceAvailable, Complete(r), r.pending.samples, r.samplesTotal,
             r.pending.diagnostics, r.decodeErrors)
  }

  function Reset(r: Reader): Reader {
    r.(historyComplete := Complete(r), pending := NOTHING)
  }

  // ---------------------------------------------------------------------------------------
  // The object
  // ---------------------------------------------------------------------------------------

  class JoyReader {
    var buttons: Option<seq<int>>
    var source: Option<string>
    var sequences: map<string, Word64>
    var samplesTotal: nat
    var missingTotal: nat
    var decodeErrorsTotal: nat
    var sequenceAvailable: bool
    var historyComplete: bool
    var pressed: map<nat, nat>
    var released: map<nat, nat>
    var missing: nat
    var samples: nat
    var incomplete: bool
    var diagnostics: map<string, nat>

    function Counts(): Pending
      reads this
    {
      Pending(pressed, released, missing, samples, incomplete, diagnostics)
    }

    function State(): Reader
      reads this
    {
      Reader(buttons, source, sequences, samplesTotal, missingTotal, decodeErrorsTotal, sequenceAvailable,
             historyComplete, Counts())
    }

    constructor ()
      ensures State() == NEW_READER
    {
      buttons, source, sequences := None, None, map[];
      samplesTotal, missingTotal, decodeErrorsTotal := 0, 0, 0;
      sequenceAvailable, historyComplete := false, false;
      pressed, released, missing, samples, incomplete, diagnostics := map[], map[], 0, 0, false, map[];
    }

    method ResetPending()
      modifies `pressed, `released, `missing, `samples, `incomplete, `diagnostics
      ensures State() == old(State()).(pending := NOTHING)
    {
      pressed, released, missing, samples, incomplete, diagnostics := map[], map[], 0, 0, false, map[];
    }

    method Diagnose(name: string)
      modifies `diagnostics, `incomplete
      ensures Counts() == Diagnosed(old(Counts()), name)
    {
      diagnostics := diagnostics[name := (if name in diagnostics then diagnostics[name] else 0) + 1];
      incomplete := true;
    }

    method CountEdges(before: seq<int>, after: seq<int>)
      modifies `pressed, `released, `diagnostics, `incomplete
      ensures Counts() == Compared(old(Counts()), before, after)
    {
      if |before| != |after| {
        Diagnose("button_count_changed");
      }
      label counted:
      var i := 0;
      while i < |before| && i < |after|
        invariant 0 <= i <= Smaller(|before|, |after|)
        invariant Counts() == Edges(old@counted(Counts()), before, after, i)
      {
        if Down(before[i]) != Down(after[i]) {
          if Down(after[i]) {
            pressed := pressed[i := (if i in pressed then pressed[i] else 0) + 1];
          } else {
            released := released[i := (if i in released then released[i] else 0) + 1];
          }
        }
        i := i + 1;
      }
    }

    method Compare(previous: Option<seq<int>>, f: Frame)
      requires f.Sample?
      modifies `pressed, `released, `diagnostics, `incomplete
      ensures State() == WithEdges(old(State()), previous, f)
    {
      hide Compared;
      if previous.None? {
        incomplete := true;
      } else {
        CountEdges(previous.value, f.buttons);
      }
    }

    method Keep(f: Frame, available: bool)
      requires f.Sample?
      modifies `buttons, `source, `samplesTotal, `sequenceAvailable, `samples
      ensures State() == WithLatest(old(State()), f, available)
    {
      buttons, source := Some(f.buttons), SourceOf(f);
      sequenceAvailable := available;
      samples := samples + 1;
      samplesTotal := samplesTotal + 1;
    }

    /** The sample becomes the latest one. */
    method Take(previous: Option<seq<int>>, f: Frame, available: bool)
      requires f.Sample?
      modifies `buttons, `source, `samplesTotal, `sequenceAvailable,
               `pressed, `released, `samples, `incomplete, `diagnostics
      ensures State() == Taken(old(State()), previous, f, available)
    {
      hide WithEdges, WithLatest, State;
      Compare(previous, f);
      Keep(f, available);
    }

    method AcceptFrom(previous: Option<seq<int>>, f: Frame)
      requires f.Sample?
      modifies `buttons, `source, `sequences, `samplesTotal, `missingTotal, `sequenceAvailable,
               `pressed, `released, `missing, `samples, `incomplete, `diagnostics
      ensures State() == AcceptedFrom(old(State()), previous, f)
    {
      hide Diagnosed, Taken, Distance;
      var baseline := previous;
      var available := Available(f);
      if !available {
        Diagnose("sequence_unavailable");
        sequences := map[];
      } else {
        if SourceOf(f).value in sequences {
          var distance := Distance(sequences[SourceOf(f).value], f.header.value.sequence);
          if distance == 0 {
            Diagnose("duplicate");
            return;
          } else if distance >= TWO_TO_THE_63 {
            Diagnose("reset_or_reorder");
            baseline := None;
          } else if distance > 1 {
            missing := missing + (distance - 1);
            missingTotal := missingTotal + (distance - 1);
            incomplete := true;
          }
        }
        sequences := sequences[SourceOf(f).value := f.header.value.sequence];
      }
      Take(baseline, f, available);
    }

    method Accept(f: Frame)
      requires f.Sample?
      modifies this
      ensures State() == Accepted(old(State()), f)
    {
      hide Diagnosed, AcceptedFrom;
      var previous := buttons;
      if samplesTotal > 0 && SourceOf(f) != source {
        Diagnose("source_changed");
        previous := None;
      }
      AcceptFrom(previous, f);
    }

    /** Drains the frames that have arrived and hands out what was counted. */
    method Read(frames: seq<Frame>) returns (snapshot: Snapshot)
      modifies this
      ensures snapshot == SnapshotOf(Drained(old(State()), frames))
      ensures State() == Reset(Drained(old(State()), frames))
    {
      hide Diagnosed, Accepted;
      var i := 0;
      while i < |frames|
        invariant 0 <= i <= |frames| && State() == Drained(old(State()), frames[..i])
      {
        assert frames[..i + 1][..i] == frames[..i];
        if frames[i].Malformed? {
          decodeErrorsTotal := decodeErrorsTotal + 1;
          Diagnose("decode_error");
        } else {
          Accept(frames[i]);
        }
        i := i + 1;
      }
      assert frames[..i] == frames;
      var complete := if samples > 0 then sequenceAvailable && !incomplete else historyComplete && !incomplete;
      snapshot := Snapshot(if buttons.Some? then buttons.value else [], pressed, released, missing, missingTotal,
                           sequenceAvailable, complete, samples, samplesTotal, diagnostics, decodeErrorsTotal);
      historyComplete := complete;
      ResetPending();
    }
  }

  // ---------------------------------------------------------------------------------------
  // What a sample changes
  // ---------------------------------------------------------------------------------------

  lemma {:induction false} EdgesKeep(p: Pending, before: seq<int>, after: seq<int>, k: nat)
    requires k <= |before| && k <= |after|
    ensures var q := Edges(p, before, after, k);
            q == p.(pressed := q.pressed, released := q.released)
  {
    if k > 0 {
      EdgesKeep(p, before, after, k - 1);
    }
  }

  lemma ComparedKeeps(p: Pending, before: seq<int>, after: seq<int>)
    ensures var q := Compared(p, before, after);
            && q.samples == p.samples && q.missing == p.missing
            && (q.incomplete <==> p.incomplete || |before| != |after|)
  {
    var q := if |before| != |after| then Diagnosed(p, "button_count_changed") else p;
    EdgesKeep(q, before, after, Smaller(|before|, |after|));
  }

  /** The last sample, its counts, and whether the history stays complete. */
  lemma TakenKeeps(r: Reader, previous: Option<seq<int>>, f: Frame, available: bool)
    requires f.Sample?
    ensures var d := Taken(r, previous, f, available);
            && d == r.(buttons := Some(f.buttons), source := SourceOf(f), samplesTotal := r.samplesTotal + 1,
                       sequenceAvailable := available, pending := d.pending)
            && d.pending.samples == r.pending.samples + 1 && d.pending.missing == r.pending.missing
            && (d.pending.incomplete <==>
                  r.pending.incomplete || previous.None? || |previous.value| != |f.buttons|)
  {
    hide Compared;
    if previous.Some? {
      ComparedKeeps(r.pending, previous.value, f.buttons);
    }
  }

  predicate IsDuplicate(r: Reader, f: Frame)
    requires f.Sample?
  {
    Available(f) && SourceOf(f).value in r.sequences &&
    Distance(r.sequences[SourceOf(f).value], f.header.value.sequence) == 0
  }

  /** How many numbers a sample skips. */
  function GapOf(r: Reader, f: Frame): nat
    requires f.Sample?
  {
    if Available(f) && SourceOf(f).value in r.sequences then
      var distance := Distance(r.sequences[SourceOf(f).value], f.header.value.sequence);
      if 0 < distance < TWO_TO_THE_63 then distance - 1 else 0
    else 0
  }

  /** Does the number of a sample show that its source went back? */
  predicate GoesBack(r: Reader, f: Frame)
    requires f.Sample?
  {
    Available(f) && SourceOf(f).value in r.sequences &&
    Distance(r.sequences[SourceOf(f).value], f.header.value.sequence) >= TWO_TO_THE_63
  }

  function SequencesAfter(r: Reader, f: Frame): map<string, Word64>
    requires f.Sample?
  {
    if Available(f) then r.sequences[SourceOf(f).value := f.header.value.sequence] else map[]
  }

  /** A sample that is no duplicate becomes the latest one, and what it skipped is missing. */
  lemma AcceptedKeeps(w: Reader, previous: Option<seq<int>>, f: Frame)
    requires f.Sample?
    ensures var d := AcceptedFrom(w, previous, f);
            if IsDuplicate(w, f) then d == w.(pending := Diagnosed(w.pending, "duplicate"))
            else
              && d == w.(buttons := Some(f.buttons), source := SourceOf(f), samplesTotal := w.samplesTotal + 1,
                         sequenceAvailable := Available(f), sequences := SequencesAfter(w, f),
                         missingTotal := w.missingTotal + GapOf(w, f), pending := d.pending)
              && d.pending.samples == w.pending.samples + 1 && d.pending.missing == w.pending.missing + GapOf(w, f)
              && (d.pending.incomplete <==>
                    || w.pending.incomplete || !Available(f) || GapOf(w, f) > 0 || GoesBack(w, f)
                    || previous.None? || |previous.value| != |f.buttons|)
  {
    hide Taken, Distance, Bumped;
    var later := w.(sequences := SequencesAfter(w, f));
    if !Available(f) {
      TakenKeeps(later.(pending := Diagnosed(w.pending, "sequence_unavailable")), previous, f, false);
    } else if GoesBack(w, f) {
      TakenKeeps(later.(pending := Diagnosed(w.pending, "reset_or_reorder")), None, f, true);
    } else if GapOf(w, f) > 0 {
      TakenKeeps(WithGap(later, GapOf(w, f)), previous, f, true);
    } else {
      TakenKeeps(later, previous, f, true);
    }
  }
}
