/**
 The trial recorder: producers put rows in a bounded queue, one writer thread takes them out and writes them,
 and a final summary goes past the queue. Steps of the producers and of the writer interleave at will; a
 write, a flush or the closing of the file may fail at any time. Formatting a row is part of writing it.
 */
module Recorder {
  import opened Bytes
  import opened Wrappers

  datatype Row = Row(isSummary: bool, body: string)

  datatype Statistics = Statistics(submitted: nat, enqueued: nat, written: nat, dropped: nat, maxDepth: nat,
                                   capacity: nat, failed: bool)

  /** What stands in the file. The summary carries the counts of its moment. */
  datatype Entry = Line(row: Row) | Final(summary: Option<Row>, counts: Statistics)

  datatype Counters = Counters(capacity: nat, closing: bool, summary: Option<Row>, failed: bool, submitted: nat,
                               enqueued: nat, written: nat, dropped: nat, maxDepth: nat, rows: seq<Row>)

  datatype WriteResult = Accepted | Refused | Closed

  // ---------------------------------------------------------------------------------------
  // The critical sections
  // ---------------------------------------------------------------------------------------

  function NewCounters(capacity: nat): Counters {
    Counters(capacity, false, None, false, 0, 0, 0, 0, 0, [])
  }

  function Submitted(c: Counters, row: Row): (Counters, WriteResult) {
    if c.closing then (c, Closed)
    else
      var d := c.(submitted := c.submitted + 1);
      if row.isSummary then (d.(summary := Some(row)), Accepted)
      else if c.failed || |c.rows| >= c.capacity then (d.(dropped := c.dropped + 1), Refused)
      else (d.(rows := c.rows + [row], enqueued := c.enqueued + 1, maxDepth := Max(c.maxDepth, |c.rows| + 1)),
            Accepted)
  }

  function StatisticsOf(c: Counters): Statistics {
    Statistics(c.submitted, c.enqueued, c.written, c.dropped, c.maxDepth, c.capacity, c.failed)
  }

  /** The writer gives up on everything queued, and on the row it was writing. */
  function Failed(c: Counters, currentDropped: bool): Counters {
    c.(failed := true, dropped := c.dropped + |c.rows| + (if currentDropped then 1 else 0), rows := [])
  }

  /**
   A closed recorder takes nothing. An open one keeps every summary, as the one to end with; it refuses a row exactly
   when an error has happened or the queue is full, and puts any other at the end of the queue.
   */
  lemma SubmittedExactly(c: Counters, row: Row)
    ensures var (d, result) := Submitted(c, row);
            && (result == Closed <==> c.closing)
            && (result == Refused <==> !c.closing && !row.isSummary && (c.failed || |c.rows| >= c.capacity))
            && (result == Closed ==> d == c)
            && (result == Refused ==> d == c.(submitted := c.submitted + 1, dropped := c.dropped + 1))
            && (result == Accepted && row.isSummary ==> d == c.(submitted := c.submitted + 1, summary := Some(row)))
            && (result == Accepted && !row.isSummary ==>
                  && d.rows == c.rows + [row] && d.summary == c.summary && d.submitted == c.submitted + 1
                  && d.enqueued == c.enqueued + 1 && d.written == c.written && d.dropped == c.dropped
                  && d.maxDepth == (if |d.rows| > c.maxDepth then |d.rows| else c.maxDepth)
                  && d.capacity == c.capacity && d.failed == c.failed && !d.closing)
  {
  }

  class TrialRecorder {
    const capacity: nat
    var rows: seq<Row>
    var closing: bool
    var summary: Option<Row>
    var failed: bool
    var submitted: nat
    var enqueued: nat
    var written: nat
    var dropped: nat
    var maxDepth: nat

    function State(): Counters
      reads this
    {
      Counters(capacity, closing, summary, failed, submitted, enqueued, written, dropped, maxDepth, rows)
    }

    constructor (capacity: nat)
      requires capacity > 0
      ensures State() == NewCounters(capacity)
    {
      this.capacity := capacity;
      rows, closing, summary, failed := [], false, None, false;
      submitted, enqueued, written, dropped, maxDepth := 0, 0, 0, 0, 0;
    }

    method Write(row: Row) returns (result: WriteResult)
      modifies `rows, `summary, `submitted, `enqueued, `dropped, `maxDepth
      ensures (State(), result) == Submitted(old(State()), row)
    {
      if closing {
        return Closed;
      }
      submitted := submitted + 1;
      if row.isSummary {
        summary := Some(row);
        return Accepted;
      }
      if failed || |rows| >= capacity {
        dropped := dropped + 1;
        return Refused;
      }
      rows := rows + [row];
      enqueued := enqueued + 1;
      maxDepth := Max(maxDepth, |rows|);
      return Accepted;
    }

    method Fail(currentDropped: bool)
      modifies `rows, `failed, `dropped
      ensures State() == Failed(old(State()), currentDropped)
    {
      failed := true;
      dropped := dropped + |rows| + (if currentDropped then 1 else 0);
      rows := [];
    }

    /** The writer's wait is over: it takes the first row, or leaves when the recorder closes. */
    method Take() returns (row: Option<Row>)
      requires rows != [] || closing
      modifies `rows
      ensures match row
              case Some(first) =>
                old(rows) != [] && first == old(rows)[0] && State() == old(State()).(rows := old(rows)[1..])
              case None => old(rows) == [] && old(closing) && State() == old(State())
    {
      if rows == [] {
        return None;
      }
      row := Some(rows[0]);
      rows := rows[1..];
    }

    method CountWritten()
      modifies `written
      ensures State() == old(State()).(written := old(written) + 1)
    {
      written := written + 1;
    }

    method BeginClose()
      modifies `closing
      ensures State() == old(State()).(closing := true)
    {
      closing := true;
    }
  }

  // ---------------------------------------------------------------------------------------
  // Interleaved runs
  // ---------------------------------------------------------------------------------------

  /** Where the writer thread stands between its critical sections and its calls of the file. */
  datatype Place =
    | Waiting
    | Holding(row: Row)
    | Stored(row: Row)
    | RowFailed(row: Row)
    | Left
    | Counting(counts: Statistics)
    | SummaryStored
    | Flushing
    | EndFailed
    | ClosingFile
    | CloseFailed
    | Finished

  /**
   The recorder, the place of its writer, and what was handed to the buffered file, which is on the disk for sure
   only when the file was closed without an error; and a record of what happened: the rows enqueued, in
   order, and how many submissions were refused or were summaries.
   */
  datatype Trial = Trial(c: Counters, place: Place, file: seq<Entry>,
                         entered: seq<Row>, refused: nat, summaries: nat, lost: seq<Row>)

  datatype Step =
    | Submit(row: Row)
    | RequestClose
    | TakeRow
    | Leave
    | StoreRow(ok: bool)
    | CountRow
    | FailRow
    | EndOrSkip
    | StoreSummary(ok: bool)
    | CountSummary
    | Flush(ok: bool)
    | FailEnd
    | CloseFile(ok: bool)
    | FailClose

  predicate Enabled(t: Trial, step: Step) {
    match step
    case Submit(_) => true
    case RequestClose => true
    case TakeRow => t.place.Waiting? && t.c.rows != []
    case Leave => t.place.Waiting? && t.c.rows == [] && t.c.closing
    case StoreRow(_) => t.place.Holding?
    case CountRow => t.place.Stored?
    case FailRow => t.place.RowFailed?
    case EndOrSkip => t.place.Left?
    case StoreSummary(_) => t.place.Counting?
    case CountSummary => t.place.SummaryStored?
    case Flush(_) => t.place.Flushing?
    case FailEnd => t.place.EndFailed?
    case CloseFile(_) => t.place.ClosingFile?
    case FailClose => t.place.CloseFailed?
  }

  function AfterSubmit(t: Trial, row: Row): Trial {
    var (c, result) := Submitted(t.c, row);
    match result
    case Closed => t
    case Refused => t.(c := c, refused := t.refused + 1)
    case Accepted =>
      if row.isSummary then t.(c := c, summaries := t.summaries + 1)
      else t.(c := c, entered := t.entered + [row])
  }

  function Next(t: Trial, step: Step): Trial
    requires Enabled(t, step)
  {
    match step
    case Submit(row) => AfterSubmit(t, row)
    case RequestClose => t.(c := t.c.(closing := true))
    case TakeRow => t.(place := Holding(t.c.rows[0]), c := t.c.(rows := t.c.rows[1..]))
    case Leave => t.(place := Left)
    case StoreRow(ok) =>
      if ok then t.(place := Stored(t.place.row), file := t.file + [Line(t.place.row)])
      else t.(place := RowFailed(t.place.row))
    case CountRow => t.(place := Waiting, c := t.c.(written := t.c.written + 1))
    case FailRow => t.(place := Waiting, c := Failed(t.c, true), lost := t.lost + [t.place.row] + t.c.rows)
    case EndOrSkip =>
      if t.c.failed then t.(place := ClosingFile)
      else t.(place := Counting(StatisticsOf(t.c).(written := t.c.written + 1)))
    case StoreSummary(ok) =>
      if ok then t.(place := SummaryStored, file := t.file + [Final(t.c.summary, t.place.counts)])
      else t.(place := EndFailed)
    case CountSummary => t.(place := Flushing, c := t.c.(written := t.c.written + 1))
    case Flush(ok) => t.(place := if ok then ClosingFile else EndFailed)
    case FailEnd => t.(place := ClosingFile, c := Failed(t.c, false), lost := t.lost + t.c.rows)
    case CloseFile(ok) => t.(place := if ok then Finished else CloseFailed)
    case FailClose => t.(place := Finished, c := Failed(t.c, false), lost := t.lost + t.c.rows)
  }

  function NewTrial(capacity: nat): Trial {
    Trial(NewCounters(capacity), Waiting, [], [], 0, 0, [])
  }

  ghost predicate Legal(t: Trial, run: seq<Step>)
    decreases |run|
  {
    run == [] || (Enabled(t, run[0]) && Legal(Next(t, run[0]), run[1..]))
  }

  ghost function Reached(t: Trial, run: seq<Step>): Trial
    requires Legal(t, run)
    decreases |run|
  {
    if run == [] then t else Reached(Next(t, run[0]), run[1..])
  }

  // ---------------------------------------------------------------------------------------
  // The invariant
  // ---------------------------------------------------------------------------------------

  function Lines(rows: seq<Row>): (lines: seq<Entry>)
    ensures |lines| == |rows|
  {
    seq(|rows|, i requires 0 <= i < |rows| => Line(rows[i]))
  }

  /** The row that the writer has taken and not yet written. */
  function InFlight(p: Place): seq<Row> {
    if p.Holding? || p.RowFailed? then [p.row] else []
  }

  /** A row or summary is in the file and not yet counted. */
  function Uncounted(p: Place): nat {
    if p.Stored? || p.SummaryStored? then 1 else 0
  }

  /** The writer is past its loop. */
  predicate Ending(p: Place) {
    !(p.Waiting? || p.Holding? || p.Stored? || p.RowFailed?)
  }

  /** The summary is in the file. */
  predicate HasSummary(t: Trial) {
    t.file != [] && t.file[|t.file| - 1].Final?
  }

  /** The rows in the file. */
  function FileRows(t: Trial): nat {
    if HasSummary(t) then |t.file| - 1 else |t.file|
  }

  /** The counts that the summary carries in a trial without an error. */
  function FinalCounts(c: Counters): Statistics {
    Statistics(c.submitted, c.enqueued, c.enqueued + 1, c.dropped, c.maxDepth, c.capacity, false)
  }

  ghost predicate Counts(t: Trial) {
    && t.c.submitted == t.c.enqueued + t.refused + t.summaries
    && t.c.enqueued == |t.entered|
    && t.c.dropped == t.refused + |t.lost|
    && t.c.written + Uncounted(t.place) == |t.file|
    && |t.c.rows| <= t.c.maxDepth <= t.c.capacity
    && t.c.capacity > 0
  }

  /** Every row enqueued is in the file, in flight, queued, or lost, in this order. */
  ghost predicate Rows(t: Trial) {
    && FileRows(t) <= |t.entered|
    && t.file[..FileRows(t)] == Lines(t.entered[..FileRows(t)])
    && t.entered[FileRows(t)..] == t.lost + InFlight(t.place) + t.c.rows
    && (t.c.failed ==> t.c.rows == [] && InFlight(t.place) == [])
    && (!t.c.failed ==> t.lost == [])
  }

  ghost predicate Ends(t: Trial) {
    && (Ending(t.place) ==> t.c.closing && t.c.rows == [])
    && (!Ending(t.place) || t.place.Left? || t.place.Counting? ==> !HasSummary(t))
    && (t.place.Counting? || t.place.SummaryStored? || t.place.Flushing? ==> !t.c.failed)
    && (t.place.Counting? ==> t.place.counts == FinalCounts(t.c))
    && (t.place.SummaryStored? || t.place.Flushing? ==> HasSummary(t))
    && ((t.place.ClosingFile? || t.place.Finished?) && !t.c.failed ==> HasSummary(t))
    && (HasSummary(t) && !t.c.failed ==>
          t.file[|t.file| - 1] == Final(t.c.summary, FinalCounts(t.c)))
  }

  ghost predicate Inv(t: Trial) {
    Counts(t) && Rows(t) && Ends(t)
  }

  lemma NewInv(capacity: nat)
    requires capacity > 0
    ensures Inv(NewTrial(capacity))
  {
  }

  lemma LinesAppend(rows: seq<Row>, row: Row)
    ensures Lines(rows + [row]) == Lines(rows) + [Line(row)]
  {
  }

  lemma AppendSlices(rows: seq<Row>, row: Row, n: nat)
    requires n <= |rows|
    ensures (rows + [row])[..n] == rows[..n] && (rows + [row])[n..] == rows[n..] + [row]
  {
  }

  lemma Regrouped(lost: seq<Row>, flight: seq<Row>, queued: seq<Row>, row: Row)
    ensures lost + flight + queued + [row] == lost + flight + (queued + [row])
  {
  }

  lemma SubmitRows(t: Trial, row: Row)
    requires Rows(t) && |t.c.rows| <= t.c.capacity
    ensures Rows(AfterSubmit(t, row))
  {
    hide Lines, InFlight;
    AppendSlices(t.entered, row, FileRows(t));
    Regrouped(t.lost, InFlight(t.place), t.c.rows, row);
  }

  lemma SubmitInv(t: Trial, row: Row)
    requires Inv(t)
    ensures Inv(AfterSubmit(t, row))
  {
    hide Rows;
    SubmitRows(t, row);
  }

  lemma StoreRowInv(t: Trial)
    requires Inv(t) && t.place.Holding?
    ensures Inv(Next(t, StoreRow(true)))
  {
    var n := FileRows(t);
    var u := Next(t, StoreRow(true));
    assert t.entered[n..][0] == t.place.row && t.entered[n..][1..] == t.c.rows;
    assert t.entered[..n + 1] == t.entered[..n] + [t.place.row];
    LinesAppend(t.entered[..n], t.place.row);
    assert u.file[..n + 1] == t.file[..n] + [Line(t.place.row)];
  }

  lemma FailRowInv(t: Trial)
    requires Inv(t) && t.place.RowFailed?
    ensures Inv(Next(t, FailRow))
  {
    assert t.entered[FileRows(t)..] == t.lost + [t.place.row] + t.c.rows;
  }

  lemma TakeRowInv(t: Trial)
    requires Inv(t) && Enabled(t, TakeRow)
    ensures Inv(Next(t, TakeRow))
  {
    assert t.c.rows == [t.c.rows[0]] + t.c.rows[1..];
  }

  lemma StoreSummaryInv(t: Trial)
    requires Inv(t) && t.place.Counting?
    ensures Inv(Next(t, StoreSummary(true)))
  {
    var u := Next(t, StoreSummary(true));
    assert FileRows(t) == |t.file| && t.lost == [];
    assert u.file[..|t.file|] == t.file[..|t.file|];
  }

  lemma NothingMore(rows: seq<Row>)
    ensures rows + [] == rows
  {
  }

  lemma FailEndRows(t: Trial, step: Step)
    requires Inv(t) && Enabled(t, step) && (step.FailEnd? || step.FailClose?)
    ensures Rows(Next(t, step)) && t.c.rows == []
  {
    hide Lines, Counts;
    NothingMore(t.lost);
    assert t.lost + t.c.rows == t.lost;
  }

  lemma FailEndInv(t: Trial, step: Step)
    requires Inv(t) && Enabled(t, step) && (step.FailEnd? || step.FailClose?)
    ensures Inv(Next(t, step))
  {
    hide Rows;
    FailEndRows(t, step);
    NothingMore(t.lost);
  }

  /** Steps of the loop that move no row. */
  lemma LoopStepInv(t: Trial, step: Step)
    requires Inv(t) && Enabled(t, step)
    requires step.RequestClose? || step.Leave? || step == StoreRow(false) || step.CountRow?
    ensures Inv(Next(t, step))
  {
  }

  /** Steps after the loop that write nothing. */
  lemma EndStepInv(t: Trial, step: Step)
    requires Inv(t) && Enabled(t, step)
    requires step.EndOrSkip? || step == StoreSummary(false) || step.CountSummary? || step.Flush? || step.CloseFile?
    ensures Inv(Next(t, step))
  {
  }

  lemma StepInv(t: Trial, step: Step)
    requires Inv(t) && Enabled(t, step)
    ensures Inv(Next(t, step))
  {
    hide Inv;
    match step {
      case Submit(row) => SubmitInv(t, row);
      case TakeRow => TakeRowInv(t);
      case StoreRow(ok) => if ok { StoreRowInv(t); } else { LoopStepInv(t, step); }
      case FailRow => FailRowInv(t);
      case StoreSummary(ok) => if ok { StoreSummaryInv(t); } else { EndStepInv(t, step); }
      case FailEnd => FailEndInv(t, step);
      case FailClose => FailEndInv(t, step);
      case RequestClose => LoopStepInv(t, step);
      case Leave => LoopStepInv(t, step);
      case CountRow => LoopStepInv(t, step);
      case EndOrSkip => EndStepInv(t, step);
      case CountSummary => EndStepInv(t, step);
      case Flush(_) => EndStepInv(t, step);
      case CloseFile(_) => EndStepInv(t, step);
    }
  }

  lemma {:induction false} ReachedInv(t: Trial, run: seq<Step>)
    requires Inv(t) && Legal(t, run)
    ensures Inv(Reached(t, run))
    decreases |run|
  {
    if run != [] {
      StepInv(t, run[0]);
      hide Inv, Next;
      ReachedInv(Next(t, run[0]), run[1..]);
    }
  }

  // ---------------------------------------------------------------------------------------
  // What holds of every run
  // ---------------------------------------------------------------------------------------

  lemma {:induction false} CapacityKept(t: Trial, run: seq<Step>)
    requires Legal(t, run)
    ensures Reached(t, run).c.capacity == t.c.capacity
    decreases |run|
  {
    if run != [] {
      CapacityKept(Next(t, run[0]), run[1..]);
    }
  }

  /**
   Conservation, at every moment of every run: each submission was enqueued, refused or a summary; each row
   enqueued was handed to the file, is in the writer's hands, queued, or lost after an error; what the recorder
   counts as dropped is what it refused and what it lost; and the queue stays within its capacity.
   */
  lemma NothingVanishes(capacity: nat, run: seq<Step>)
    requires capacity > 0 && Legal(NewTrial(capacity), run)
    ensures var t := Reached(NewTrial(capacity), run);
            && t.c.submitted == t.c.enqueued + t.refused + t.summaries
            && t.c.enqueued == FileRows(t) + |InFlight(t.place)| + |t.c.rows| + |t.lost|
            && t.c.dropped == t.refused + |t.lost|
            && |t.c.rows| <= capacity && FileRows(t) <= |t.entered|
            && t.file[..FileRows(t)] == Lines(t.entered[..FileRows(t)])
  {
    NewInv(capacity);
    ReachedInv(NewTrial(capacity), run);
    var t := Reached(NewTrial(capacity), run);
    CapacityKept(NewTrial(capacity), run);
    assert |t.entered[FileRows(t)..]| == |t.lost + InFlight(t.place) + t.c.rows|;
    hide Reached, Legal, Ends;
  }

  /** The last summary that was submitted before closing began, if there was one; `latest` is what came before. */
  function LastSummary(closing: bool, latest: Option<Row>, run: seq<Step>): Option<Row>
    decreases |run|
  {
    if run == [] then latest
    else if run[0].RequestClose? then LastSummary(true, latest, run[1..])
    else if run[0].Submit? && run[0].row.isSummary && !closing then LastSummary(false, Some(run[0].row), run[1..])
    else LastSummary(closing, latest, run[1..])
  }

  lemma SummaryStep(t: Trial, step: Step)
    requires Enabled(t, step)
    ensures var u := Next(t, step);
            && u.c.closing == (t.c.closing || step.RequestClose?)
            && u.c.summary == if step.Submit? && step.row.isSummary && !t.c.closing then Some(step.row) else t.c.summary
  {
  }

  lemma {:induction false} SummaryKept(t: Trial, run: seq<Step>)
    requires Legal(t, run)
    ensures Reached(t, run).c.summary == LastSummary(t.c.closing, t.c.summary, run)
    decreases |run|
  {
    if run != [] {
      SummaryStep(t, run[0]);
      hide Next, Enabled;
      SummaryKept(Next(t, run[0]), run[1..]);
    }
  }

  /** `close` returns normally when it was asked for, the writer has finished, and nothing failed. */
  predicate ClosesNormally(t: Trial) {
    t.c.closing && t.place.Finished? && !t.c.failed
  }

  /** What the invariant says of a trial that has ended without an error. */
  lemma EndedTrial(t: Trial)
    requires Inv(t) && ClosesNormally(t)
    ensures t.file == Lines(t.entered) + [Final(t.c.summary, FinalCounts(t.c))]
    ensures t.c.written == t.c.enqueued + 1 && t.c.dropped == t.refused
  {
    hide Lines;
    var n := FileRows(t);
    assert HasSummary(t) && t.lost == [] && |t.entered[n..]| == 0;
    assert t.entered[..n] == t.entered;
    assert t.file == t.file[..n] + [t.file[n]];
  }

  /**
   When `close` returns normally, which takes a flush and a closing without an error, the file is all rows
   that were enqueued, in order, and then one summary: the last one submitted before closing began, or the
   default one when there was none, with counts that include itself.
   */
  lemma NormalCloseWritesEverything(capacity: nat, run: seq<Step>)
    requires capacity > 0 && Legal(NewTrial(capacity), run)
    requires ClosesNormally(Reached(NewTrial(capacity), run))
    ensures var t := Reached(NewTrial(capacity), run);
            && t.file == Lines(t.entered) + [Final(LastSummary(false, None, run), FinalCounts(t.c))]
            && t.c.written == t.c.enqueued + 1 && t.c.dropped == t.refused
  {
    hide Reached, Legal, Inv, LastSummary;
    SummaryKept(NewTrial(capacity), run);
    NewInv(capacity);
    ReachedInv(NewTrial(capacity), run);
    EndedTrial(Reached(NewTrial(capacity), run));
  }
}
