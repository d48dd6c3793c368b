/**
 The three timers: the grid an accepted command is applied on, the deadlines of the mock's main
 loop, and the 50 Hz loop of the velocity example.
 */
module Schedulers {
  import opened Words
  import opened Wrappers

  datatype TickError = ZeroPeriod | Overflow

  // ---------------------------------------------------------------------------------------
  // Arithmetic of a grid
  // ---------------------------------------------------------------------------------------

  lemma MultiplyKeepsOrder(i: int, j: int, k: int)
    requires i <= j && k >= 0
    ensures i * k <= j * k
  {
    assert j * k - i * k == (j - i) * k;
  }

  lemma MultipleWithin(a: int, b: int, period: int)
    requires period > 0 && a % period == 0 && b % period == 0 && a < b
    ensures a + period <= b
  {
    var i, j := a / period, b / period;
    assert a == i * period && b == j * period;
    if j <= i {
      MultiplyKeepsOrder(j, i, period);
    } else {
      MultiplyKeepsOrder(i + 1, j, period);
      assert (i + 1) * period == i * period + period;
    }
  }

  lemma RemainderUnique(q: int, r: int, period: int)
    requires 0 <= r < period
    ensures (q * period + r) % period == r
    ensures (q * period + r) / period == q
  {
    var n := q * period + r;
    var q', r' := n / period, n % period;
    assert n == q' * period + r' && 0 <= r' < period;
    assert (q' - q) * period == r - r' by {
      assert (q' - q) * period == q' * period - q * period;
    }
    if q' > q {
      MultiplyKeepsOrder(1, q' - q, period);
    } else if q' < q {
      MultiplyKeepsOrder(q' - q, -1, period);
    }
  }

  lemma MultipleRemainder(a: int, k: int, period: int)
    requires period > 0
    ensures (a + k * period) % period == a % period
  {
    var q, r := a / period, a % period;
    assert a + k * period == (q + k) * period + r by {
      assert a == q * period + r;
      assert (q + k) * period == q * period + k * period;
    }
    RemainderUnique(q + k, r, period);
  }

  // ---------------------------------------------------------------------------------------
  // NextApplyTick
  // ---------------------------------------------------------------------------------------

  /** The apply tick of a command accepted at `wall`, in uint64 arithmetic that never wraps. */
  function NextApplyTick(wall: nat, period: nat): (tick: Result<nat, TickError>)
    requires wall <= MAX_UINT64 && period <= MAX_UINT64
    ensures tick == Err(ZeroPeriod) <==> period == 0
  {
    if period == 0 then Err(ZeroPeriod)
    else
      var remainder := wall % period;
      var delta := if remainder != 0 then period - remainder else 0;
      if wall > MAX_UINT64 - delta then Err(Overflow) else Ok(wall + delta)
  }

  ghost predicate LeastMultiple(tick: nat, wall: nat, period: nat)
    requires period > 0
  {
    && tick % period == 0 && wall <= tick
    && forall m: nat | m % period == 0 && wall <= m :: tick <= m
  }

  /**
   The tick is the least multiple of the period at or after the acceptance; the call overflows
   exactly when that multiple does not fit 64 bits.
   */
  lemma NextApplyTickIsLeast(wall: nat, period: nat)
    requires wall <= MAX_UINT64 && 0 < period <= MAX_UINT64
    ensures NextApplyTick(wall, period).Ok? ==> LeastMultiple(NextApplyTick(wall, period).value, wall, period)
    ensures NextApplyTick(wall, period).Err? <==> forall m: nat | m % period == 0 && wall <= m :: MAX_UINT64 < m
  {
    var remainder := wall % period;
    var delta := if remainder != 0 then period - remainder else 0;
    var tick := wall + delta;
    assert tick % period == 0 by {
      if remainder != 0 {
        assert tick == (wall / period) * period + period;
        MultipleRemainder(0, wall / period + 1, period);
        assert (wall / period + 1) * period == (wall / period) * period + period;
      }
    }
    forall m: nat | m % period == 0 && wall <= m
      ensures tick <= m
    {
      if m < tick {
        MultipleWithin(m, tick, period);
      }
    }
  }

  // ---------------------------------------------------------------------------------------
  // Advance
  // ---------------------------------------------------------------------------------------

  /** `advanced` is the first deadline after `now` on the grid of `next`. */
  predicate OnGridPast(next: nat, period: nat, now: nat, advanced: nat)
    requires period > 0
  {
    now < advanced <= now + period && (advanced - next) % period == 0
  }

  /** A window of one period holds one deadline of a grid. */
  lemma OneInWindow(next: nat, period: nat, now: nat, a: nat, b: nat)
    requires period > 0 && next <= now
    requires OnGridPast(next, period, now, a) && OnGridPast(next, period, now, b)
    ensures a == b
  {
    if a < b {
      MultipleWithin(a - next, b - next, period);
    } else if b < a {
      MultipleWithin(b - next, a - next, period);
    }
  }

  /**
   Moves a deadline that has come to the first one after `now` on its grid. The sum wraps at 64
   bits: the deadline is right exactly when that first one still fits.
   */
  method Advance(next: nat, period: nat, now: nat) returns (advanced: nat)
    requires 0 < period < TWO_TO_THE_64
    requires next < TWO_TO_THE_64 && now < TWO_TO_THE_64
    ensures next <= now ==>
              (OnGridPast(next, period, now, advanced)
               <==> exists first: nat :: first < TWO_TO_THE_64 && OnGridPast(next, period, now, first))
    ensures next <= now && now + period < TWO_TO_THE_64 ==> OnGridPast(next, period, now, advanced)
  {
    var late := SubU64(now, next);
    advanced := (next + (late / period + 1) * period) % TWO_TO_THE_64;
    if next <= now {
      ghost var sum := next + (late / period + 1) * period;
      assert late == (late / period) * period + late % period;
      assert (late / period + 1) * period == (late / period) * period + period;
      MultipleRemainder(0, late / period + 1, period);
      assert OnGridPast(next, period, now, sum);
      forall first: nat | first < TWO_TO_THE_64 && OnGridPast(next, period, now, first)
        ensures first == sum
      {
        OneInWindow(next, period, now, first, sum);
      }
    }
  }

  // ---------------------------------------------------------------------------------------
  // The velocity loop
  // ---------------------------------------------------------------------------------------

  /** When a cycle of the loop woke up, and when it read the clock at its end. */
  datatype Cycle = Cycle(woke: nat, finished: nat)

  /**
   One cycle between its deadline and the next one: it wakes at its deadline or later. A cycle that ends in
   time keeps the grid; after an overrun the next deadline is a whole period away from the end.
   */
  predicate Kept(deadline: nat, cycle: Cycle, next: nat, period: nat) {
    && deadline <= cycle.woke <= cycle.finished < next
    && deadline + period <= next
    && (cycle.finished < deadline + period ==> next == deadline + period)
    && (deadline + period <= cycle.finished ==> next == cycle.finished + period)
  }

  ghost predicate Paced(cycles: seq<Cycle>, deadlines: seq<nat>, period: nat) {
    && |deadlines| == |cycles| + 1
    && forall k | 0 <= k < |cycles| :: Kept(deadlines[k], cycles[k], deadlines[k + 1], period)
  }

  /** Cycle `k` woke `delays[k]` after its deadline and ran for `works[k]`. */
  ghost predicate Ran(cycles: seq<Cycle>, deadlines: seq<nat>, delays: seq<nat>, works: seq<nat>)
    requires |deadlines| == |cycles| + 1 && |cycles| <= |delays| && |cycles| <= |works|
  {
    forall k | 0 <= k < |cycles| ::
      cycles[k].woke == deadlines[k] + delays[k] && cycles[k].finished == cycles[k].woke + works[k]
  }

  /** The deadline logic of the loop, with the delays of waking up and the work of a cycle as inputs. */
  method RunCycles(started: nat, period: nat, delays: seq<nat>, works: seq<nat>)
      returns (cycles: seq<Cycle>, deadlines: seq<nat>)
    requires period > 0 && |delays| == |works|
    ensures |cycles| == |works| && |deadlines| == |cycles| + 1 && deadlines[0] == started
    ensures Paced(cycles, deadlines, period)
    ensures Ran(cycles, deadlines, delays, works)
  {
    var nextCycle := started;
    cycles, deadlines := [], [started];
    while |cycles| < |works|
      invariant |cycles| <= |works| && |deadlines| == |cycles| + 1
      invariant nextCycle == deadlines[|cycles|] && deadlines[0] == started
      invariant Paced(cycles, deadlines, period)
      invariant Ran(cycles, deadlines, delays, works)
    {
      var k := |cycles|;
      var woke := nextCycle + delays[k];
      var clock := woke + works[k];
      var nextDeadline := nextCycle + period;
      nextCycle := if nextDeadline > clock then nextDeadline else clock + period;
      cycles, deadlines := cycles + [Cycle(woke, clock)], deadlines + [nextCycle];
      assert Kept(deadlines[k], cycles[k], deadlines[k + 1], period);
    }
  }

  lemma {:induction false} DeadlinesApart(cycles: seq<Cycle>, deadlines: seq<nat>, period: nat, i: nat, j: nat)
    requires Paced(cycles, deadlines, period)
    requires i <= j < |deadlines|
    ensures deadlines[i] + (j - i) * period <= deadlines[j]
    decreases j - i
  {
    if i < j {
      DeadlinesApart(cycles, deadlines, period, i, j - 1);
      assert Kept(deadlines[j - 1], cycles[j - 1], deadlines[j], period);
      assert (j - i) * period == (j - 1 - i) * period + period;
    }
  }

  /**
   There is no burst after an overrun: a window of length `window` that holds the starts of the
   cycles `i` to `j` holds fewer than `window / period + 2` of them.
   */
  lemma NoCatchUpBurst(cycles: seq<Cycle>, deadlines: seq<nat>, period: nat, window: nat, i: nat, j: nat)
    requires period > 0 && Paced(cycles, deadlines, period)
    requires i <= j < |cycles| && cycles[j].woke < cycles[i].woke + window
    ensures (j - i + 1) * period < window + 2 * period
  {
    assert Kept(deadlines[i], cycles[i], deadlines[i + 1], period);
    assert Kept(deadlines[j], cycles[j], deadlines[j + 1], period);
    if i < j {
      DeadlinesApart(cycles, deadlines, period, i + 1, j);
      assert (j - i + 1) * period == (j - (i + 1)) * period + 2 * period;
    }
  }
}
