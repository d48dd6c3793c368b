/**
 The mock around the lease server: its callbacks take the lock, read the clock, and count. Decoding,
 publishing and the clocks are inputs.
 */
module Mock {
  import opened Words
  import opened Wrappers
  import opened LeaseServer
  import opened LeaseRuns
  import opened LeaseCommands
  import opened ProtocolObject
  import opened Schedulers

  /** The counters the mock reports, and the tick its apply loop waits for. */
  datatype Tally = Tally(accepted: nat, rejected: nat, applied: nat, controls: nat, parseErrors: nat,
                         pendingTickNs: nat, endpointFailed: bool)

  /** A command frame is counted by what became of it; an overflowing tick counts as a parse error. */
  function CommandTally(t: Tally, decoded: bool, taken: bool, tick: Result<nat, TickError>): Tally {
    if !decoded then t.(parseErrors := t.parseErrors + 1)
    else if !taken then t.(rejected := t.rejected + 1)
    else match tick
      case Ok(due) => t.(accepted := t.accepted + 1, pendingTickNs := due)
      case Err(_) => t.(parseErrors := t.parseErrors + 1)
  }

  function RequestTally(t: Tally, decoded: bool, sent: bool): Tally {
    if !decoded then t.(parseErrors := t.parseErrors + 1)
    else t.(controls := t.controls + 1, endpointFailed := t.endpointFailed || !sent)
  }

  /**
   Every frame moves exactly one counter: a command that is taken and has a tick is accepted and planned for it, one
   that is not taken is rejected, and one that does not decode or has no tick is an error. The plan changes only with
   an acceptance.
   */
  lemma CommandCounted(t: Tally, decoded: bool, taken: bool, tick: Result<nat, TickError>)
    ensures var u := CommandTally(t, decoded, taken, tick);
            && u.accepted == t.accepted + (if decoded && taken && tick.Ok? then 1 else 0)
            && u.rejected == t.rejected + (if decoded && !taken then 1 else 0)
            && u.parseErrors == t.parseErrors + (if !decoded || (taken && tick.Err?) then 1 else 0)
            && u.pendingTickNs == (if decoded && taken && tick.Ok? then tick.value else t.pendingTickNs)
            && u.applied == t.applied && u.controls == t.controls && u.endpointFailed == t.endpointFailed
  {
  }

  /** A request that decodes is counted, and its acknowledgement failing to go out is remembered for good. */
  lemma RequestCounted(t: Tally, decoded: bool, sent: bool)
    ensures var u := RequestTally(t, decoded, sent);
            && u.controls == t.controls + (if decoded then 1 else 0)
            && u.parseErrors == t.parseErrors + (if decoded then 0 else 1)
            && (u.endpointFailed <==> t.endpointFailed || (decoded && !sent))
            && u.accepted == t.accepted && u.rejected == t.rejected && u.applied == t.applied
            && u.pendingTickNs == t.pendingTickNs
  {
  }

  predicate Due(t: Tally, wall: nat) {
    t.pendingTickNs != 0 && wall >= t.pendingTickNs
  }

  lemma SubmittedInv(s: Server, c: Command, now: nat)
    requires Inv(s)
    ensures Inv(Submitted(s, c, now))
    ensures Account(s) + (if Takes(s, c, now) then 1 else 0) ==
            Account(Submitted(s, c, now)) + Discards(s, Submit(c, now))
    ensures !Takes(s, c, now) && Submitted(s, c, now).hasPending ==> s.hasPending
  {
    StepInv(s, Submit(c, now));
    StepKeepsCount(s, Submit(c, now));
  }

  /** A request never makes a command pending, and leaves a pending one as it was. */
  lemma RequestedInv(s: Server, r: Request, now: nat)
    requires Inv(s)
    ensures Inv(Requested(s, r, now).0)
    ensures Account(s) == Account(Requested(s, r, now).0) + Discards(s, Control(r, now))
    ensures Requested(s, r, now).0.hasPending ==> s.hasPending && Requested(s, r, now).0.pending == s.pending
  {
    StepInv(s, Control(r, now));
    StepKeepsCount(s, Control(r, now));
    assert Watched(s, now).hasPending ==> s.hasPending;
  }

  class Context {
    var protocol: Protocol
    var accepted: nat
    var rejected: nat
    var applied: nat
    var controls: nat
    var parseErrors: nat
    var pendingTickNs: nat
    var endpointFailed: bool
    const applyPeriodNs: nat

    // The wall clock at the last acceptance and whether its tick was planned, the commands that a
    // watchdog or a CANCEL dropped, and the acceptances whose tick overflowed.
    ghost var acceptedWallNs: nat
    ghost var scheduled: bool
    ghost var discarded: nat
    ghost var unscheduled: nat

    function Counters(): Tally
      reads this
    {
      Tally(accepted, rejected, applied, controls, parseErrors, pendingTickNs, endpointFailed)
    }

    ghost predicate Valid()
      reads this, protocol
    {
      && Inv(protocol.State())
      && 0 < applyPeriodNs <= MAX_UINT64
      && acceptedWallNs <= MAX_UINT64
      && accepted + unscheduled == applied + discarded + Account(protocol.State())
      && (scheduled && protocol.hasPending ==> NextApplyTick(acceptedWallNs, applyPeriodNs) == Ok(pendingTickNs))
    }

    constructor (seed: nat, timeout: nat, prepare: nat, reject: int, periodNs: nat)
      requires Startable(seed, timeout, prepare) && 0 < periodNs <= MAX_UINT64
      ensures Valid() && fresh(protocol)
      ensures protocol.State() == Started(seed, timeout, prepare, reject)
      ensures Counters() == Tally(0, 0, 0, 0, 0, 0, false) && applyPeriodNs == periodNs
    {
      protocol := new Protocol(seed, timeout, prepare, reject);
      accepted, rejected, applied, controls, parseErrors := 0, 0, 0, 0, 0;
      applyPeriodNs, pendingTickNs, endpointFailed := periodNs, 0, false;
      acceptedWallNs, scheduled, discarded, unscheduled := 0, false, 0, 0;
      new;
      StartedInv(seed, timeout, prepare, reject);
    }

    /** A command frame; `None` when it does not decode. */
    method ReceiveCommand(cmd: Option<Command>, mono: nat, wall: nat)
      requires Valid() && wall <= MAX_UINT64
      modifies this, protocol
      ensures Valid() && protocol == old(protocol)
      ensures protocol.State() ==
              if cmd.None? then old(protocol.State()) else Submitted(old(protocol.State()), cmd.value, mono)
      ensures Counters() == CommandTally(old(Counters()), cmd.Some?,
                                         cmd.Some? && Takes(old(protocol.State()), cmd.value, mono),
                                         NextApplyTick(wall, applyPeriodNs))
    {
      if cmd.None? {
        parseErrors := parseErrors + 1;
      } else {
        ghost var before, e := protocol.State(), Submit(cmd.value, mono);
        SubmittedInv(before, cmd.value, mono);
        var valid := protocol.Accept(cmd.value, mono);
        discarded := discarded + Discards(before, e);
        Count(valid, wall);
      }
    }

    /** Counts an accepted or rejected command, and plans the tick of an accepted one. */
    method Count(valid: bool, wall: nat)
      requires wall <= MAX_UINT64 && 0 < applyPeriodNs <= MAX_UINT64
      modifies this`accepted, this`rejected, this`parseErrors, this`pendingTickNs, this`acceptedWallNs,
               this`scheduled, this`unscheduled
      ensures Counters() == CommandTally(old(Counters()), true, valid, NextApplyTick(wall, applyPeriodNs))
      ensures accepted + unscheduled == old(accepted) + old(unscheduled) + (if valid then 1 else 0)
      ensures acceptedWallNs == (if valid then wall else old(acceptedWallNs))
      ensures scheduled == (if valid then NextApplyTick(wall, applyPeriodNs).Ok? else old(scheduled))
    {
      if valid {
        var tick := NextApplyTick(wall, applyPeriodNs);
        acceptedWallNs, scheduled := wall, tick.Ok?;
        if tick.Ok? {
          pendingTickNs := tick.value;
          accepted := accepted + 1;
        } else {
          unscheduled := unscheduled + 1;
          parseErrors := parseErrors + 1;
        }
      } else {
        rejected := rejected + 1;
      }
    }

    /**
     A request frame; `None` when it does not decode. The request is tried on a copy of the server, and
     the copy becomes the server only when its acknowledgement was published.
     */
    method ReceiveRequest(request: Option<Request>, mono: nat, sent: bool) returns (reply: Option<Ack>)
      requires Valid()
      modifies this
      ensures Valid() && (protocol == old(protocol) || fresh(protocol))
      ensures protocol.State() == if request.Some? && sent then Requested(old(protocol.State()), request.value, mono).0
                                  else old(protocol.State())
      ensures reply == if request.Some? then Some(Requested(old(protocol.State()), request.value, mono).1) else None
      ensures Counters() == RequestTally(old(Counters()), request.Some?, sent)
    {
      hide Inv, Requested, Discards, Account, NextApplyTick;
      if request.None? {
        parseErrors := parseErrors + 1;
        reply := None;
      } else {
        ghost var before, e := protocol.State(), Control(request.value, mono);
        RequestedInv(before, request.value, mono);
        var proposed := new Protocol.Copy(protocol);
        var ack := proposed.RequestControl(request.value, mono);
        if sent {
          protocol := proposed;
          discarded := discarded + Discards(before, e);
        } else {
          endpointFailed := true;
        }
        controls := controls + 1;
        reply := Some(ack);
      }
    }

    /** The apply step of the main loop. */
    method ApplyDue(wall: nat, mono: nat)
      requires Valid()
      modifies this, protocol
      ensures Valid() && protocol == old(protocol)
      ensures protocol.State() ==
              if Due(old(Counters()), wall) then Ticked(old(protocol.State()), mono, old(pendingTickNs) / 1000)
              else old(protocol.State())
      ensures Counters() ==
              if Due(old(Counters()), wall) && Applies(old(protocol.State()), mono)
              then old(Counters()).(applied := old(applied) + 1, pendingTickNs := 0) else old(Counters())
      // A command is applied at the tick planned when it was accepted, and never earlier.
      ensures applied != old(applied) && old(scheduled) ==>
                var tick := NextApplyTick(old(acceptedWallNs), applyPeriodNs);
                && tick.Ok? && old(acceptedWallNs) <= tick.value <= wall
                && protocol.output.firstOutputUs == tick.value / 1000
      // At or after the planned tick a pending command that has not timed out is applied.
      ensures old(protocol.hasPending) && 0 != old(pendingTickNs) <= wall &&
              SubU64(mono, old(protocol.status.lastValidNs)) < old(protocol.commandTimeoutNs) ==>
                && applied == old(applied) + 1 && !protocol.hasPending
                && protocol.output.q == old(protocol.pending.q)
                && protocol.output.session == old(protocol.pending.session)
                && protocol.output.sequence == old(protocol.pending.sequence)
    {
      var tick := pendingTickNs;
      if tick != 0 && wall >= tick {
        ghost var before, e := protocol.State(), Apply(mono, tick / 1000);
        StepInv(before, e);
        StepKeepsCount(before, e);
        AppliesExactly(before, mono);
        OutputMovesByTicks(before, e);
        var ticked := protocol.Tick(mono, tick / 1000);
        discarded := discarded + Discards(before, e);
        if ticked {
          TickShowsPending(before, mono, tick / 1000);
          applied := applied + 1;
          pendingTickNs := 0;
        }
      }
    }

    /** The status step of the main loop: a watchdog, then a snapshot. */
    method SnapshotStatus(mono: nat) returns (status: Status)
      requires Valid()
      modifies this, protocol
      ensures Valid() && protocol == old(protocol)
      ensures protocol.State() == Watched(old(protocol.State()), mono)
      ensures status == protocol.status && Counters() == old(Counters())
    {
      ghost var before := protocol.State();
      StepInv(before, Poll(mono));
      StepKeepsCount(before, Poll(mono));
      protocol.Watchdog(mono);
      discarded := discarded + Discards(before, Poll(mono));
      status := protocol.status;
    }
  }
}
