/**
 The lease server as the object it is: every method updates the fields in place and is proved
 to reach exactly the state that `LeaseServer` describes.
 */
module ProtocolObject {
  import opened BodyShape
  import opened Words
  import opened LeaseServer
  import opened Wrappers

  class Protocol {
    var status: Status
    var output: Output
    var pending: Command
    var hasPending: bool
    var generation: nat
    var commandTimeoutNs: nat
    var prepareTimeoutNs: nat
    var preparedNs: nat
    var overwritten: nat
    var rejectOperation: int

    /** The whole state, as a value. */
    function State(): Server
      reads this
    {
      Server(status, output, pending, hasPending, generation, commandTimeoutNs, prepareTimeoutNs,
             preparedNs, overwritten, rejectOperation)
    }

    constructor (seed: nat, streamTimeout: nat, prepareTimeout: nat, rejectOperation: int)
      requires 0 < seed <= MAX_UINT64 && streamTimeout != 0 && prepareTimeout != 0
      ensures State() == Started(seed, streamTimeout, prepareTimeout, rejectOperation)
    {
      status, output, pending, hasPending := DEFAULT_STATUS, DEFAULT_OUTPUT, DEFAULT_COMMAND, false;
      generation, commandTimeoutNs, prepareTimeoutNs := seed, streamTimeout, prepareTimeout;
      preparedNs, overwritten, this.rejectOperation := 0, 0, rejectOperation;
    }

    /** A server with these settings, or none: the counter and the timeouts must not be zero. */
    static method Create(seed: nat, streamTimeout: nat, prepareTimeout: nat, rejectOperation: int)
      returns (made: Option<Protocol>)
      requires seed <= MAX_UINT64
      ensures made.None? <==> seed == 0 || streamTimeout == 0 || prepareTimeout == 0
      ensures made.Some? ==> fresh(made.value)
                             && made.value.State() == Started(seed, streamTimeout, prepareTimeout, rejectOperation)
    {
      if seed == 0 || streamTimeout == 0 || prepareTimeout == 0 {
        return None;
      }
      var p := new Protocol(seed, streamTimeout, prepareTimeout, rejectOperation);
      made := Some(p);
    }

    /** The copy a request is first tried on. */
    constructor Copy(p: Protocol)
      ensures State() == p.State()
    {
      status, output, pending, hasPending := p.status, p.output, p.pending, p.hasPending;
      generation, commandTimeoutNs, prepareTimeoutNs := p.generation, p.commandTimeoutNs, p.prepareTimeoutNs;
      preparedNs, overwritten, rejectOperation := p.preparedNs, p.overwritten, p.rejectOperation;
    }

    method InvalidateApplied()
      modifies `output
      ensures output == WithoutEvidence(old(output))
    {
      output := output.(session := 0, sequence := 0, firstOutputUs := 0);
    }

    method Clear()
      modifies this
      ensures State() == Cleared(old(State()))
    {
      var seq_ := status.statusSeq + 1;
      var rejects := status.rejectCount;
      status := DEFAULT_STATUS;
      status := status.(statusSeq := seq_);
      status := status.(rejectCount := rejects);
      hasPending := false;
      preparedNs := 0;
      InvalidateApplied();
    }

    method Watchdog(now: nat)
      modifies this
      ensures State() == Watched(old(State()), now)
    {
      if status.phase == ARMED && SubU64(now, preparedNs) >= prepareTimeoutNs {
        Clear();
      }
      if status.phase == RUNNING && SubU64(now, status.lastValidNs) >= commandTimeoutNs {
        status := status.(phase := TIMEOUT_HOLD);
        status := status.(statusSeq := status.statusSeq + 1);
        hasPending := false;
        InvalidateApplied();
      }
    }

    method RequestControl(r: Request, now: nat) returns (ack: Ack)
      modifies this
      ensures (State(), ack) == Requested(old(State()), r, now)
    {
      Watchdog(now);
      if r.version != 2 {
        return Reply(State(), r, 1001);
      }
      if r.requestId == "" || r.clientId == "" || |r.requestId| > 256 || |r.clientId| > 256 ||
         r.operation < 1 || r.operation > 3 {
        return Reply(State(), r, 1002);
      }
      if r.action != "EXTERNAL" {
        return Reply(State(), r, 1003);
      }
      if r.operation == rejectOperation {
        return Reply(State(), r, 1003);
      }
      if r.operation == 1 {
        if status.clientId != "" {
          if r.clientId != status.clientId {
            return Reply(State(), r, 1008);
          }
          if r.requestId != status.requestId {
            return Reply(State(), r, 1004);
          }
          return Reply(State(), r, 0);
        }
        if generation == MAX_UINT64 {
          return Reply(State(), r, 1009);
        }
        status := status.(requestId := r.requestId);
        status := status.(clientId := r.clientId);
        generation := generation + 1;
        status := status.(leaseId := LEASE_PREFIX + Decimal(generation));
        status := status.(phase := ARMED);
        status := status.(statusSeq := status.statusSeq + 1);
        preparedNs := now;
        return Reply(State(), r, 0);
      }
      if r.operation == 3 && status.clientId == "" {
        return Reply(State(), r, 0);
      }
      if status.clientId != r.clientId {
        return Reply(State(), r, 1005);
      }
      if status.requestId != r.requestId {
        return Reply(State(), r, 1004);
      }
      if r.leaseId != status.leaseId {
        return Reply(State(), r, 1006);
      }
      if r.operation == 3 {
        ack := Reply(State(), r, 0);
        Clear();
        return;
      }
      if status.phase == RUNNING || status.phase == TIMEOUT_HOLD {
        return Reply(State(), r, 0);
      }
      if status.phase != ARMED {
        return Reply(State(), r, 1007);
      }
      if generation == MAX_UINT64 {
        return Reply(State(), r, 1009);
      }
      generation := generation + 1;
      status := status.(generation := generation);
      status := status.(phase := RUNNING);
      status := status.(lastValidNs := now);
      status := status.(statusSeq := status.statusSeq + 1);
      return Reply(State(), r, 0);
    }

    method Accept(cmd: Command, now: nat) returns (accepted: bool)
      modifies this
      ensures accepted == Takes(old(State()), cmd, now)
      ensures State() == Submitted(old(State()), cmd, now)
    {
      Watchdog(now);
      var valid := (status.phase == RUNNING || status.phase == TIMEOUT_HOLD) &&
                   cmd.session == status.generation &&
                   cmd.sequence > status.acceptedSequence && cmd.sequence != 0 &&
                   cmd.inputStateRealUs != 0;
      var j: nat := 0;
      while j < SLOTS && valid
        invariant j <= SLOTS
        invariant valid <==> IdentityAdmissible(State(), cmd) &&
                             forall k: nat | k < j && k != ABSENT_SLOT :: JointAdmissible(cmd, k)
      {
        if j != ABSENT_SLOT {
          valid := JointAdmissible(cmd, j);
        }
        j := j + 1;
      }
      if !valid {
        status := status.(rejectCount := status.rejectCount + 1);
        status := status.(rejectCode := 1);
        status := status.(statusSeq := status.statusSeq + 1);
        return false;
      }
      if hasPending {
        overwritten := overwritten + 1;
      }
      pending := cmd;
      hasPending := true;
      status := status.(acceptedSequence := cmd.sequence);
      status := status.(lastValidNs := now);
      status := status.(phase := RUNNING);
      status := status.(rejectCode := 0);
      status := status.(statusSeq := status.statusSeq + 1);
      return true;
    }

    method Tick(now: nat, wallUs: nat) returns (applied: bool)
      modifies this
      ensures applied == Applies(old(State()), now)
      ensures State() == Ticked(old(State()), now, wallUs)
    {
      Watchdog(now);
      if !hasPending || status.phase != RUNNING {
        return false;
      }
      output := output.(session := pending.session);
      output := output.(sequence := pending.sequence);
      output := output.(q := pending.q);
      output := output.(firstOutputUs := wallUs);
      hasPending := false;
      return true;
    }
  }
}
