/** What each call of the server does, said without naming the functions that do it. */
module LeaseCommands {
  import opened BodyShape
  import opened Words
  import opened LeaseServer
  import opened LeaseRuns
  import opened LeaseReplies

  // ---------------------------------------------------------------------------------------
  // Admission
  // ---------------------------------------------------------------------------------------

  /** The joint is finite and within the limits of the robot. */
  predicate JointWithin(c: Command, j: nat)
    requires j < SLOTS
  {
    && c.q[j].Finite? && -10.0 <= c.q[j].value <= 10.0
    && c.dq[j].Finite? && -50.0 <= c.dq[j].value <= 50.0
    && c.tau[j].Finite? && -100.0 <= c.tau[j].value <= 100.0
    && c.kp[j].Finite? && 0.0 <= c.kp[j].value <= 600.0
    && c.kd[j].Finite? && 0.0 <= c.kd[j].value <= 60.0
  }

  /** Every slot that has a motor is within the limits. */
  ghost predicate WithinLimits(c: Command) {
    forall j: nat | j < SLOTS && j != ABSENT_SLOT :: JointWithin(c, j)
  }

  /**
   A command is taken exactly when a session runs or is held, the command is of that session and newer than the last
   one taken, it rests on an observation, and all its joints are within the limits. A held session is no obstacle, and
   since a watchdog only holds a session, neither is a command that comes late.
   */
  lemma CommandTakenExactly(s: Server, c: Command, now: nat)
    requires Inv(s)
    ensures Takes(s, c, now) <==>
            && s.status.phase in {RUNNING, TIMEOUT_HOLD}
            && c.session == s.status.generation
            && c.sequence > s.status.acceptedSequence
            && c.inputStateRealUs != 0
            && WithinLimits(c)
  {
    forall j: nat | j < SLOTS
      ensures JointWithin(c, j) <==> JointAdmissible(c, j)
    {
    }
  }

  /** The lease, its holder and the clocks and bounds of a server. */
  predicate SameHolder(s: Server, t: Server) {
    && s.status.clientId == t.status.clientId && s.status.requestId == t.status.requestId
    && s.status.leaseId == t.status.leaseId && s.status.generation == t.status.generation
    && s.generation == t.generation
  }

  predicate SameSettings(s: Server, t: Server) {
    && s.commandTimeoutNs == t.commandTimeoutNs && s.prepareTimeoutNs == t.prepareTimeoutNs
    && s.rejectOperation == t.rejectOperation
  }

  /** A taken command runs the session, is pending, and is the newest; it takes the place of a pending one. */
  lemma TakenOutcome(s: Server, c: Command, now: nat)
    requires Inv(s) && Takes(s, c, now)
    ensures var w, t := Watched(s, now), Submitted(s, c, now);
            && t.status.phase == RUNNING && t.hasPending && t.pending == c
            && t.status.acceptedSequence == c.sequence && t.status.lastValidNs == now && t.status.rejectCode == 0
            && t.overwritten == w.overwritten + (if w.hasPending then 1 else 0)
            && t.status.rejectCount == s.status.rejectCount && t.output == w.output
            && SameHolder(s, t) && SameSettings(s, t)
  {
  }

  /** A refused command is counted, and the session goes on as its watchdog left it. */
  lemma RefusedOutcome(s: Server, c: Command, now: nat)
    requires Inv(s) && !Takes(s, c, now)
    ensures var w, t := Watched(s, now), Submitted(s, c, now);
            && t.status.phase == w.status.phase && t.hasPending == w.hasPending && t.pending == w.pending
            && t.status.acceptedSequence == w.status.acceptedSequence && t.status.lastValidNs == w.status.lastValidNs
            && t.status.rejectCode == 1 && t.status.rejectCount == s.status.rejectCount + 1
            && t.overwritten == w.overwritten && t.output == w.output && t.preparedNs == w.preparedNs
            && SameHolder(w, t) && SameSettings(s, t)
  {
  }

  // ---------------------------------------------------------------------------------------
  // Requests
  // ---------------------------------------------------------------------------------------

  /** Everything but the status, the lease counter and the time of arming. */
  predicate SameBody(s: Server, t: Server) {
    && t.output == s.output && t.pending == s.pending && t.hasPending == s.hasPending && t.overwritten == s.overwritten
    && SameSettings(s, t) && t.status.rejectCount == s.status.rejectCount && t.status.rejectCode == s.status.rejectCode
    && t.status.acceptedSequence == s.status.acceptedSequence
  }

  /**
   Only three requests change what the watchdog left: the PREPARE that arms an idle server, the COMMIT that starts the
   session of an armed one, and the CANCEL of what is held. Each does this and nothing else.
   */
  lemma RequestOutcome(s: Server, r: Request, now: nat)
    requires Inv(s)
    ensures var w, (t, ack) := Watched(s, now), Requested(s, r, now);
            && ack.requestId == r.requestId && ack.operation == r.operation
            && (if ack.accepted && r.operation == PREPARE && w.status.phase == IDLE then
                  && t.status.phase == ARMED && t.preparedNs == now && t.generation == w.generation + 1
                  && t.status.leaseId == ack.leaseId == Lease(t.generation)
                  && t.status.clientId == r.clientId && t.status.requestId == r.requestId
                  && t.status.generation == 0 && SameBody(w, t)
                else if ack.accepted && r.operation == COMMIT && w.status.phase == ARMED then
                  && t.status.phase == RUNNING && t.status.lastValidNs == now && t.generation == w.generation + 1
                  && t.status.generation == t.generation && NamesHolder(t.status, r) && ack.leaseId == r.leaseId
                  && SameBody(w, t)
                else if ack.accepted && r.operation == CANCEL && w.status.phase != IDLE then
                  && t.status.phase == IDLE && !t.hasPending && t.generation == w.generation
                  && t.status.rejectCount == w.status.rejectCount && t.overwritten == w.overwritten
                  && t.output == w.output.(session := 0, sequence := 0, firstOutputUs := 0) && SameSettings(w, t)
                else t == w && (ack.accepted ==> ack.leaseId == w.status.leaseId))
  {
    WatchedInv(s, now);
  }

  // ---------------------------------------------------------------------------------------
  // What the joints show
  // ---------------------------------------------------------------------------------------

  /** A tick applies exactly the pending command of a session that runs and is not silent for too long. */
  lemma AppliesExactly(s: Server, now: nat)
    requires Inv(s)
    ensures Applies(s, now) <==>
            s.hasPending && SubU64(now, s.status.lastValidNs) < s.commandTimeoutNs
  {
  }

  predicate SameEvidence(a: Output, b: Output) {
    a.session == b.session && a.sequence == b.sequence && a.firstOutputUs == b.firstOutputUs
  }

  /**
   A tick that applies shows the pending command with the time it was given. Nothing else moves the joints: any other
   call keeps their positions, and keeps the evidence exactly as long as the session runs.
   */
  lemma OutputMovesByTicks(s: Server, e: Event)
    requires Inv(s)
    ensures var o, o' := s.output, Step(s, e).output;
            if AppliesNow(s, e) then
              && o'.session == s.pending.session && o'.sequence == s.pending.sequence && o'.firstOutputUs == e.wallUs
              && o'.q == s.pending.q
            else
              && o'.q == o.q
              && (SameEvidence(o', o) || (o'.session == 0 && o'.sequence == 0 && o'.firstOutputUs == 0))
              && (Watched(s, e.now).status.phase == Step(s, e).status.phase == RUNNING ==> SameEvidence(o', o))
  {
    WatchedInv(s, e.now);
  }
}
