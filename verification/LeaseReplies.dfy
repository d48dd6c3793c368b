/** What the server's answer to a request means. */
module LeaseReplies {
  import opened Words
  import opened LeaseServer
  import opened LeaseRuns

  /** The request names the holder, its request and its lease. */
  predicate NamesHolder(t: Status, r: Request) {
    t.clientId == r.clientId && t.requestId == r.requestId && t.leaseId == r.leaseId
  }

  /** The request is one the server looks into: a version, an identity and an action it serves. */
  predicate Served(s: Server, r: Request) {
    r.version == 2 && WellIdentified(r) && r.action == "EXTERNAL" && r.operation != s.rejectOperation
  }

  /** The request is one the server serves, and the state of the lease allows it. */
  predicate Grantable(s: Server, r: Request) {
    && Served(s, r)
    && if s.status.phase == IDLE then r.operation == CANCEL || (r.operation == PREPARE && s.generation < MAX_UINT64)
       else if r.operation == PREPARE then r.clientId == s.status.clientId && r.requestId == s.status.requestId
       else NamesHolder(s.status, r) && (r.operation == COMMIT && s.status.phase == ARMED ==> s.generation < MAX_UINT64)
  }

  /** A request is accepted exactly when it can be granted; a refusal leaves the server as its watchdog left it. */
  lemma AcceptedIffGrantable(s: Server, r: Request, now: nat)
    requires Inv(s)
    ensures var (after, ack) := Requested(s, r, now);
            && (ack.accepted <==> Grantable(Watched(s, now), r))
            && (ack.accepted <==> ack.error == 0)
            && (!ack.accepted ==> after == Watched(s, now) && ack.leaseId == "")
  {
    WatchedInv(s, now);
  }

  /**
   What an accepted request brings about: PREPARE leaves its sender holding a lease that the answer names,
   COMMIT leaves it in a session under its own lease, and CANCEL leaves nobody holding anything.
   */
  lemma AcceptedOutcome(s: Server, r: Request, now: nat)
    requires Inv(s) && Requested(s, r, now).1.accepted
    ensures var (after, ack) := Requested(s, r, now);
            match r.operation
            case 1 => after.status.phase != IDLE && ack.leaseId != "" &&
                      NamesHolder(after.status, r.(leaseId := ack.leaseId))
            case 2 => HasSession(after.status.phase) && NamesHolder(after.status, r) && ack.leaseId == r.leaseId
            case _ => after.status.phase == IDLE && !after.hasPending
  {
    WatchedInv(s, now);
    assert forall n :: Lease(n) != "";
  }

  /**
   Every error, exactly when its reason holds; a held lease is taken from nobody. The holder of a lease is always
   armed or in a session, so that "not armed" is never answered.
   */
  lemma RefusalReasons(s: Server, r: Request, now: nat)
    requires Inv(s)
    ensures var (w, error) := (Watched(s, now), Requested(s, r, now).1.error);
            var held := w.status.phase != IDLE;
            && (error == 1001 <==> r.version != 2)
            && (error == 1002 <==> r.version == 2 && !WellIdentified(r))
            && (error == 1003 <==> r.version == 2 && WellIdentified(r) && !Served(s, r))
            && (error == 1008 <==> Served(s, r) && r.operation == PREPARE && held && r.clientId != w.status.clientId)
            && (error == 1005 <==> Served(s, r) && (r.operation == COMMIT || (r.operation == CANCEL && held)) &&
                                   r.clientId != w.status.clientId)
            && (error == 1004 <==> Served(s, r) && held && r.clientId == w.status.clientId &&
                                   r.requestId != w.status.requestId)
            && (error == 1006 <==> Served(s, r) && r.operation != PREPARE && held &&
                                   NamesHolder(w.status, r.(leaseId := w.status.leaseId)) &&
                                   r.leaseId != w.status.leaseId)
            && (error == 1009 <==> Served(s, r) && w.generation == MAX_UINT64 &&
                                   if r.operation == PREPARE then !held
                                   else r.operation == COMMIT && w.status.phase == ARMED && NamesHolder(w.status, r))
            && error in {0, 1001, 1002, 1003, 1004, 1005, 1006, 1008, 1009}
  {
    WatchedInv(s, now);
  }

  // ---------------------------------------------------------------------------------------
  // Commands
  // ---------------------------------------------------------------------------------------

  function Submissions(events: seq<Event>): nat
    decreases |events|
  {
    if events == [] then 0
    else Submissions(events[..|events| - 1]) + if events[|events| - 1].Submit? then 1 else 0
  }

  lemma StepRejects(s: Server, e: Event)
    ensures Step(s, e).status.rejectCount ==
            s.status.rejectCount + if e.Submit? && !TakesNow(s, e) then 1 else 0
  {
    assert Watched(s, e.now).status.rejectCount == s.status.rejectCount;
  }

  /**
   Over any run every submitted command is accepted or counted as rejected, whatever leases came and went: with
   what becomes of the accepted ones, no command vanishes between the network and the joints.
   */
  lemma {:induction false} EverySubmissionIsCounted(seed: nat, commandTimeoutNs: nat, prepareTimeoutNs: nat,
                                                    rejectOperation: int, events: seq<Event>)
    requires Startable(seed, commandTimeoutNs, prepareTimeoutNs)
    ensures var h := Run(seed, commandTimeoutNs, prepareTimeoutNs, rejectOperation, events);
            && Submissions(events) == |h.accepted| + h.server.status.rejectCount
            && Submissions(events) == h.server.status.rejectCount + |h.applied| + h.server.overwritten +
                                      h.discarded + (if h.server.hasPending then 1 else 0)
    decreases |events|
  {
    AppliedInOrderAndConserved(seed, commandTimeoutNs, prepareTimeoutNs, rejectOperation, events);
    if events != [] {
      var before := events[..|events| - 1];
      EverySubmissionIsCounted(seed, commandTimeoutNs, prepareTimeoutNs, rejectOperation, before);
      StepRejects(Run(seed, commandTimeoutNs, prepareTimeoutNs, rejectOperation, before).server, events[|events| - 1]);
    }
  }
}
