/**
 From the caller to the joints: in every reachable state the next command of the client that holds the session is
 taken, whatever the watchdog did, and a tick in time shows what its caller asked for.
 */
module LeaseDelivery {
  import opened LeaseServer
  import opened LeaseRuns
  import opened LeaseCommands
  import opened LeaseSystem
  import opened LeaseSafety
  import opened LeaseTheorems

  /** The command is new to the session that is held or runs, rests on an observation, and is within the limits. */
  ghost predicate Acceptable(c: Command, status: Status) {
    c.sequence > status.acceptedSequence && c.inputStateRealUs != 0 && WithinLimits(c)
  }

  /** A command issued under the held lease is one of its session. */
  lemma HolderKnowsSession(s: System, issue: Issue)
    requires ServerInv(s) && GoodIssue(s, issue)
    requires HasSession(s.server.status.phase) && issue.leaseId == s.server.status.leaseId
    ensures issue.command.session == s.server.status.generation
  {
    assert GoodGrant(s, issue.leaseId);
    LeaseInjective(s.grants[issue.leaseId].number, LeaseNumber(s.server));
  }

  lemma ServedParts(s: System, issue: nat)
    requires SystemInv(s) && issue < |s.issues|
    ensures ServerInv(s) && Inv(s.server) && GoodIssue(s, s.issues[issue])
    ensures SamePayload(s.issues[issue].command, s.issues[issue].asked)
  {
  }

  /**
   In every reachable state with a session, a command issued under the lease that is held, newer than the last one
   taken and within the limits, is taken: the session runs again if it was held, and the command is pending with what
   its caller asked for.
   */
  lemma HolderIsServed(s0: System, run: seq<Action>, issue: nat, now: nat)
    requires Initial(s0) && Legal(s0, run) && Enabled(Reached(s0, run), OfServer(Admit(issue, now)))
    requires var s := Reached(s0, run);
             && HasSession(s.server.status.phase) && s.issues[issue].leaseId == s.server.status.leaseId
             && Acceptable(s.issues[issue].command, s.server.status)
    ensures var s, t := Reached(s0, run), Next(Reached(s0, run), OfServer(Admit(issue, now)));
            && t.server.status.phase == RUNNING && t.server.hasPending
            && t.server.pending == s.issues[issue].command && SamePayload(t.server.pending, s.issues[issue].asked)
            && t.server.status.lastValidNs == now && SameHolder(s.server, t.server) && SameSettings(s.server, t.server)
  {
    hide Legal, Reached, Inv, SystemInv, Initial, Watched, Takes, Submitted, GoodIssue, ServerInv, IssuesInv;
    var s := Reached(s0, run);
    InitialInv(s0);
    ReachedInv(s0, run);
    ServedParts(s, issue);
    HolderKnowsSession(s, s.issues[issue]);
    CommandTakenExactly(s.server, s.issues[issue].command, now);
    TakenOutcome(s.server, s.issues[issue].command, now);
  }

  lemma TickShows(t: System, later: nat, wallUs: nat)
    requires SystemInv(t) && Enabled(t, OfServer(LeaseSystem.Apply(later, wallUs)))
    requires t.server.hasPending && t.server.status.lastValidNs <= later
    requires later < t.server.status.lastValidNs + t.server.commandTimeoutNs
    ensures var o := Next(t, OfServer(LeaseSystem.Apply(later, wallUs))).server.output;
            && o.q == t.server.pending.q && o.session == t.server.pending.session
            && o.sequence == t.server.pending.sequence && o.firstOutputUs == wallUs
  {
    hide MessagesInv, NodesInv, IssuesInv, Watched, Applies;
    AppliesExactly(t.server, later);
    OutputMovesByTicks(t.server, LeaseRuns.Apply(later, wallUs));
  }

  /** And a tick that comes before the command times out shows it, with the time the tick was given. */
  lemma HolderMovesTheJoints(s0: System, run: seq<Action>, issue: nat, now: nat, later: nat, wallUs: nat)
    requires Initial(s0) && Legal(s0, run) && Enabled(Reached(s0, run), OfServer(Admit(issue, now)))
    requires var s := Reached(s0, run);
             && HasSession(s.server.status.phase) && s.issues[issue].leaseId == s.server.status.leaseId
             && Acceptable(s.issues[issue].command, s.server.status)
             && now <= later < now + s.server.commandTimeoutNs
    requires Enabled(Next(Reached(s0, run), OfServer(Admit(issue, now))), OfServer(LeaseSystem.Apply(later, wallUs)))
    ensures var s := Reached(s0, run);
            var t := Next(Next(s, OfServer(Admit(issue, now))), OfServer(LeaseSystem.Apply(later, wallUs)));
            && t.server.output.q == s.issues[issue].asked.q
            && t.server.output.session == s.issues[issue].command.session
            && t.server.output.sequence == s.issues[issue].command.sequence
            && t.server.output.firstOutputUs == wallUs
  {
    hide Legal, Reached, Initial, Watched, SystemInv, Step;
    var s := Reached(s0, run);
    HolderIsServed(s0, run, issue, now);
    InitialInv(s0);
    ReachedInv(s0, run);
    var t := Next(s, OfServer(Admit(issue, now)));
    NextInv(s, OfServer(Admit(issue, now)));
    TickShows(t, later, wallUs);
  }
}
