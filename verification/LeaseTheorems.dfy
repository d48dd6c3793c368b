/**
 What holds in every run of the server, its clients and the network: commands of another session are
 harmless, a CANCEL is final, and statuses are ordered as they were made.
 */
module LeaseTheorems {
  import opened Wrappers
  import opened LeaseServer
  import opened LeaseRuns
  import opened Controller
  import opened LeaseSystem
  import opened LeaseSafety

  // ---------------------------------------------------------------------------------------
  // Runs
  // ---------------------------------------------------------------------------------------

  predicate Legal(s: System, run: seq<Action>)
    decreases |run|
  {
    run == [] || (Enabled(s, run[0]) && Legal(Next(s, run[0]), run[1..]))
  }

  function Reached(s: System, run: seq<Action>): System
    requires Legal(s, run)
    decreases |run|
  {
    if run == [] then s else Reached(Next(s, run[0]), run[1..])
  }

  lemma {:induction false} ReachedInv(s: System, run: seq<Action>)
    requires SystemInv(s) && Legal(s, run)
    ensures SystemInv(Reached(s, run))
    decreases |run|
  {
    hide SystemInv, Next, Enabled;
    if run != [] {
      NextInv(s, run[0]);
      ReachedInv(Next(s, run[0]), run[1..]);
    }
  }

  lemma {:induction false} RunSplits(s: System, run: seq<Action>, rest: seq<Action>)
    requires Legal(s, run + rest)
    ensures Legal(s, run) && Legal(Reached(s, run), rest)
    ensures Reached(s, run + rest) == Reached(Reached(s, run), rest)
    decreases |run|
  {
    hide Next, Enabled;
    if run == [] {
      assert run + rest == rest;
    } else {
      assert (run + rest)[1..] == run[1..] + rest;
      RunSplits(Next(s, run[0]), run[1..], rest);
    }
  }

  // ---------------------------------------------------------------------------------------
  // Stale sessions are harmless
  // ---------------------------------------------------------------------------------------

  /** The session a server runs belongs to the lease it holds. */
  lemma SessionOfIssue(s: System, server: Server, issue: Issue)
    requires ServerInv(s) && GoodIssue(s, issue)
    requires Inv(server) && HasSession(server.status.phase) && issue.command.session == server.status.generation
    requires OwnedIfAny(s, server.status.leaseId, server.status.clientId, server.status.requestId)
    ensures issue.leaseId == server.status.leaseId
    ensures issue.clientId == server.status.clientId && issue.requestId == server.status.requestId
  {
    assert GoodGrant(s, issue.leaseId);
    assert issue.leaseId == Lease(LeaseNumber(server));
  }

  /**
   Who issued `issue` holds the lease of `status`, and issued it under that lease and session, with what its caller
   asked for.
   */
  predicate IssuedByHolder(issue: Issue, status: Status) {
    && SamePayload(issue.command, issue.asked)
    && issue.clientId == status.clientId
    && issue.requestId == status.requestId
    && issue.leaseId == status.leaseId
    && issue.command.session == status.generation
  }

  /**
   However commands are delayed, repeated and reordered: a command the server accepts was issued by the
   client that holds the lease at that moment, under that lease.
   */
  lemma AcceptedCommandIsOfHolder(s0: System, run: seq<Action>, issue: nat, now: nat)
    requires Initial(s0) && Legal(s0, run)
    requires Enabled(Reached(s0, run), OfServer(Admit(issue, now)))
    requires var s := Reached(s0, run); Takes(s.server, s.issues[issue].command, now)
    ensures var s := Reached(s0, run);
            var after := Next(s, OfServer(Admit(issue, now))).server;
            && IssuedByHolder(s.issues[issue], after.status)
            && after.hasPending && after.pending == s.issues[issue].command
            && SamePayload(after.pending, s.issues[issue].asked)
  {
    var s := Reached(s0, run);
    InitialInv(s0);
    ReachedInv(s0, run);
    WatchedInv(s.server, now);
    var w := Watched(s.server, now);
    assert w == s.server || w == Held(s.server);
    assert GoodIssue(s, s.issues[issue]);
    SessionOfIssue(s, w, s.issues[issue]);
    hide Legal, Reached, Inv, SystemInv, Watched;
  }

  /** The same for a command the server applies, which is the pending one. */
  lemma AppliedCommandIsOfHolder(s0: System, run: seq<Action>, now: nat, wallUs: nat) returns (issue: nat)
    requires Initial(s0) && Legal(s0, run)
    requires Enabled(Reached(s0, run), OfServer(LeaseSystem.Apply(now, wallUs)))
    requires Applies(Reached(s0, run).server, now)
    ensures var s, s' := Reached(s0, run), Next(Reached(s0, run), OfServer(LeaseSystem.Apply(now, wallUs)));
            && issue < |s.issues|
            && Shows(s'.server.output, s.issues[issue].command)
            && s'.server.output.q == s.issues[issue].asked.q
            && IssuedByHolder(s.issues[issue], s'.server.status)
  {
    var s := Reached(s0, run);
    InitialInv(s0);
    ReachedInv(s0, run);
    TickShowsPending(s.server, now, wallUs);
    issue :| 0 <= issue < |s.issues| && s.issues[issue].command == s.server.pending;
    assert GoodIssue(s, s.issues[issue]);
    SessionOfIssue(s, s.server, s.issues[issue]);
  }

  /** Is `session` over: already given, and not the one that runs? */
  predicate SessionOver(s: Server, session: nat) {
    0 < session <= s.generation && s.status.generation != session
  }

  lemma SessionStaysOver(s: Server, session: nat, e: Event)
    requires Inv(s) && SessionOver(s, session)
    ensures SessionOver(Step(s, e), session)
  {
    StepGrants(s, e);
    StepInv(s, e);
  }

  /** The server changes only by its own calls. */
  lemma NextServer(s: System, a: Action)
    requires SystemInv(s) && Enabled(s, a)
    ensures Inv(s.server)
    ensures a.OfServer? ==> ServerEnabled(s, a.call)
    ensures Next(s, a).server == if a.OfServer? && Kept(a.call) then Step(s.server, CallOf(s, a.call)) else s.server
  {
    if a.Of? {
      NodeStepFrame(s, a.id, a.step);
    } else {
      ServerAfter(s, a.call);
    }
    hide Step, ServerAfterCall, NodeAfter;
  }

  lemma {:induction false} SessionNeverReturns(s: System, session: nat, run: seq<Action>)
    requires SystemInv(s) && Legal(s, run) && SessionOver(s.server, session)
    ensures SessionOver(Reached(s, run).server, session)
    decreases |run|
  {
    hide SystemInv, Next, Enabled, Step, SessionOver, Inv;
    if run != [] {
      var a := run[0];
      NextInv(s, a);
      NextServer(s, a);
      if a.OfServer? && Kept(a.call) {
        SessionStaysOver(s.server, session, CallOf(s, a.call));
      }
      SessionNeverReturns(Next(s, a), session, run[1..]);
    }
  }

  /** A command of a session that is over is not taken. */
  lemma OverIsRefused(s: Server, c: Command, now: nat)
    requires SessionOver(s, c.session)
    ensures !Takes(s, c, now)
  {
  }

  /** Once a session is over, no command issued under it is accepted in any continuation. */
  lemma EarlierSessionIsNeverAccepted(s0: System, run: seq<Action>, later: seq<Action>, issue: nat, now: nat)
    requires Initial(s0) && Legal(s0, run + later)
    requires var s := (RunSplits(s0, run, later); Reached(s0, run));
             issue < |s.issues| && SessionOver(s.server, s.issues[issue].command.session)
    ensures var s := (RunSplits(s0, run, later); Reached(s0, run));
            !Takes(Reached(s0, run + later).server, s.issues[issue].command, now)
  {
    hide Legal, Reached, SystemInv, Initial, Inv;
    RunSplits(s0, run, later);
    var s := Reached(s0, run);
    InitialInv(s0);
    ReachedInv(s0, run);
    SessionNeverReturns(s, s.issues[issue].command.session, later);
    OverIsRefused(Reached(s, later).server, s.issues[issue].command, now);
  }

  // ---------------------------------------------------------------------------------------
  // A CANCEL is final
  // ---------------------------------------------------------------------------------------

  /** Serving a client's CANCEL leaves its lease unheld, whether it was held, lost, or another is held. */
  lemma CancelEndsLease(s: System, r: Request, now: nat)
    requires SystemInv(s) && ServerEnabled(s, Serve(r, now, true))
    requires r.operation == CANCEL && r.leaseId != ""
    ensures Requested(s.server, r, now).0.status.leaseId != r.leaseId
    ensures r.leaseId in s.grants && GoodGrant(s, r.leaseId)
  {
    assert Honest(s, r);
    assert GoodGrant(s, r.leaseId);
    var w := Watched(s.server, now);
    assert w.status.leaseId == "" || (w.status.leaseId == s.server.status.leaseId &&
           w.status.clientId == s.server.status.clientId && w.status.requestId == s.server.status.requestId);
  }

  lemma {:induction false} LeaseNeverReturns(s: System, number: nat, run: seq<Action>)
    requires SystemInv(s) && Legal(s, run)
    requires number <= s.server.generation && s.server.status.leaseId != Lease(number)
    ensures Reached(s, run).server.status.leaseId != Lease(number)
    decreases |run|
  {
    hide SystemInv, Next, Enabled, Step, Lease, Inv;
    if run != [] {
      var a := run[0];
      NextInv(s, a);
      NextServer(s, a);
      if a.OfServer? && Kept(a.call) {
        LostLeaseStaysLostStep(s.server, number, CallOf(s, a.call));
      }
      LeaseNeverReturns(Next(s, a), number, run[1..]);
    }
  }

  /**
   Once the server has processed a client's CANCEL that names a lease, no later state is RUNNING or in
   TIMEOUT_HOLD under it, whatever else is delayed, repeated, reordered or sent.
   */
  lemma CancelIsFinal(s0: System, before: seq<Action>, r: Request, now: nat, after: seq<Action>)
    requires Initial(s0) && Legal(s0, before + ([OfServer(Serve(r, now, true))] + after))
    requires r.operation == CANCEL && r.leaseId != ""
    ensures Reached(s0, before + ([OfServer(Serve(r, now, true))] + after)).server.status.leaseId != r.leaseId
  {
    var cancel := OfServer(Serve(r, now, true));
    RunSplits(s0, before, [cancel] + after);
    var s := Reached(s0, before);
    InitialInv(s0);
    ReachedInv(s0, before);
    assert ([cancel] + after)[1..] == after;
    NextInv(s, cancel);
    NextExtends(s, cancel);
    CancelEndsLease(s, r, now);
    LeaseNeverReturns(Next(s, cancel), s.grants[r.leaseId].number, after);
  }

  // ---------------------------------------------------------------------------------------
  // Statuses are ordered as they were made
  // ---------------------------------------------------------------------------------------

  predicate SameStatus(a: Report, b: Report) {
    a == b.(stampNs := a.stampNs)
  }

  /** Two statuses on the network: the later stamp never has the smaller sequence, and one sequence is one status. */
  predicate Consistent(a: Report, b: Report) {
    && (a.stampNs < b.stampNs ==> a.statusSeq <= b.statusSeq)
    && (a.statusSeq == b.statusSeq ==> SameStatus(a, b))
  }

  ghost predicate ReportsInv(s: System) {
    && (forall a, b | a in s.reports && b in s.reports :: Consistent(a, b))
    && (forall a | a in s.reports ::
          a.stampNs <= s.lastStamp && a.statusSeq <= s.server.status.statusSeq &&
          (a.statusSeq == s.server.status.statusSeq ==> a == ReportOf(s.server.status, a.stampNs)))
  }

  lemma NextReports(s: System, a: Action)
    requires SystemInv(s) && ReportsInv(s) && Enabled(s, a)
    ensures ReportsInv(Next(s, a))
  {
    NextServer(s, a);
    if a.Of? {
      NodeStepFrame(s, a.id, a.step);
      hide AfterNode;
    } else {
      ServerStepFrame(s, a.call);
      StatusChangeRaisesSequence(s.server, CallOf(s, a.call));
      var s' := Next(s, a);
      hide AfterServer, Step, SystemInv;
      forall p, q | p in s'.reports && q in s'.reports
        ensures Consistent(p, q)
      {
        assert p in s.reports && q in s.reports ==> Consistent(p, q);
      }
    }
  }

  lemma {:induction false} ReachedReports(s: System, run: seq<Action>)
    requires SystemInv(s) && ReportsInv(s) && Legal(s, run)
    ensures ReportsInv(Reached(s, run))
    decreases |run|
  {
    hide SystemInv, ReportsInv, Next, Enabled;
    if run != [] {
      NextInv(s, run[0]);
      NextReports(s, run[0]);
      ReachedReports(Next(s, run[0]), run[1..]);
    }
  }

  /**
   The order a client puts statuses in never contradicts the order the server made them in, and two
   statuses with one sequence number differ at most in their time stamp.
   */
  lemma StatusOrderIsSound(s0: System, run: seq<Action>, a: Report, b: Report)
    requires Initial(s0) && Legal(s0, run)
    requires a in Reached(s0, run).reports && b in Reached(s0, run).reports
    ensures IsNewer(a, Some(b)) ==> a.statusSeq >= b.statusSeq
    ensures a.statusSeq > b.statusSeq ==> IsNewer(a, Some(b))
    ensures a.statusSeq == b.statusSeq ==> a == b.(stampNs := a.stampNs)
  {
    InitialInv(s0);
    ReachedReports(s0, run);
    IsNewerIsLexicographic(a, b);
    assert Consistent(a, b) && Consistent(b, a);
  }
}
