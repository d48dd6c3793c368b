/**
 What a client knows when a call returns: entering returns only with a lease the server granted and a session it
 started, leaving returns only when the server has let the lease go.
 */
module LeaseEntry {
  import opened Wrappers
  import opened LeaseServer
  import opened LeaseRuns
  import opened Controller
  import opened LeaseSystem
  import opened LeaseSafety
  import opened LeaseTheorems
  import opened LeaseCancel

  // ---------------------------------------------------------------------------------------
  // What the session thread has seen
  // ---------------------------------------------------------------------------------------

  /** The server accepted the operation of a request. */
  ghost predicate Granted(acks: set<Ack>, operation: int, requestId: string) {
    exists a :: a in acks && a.accepted && a.operation == operation && a.requestId == requestId
  }

  /** The server accepted a PREPARE, and its answer named the lease. */
  ghost predicate Leased(acks: set<Ack>, requestId: string, lease: string) {
    exists a :: a in acks && a.accepted && a.operation == PREPARE && a.requestId == requestId && a.leaseId == lease
  }

  predicate OfOwnSession(c: Client, report: Report) {
    && report.external && report.phase == RUNNING && report.clientId == c.id && report.leaseId == c.leaseId
    && ValidGeneration(report.generation)
  }

  /** The status shows that the robot was given back. */
  predicate ShowsIdle(report: Report) {
    !report.external && report.phase in {IDLE, EMERGENCY}
  }

  /** What stands behind the place of a session thread. */
  ghost predicate Backed(acks: set<Ack>, reports: set<Report>, c: Client, p: Place) {
    && (p.Prepared? ==> p.ack.accepted && p.ack.operation == PREPARE && p.ack.leaseId != "" && p.ack in acks
                        && p.ack.requestId == p.requestId)
    && (p.SendingCommit? || p.AwaitingCommit? || p.AwaitingRunning? || p.SeesRunning? ==>
          c.leaseId != "" && Leased(acks, p.requestId, c.leaseId))
    && (p.AwaitingRunning? || p.SeesRunning? ==> Granted(acks, COMMIT, p.requestId))
    && (p.SeesRunning? ==> p.report in reports && OfOwnSession(c, p.report))
    && (p.AwaitingIdle? || p.SeesIdle? ==> Granted(acks, CANCEL, p.requestId))
    && (p.SeesIdle? ==> exists report :: report in reports && ShowsIdle(report))
  }

  /** The acknowledgements and the status a client holds were on the network. */
  ghost predicate Heard(acks: set<Ack>, reports: set<Report>, c: Client) {
    && (forall key | key in c.acks :: c.acks[key] in acks && key == (c.acks[key].requestId, c.acks[key].operation))
    && (c.latest.Some? ==> c.latest.value in reports)
  }

  lemma BackedStep(acks: set<Ack>, reports: set<Report>, n: Node, step: NodeStep)
    requires NodeEnabled(n, step) && Backed(acks, reports, n.client, n.place) && Heard(acks, reports, n.client)
    ensures Backed(acks, reports, ClientAfter(n, step), PlaceAfter(n, step))
  {
    if OfOtherThread(step) {
      OtherThreadsKeepSession(n, step);
      hide ClientAfter, PlaceAfter;
    } else {
      hide CancelClaimed, Began, SessionCleared, Entered;
    }
  }

  lemma BackedLater(acks: set<Ack>, more: set<Ack>, reports: set<Report>, later: set<Report>, c: Client, p: Place)
    requires acks <= more && reports <= later && Backed(acks, reports, c, p)
    ensures Backed(more, later, c, p)
  {
  }

  ghost predicate BackedInv(s: System) {
    forall id | id in s.nodes :: Backed(s.acks, s.reports, s.nodes[id].client, s.nodes[id].place)
  }

  lemma NodeHeard(s: System, id: string)
    requires SystemInv(s) && id in s.nodes
    ensures Heard(s.acks, s.reports, s.nodes[id].client)
  {
    assert GoodNode(s, id, s.nodes[id]);
  }

  lemma NextBacked(s: System, a: Action)
    requires SystemInv(s) && BackedInv(s) && Enabled(s, a)
    ensures BackedInv(Next(s, a))
  {
    hide SystemInv, AfterNode, AfterServer, Backed, Heard, ClientAfter, PlaceAfter, NodeEnabled;
    NextExtends(s, a);
    match a
    case Of(id, step) =>
      NodeHeard(s, id);
      NodeStepBegun(s, id, step);
      NodeStepFrame(s, id, step);
      BackedStep(s.acks, s.reports, s.nodes[id], step);
    case OfServer(call) =>
      ServerStepFrame(s, call);
      var t := Next(s, a);
      forall id | id in t.nodes
        ensures Backed(t.acks, t.reports, t.nodes[id].client, t.nodes[id].place)
      {
        BackedLater(s.acks, t.acks, s.reports, t.reports, s.nodes[id].client, s.nodes[id].place);
      }
  }

  lemma {:induction false} ReachedBacked(s: System, run: seq<Action>)
    requires SystemInv(s) && BackedInv(s) && Legal(s, run)
    ensures BackedInv(Reached(s, run))
    decreases |run|
  {
    hide SystemInv, BackedInv, Next, Enabled;
    if run != [] {
      NextInv(s, run[0]);
      NextBacked(s, run[0]);
      ReachedBacked(Next(s, run[0]), run[1..]);
    }
  }

  lemma InitialBacked(s: System)
    requires Initial(s)
    ensures BackedInv(s)
  {
  }

  /**
   When entering returns, the server has accepted the PREPARE of the request with the lease that the client now holds,
   and its COMMIT, and has reported the client's own session running; that session is the one the client goes on with.
   */
  lemma EnteringReturnsGranted(s0: System, run: seq<Action>, id: string)
    requires Initial(s0) && Legal(s0, run) && Enabled(Reached(s0, run), Of(id, FinishEntry))
    ensures var s := Reached(s0, run);
            var n := s.nodes[id];
            var d := Next(s, Of(id, FinishEntry)).nodes[id].client;
            && d.leaseId == n.client.leaseId != "" && Leased(s.acks, n.place.requestId, d.leaseId)
            && Granted(s.acks, COMMIT, n.place.requestId)
            && (exists report :: report in s.reports && OfOwnSession(d, report) && report.generation == d.sessionId)
            && d.nextSequence == 1
  {
    hide SystemInv, Initial, Leased, Granted;
    InitialInv(s0);
    InitialBacked(s0);
    ReachedBacked(s0, run);
    var s := Reached(s0, run);
    assert Backed(s.acks, s.reports, s.nodes[id].client, s.nodes[id].place);
  }

  // ---------------------------------------------------------------------------------------
  // An accepted CANCEL
  // ---------------------------------------------------------------------------------------

  ghost predicate Unheld(s: System, lease: string) {
    lease != "" ==> lease in s.grants && s.grants[lease].number <= s.server.generation &&
                    lease == Lease(s.grants[lease].number) && s.server.status.leaseId != lease
  }

  /** A CANCEL of the request was sent, and the lease it named is not held. */
  ghost predicate Released(s: System, requestId: string) {
    exists q :: q in s.requests && q.operation == CANCEL && q.requestId == requestId && Unheld(s, q.leaseId)
  }

  ghost predicate ReleasedInv(s: System) {
    forall ack | ack in s.acks && ack.accepted && ack.operation == CANCEL :: Released(s, ack.requestId)
  }

  lemma UnheldStays(s: System, a: Action, lease: string)
    requires SystemInv(s) && Enabled(s, a) && Unheld(s, lease)
    ensures Unheld(Next(s, a), lease)
  {
    hide SystemInv, AfterNode, AfterServer, Step, Lease, Inv;
    NextExtends(s, a);
    NextServer(s, a);
    if lease != "" && a.OfServer? && Kept(a.call) {
      LostLeaseStaysLostStep(s.server, s.grants[lease].number, CallOf(s, a.call));
    }
  }

  lemma ReleasedStays(s: System, a: Action, requestId: string)
    requires SystemInv(s) && Enabled(s, a) && Released(s, requestId)
    ensures Released(Next(s, a), requestId)
  {
    hide SystemInv, AfterNode, AfterServer, Unheld;
    var q :| q in s.requests && q.operation == CANCEL && q.requestId == requestId && Unheld(s, q.leaseId);
    UnheldStays(s, a, q.leaseId);
    NextExtends(s, a);
  }

  /** The CANCEL that is answered without an error is behind its lease. */
  lemma ServedReleases(s: System, r: Request, now: nat)
    requires SystemInv(s) && Enabled(s, OfServer(Serve(r, now, true))) && r.operation == CANCEL
    ensures Released(Next(s, OfServer(Serve(r, now, true))), r.requestId)
  {
    var a := OfServer(Serve(r, now, true));
    NextExtends(s, a);
    NextServer(s, a);
    ServerStepFrame(s, Serve(r, now, true));
    if r.leaseId != "" {
      CancelEndsLease(s, r, now);
    }
    hide SystemInv, AfterServer, Requested, Step;
    assert Unheld(Next(s, a), r.leaseId);
  }

  /** A new acknowledgement answers the request that was served. */
  lemma NewAck(s: System, a: Action, ack: Ack)
    requires SystemInv(s) && Enabled(s, a) && ack in Next(s, a).acks && ack !in s.acks
    ensures a.OfServer? && a.call.Serve? && a.call.sent
    ensures ack.requestId == a.call.request.requestId && ack.operation == a.call.request.operation
  {
    hide SystemInv, AfterNode, AfterServer, Requested;
    match a
    case Of(id, step) => NodeStepFrame(s, id, step);
    case OfServer(call) =>
      NextServer(s, a);
      ServerStepFrame(s, call);
      if call.Serve? {
        ReplyNamesHolder(s.server, call.request, call.now);
      }
  }

  lemma NextReleased(s: System, a: Action)
    requires SystemInv(s) && ReleasedInv(s) && Enabled(s, a)
    ensures ReleasedInv(Next(s, a))
  {
    hide SystemInv, AfterNode, AfterServer, Released, Requested, NodeEnabled;
    var t := Next(s, a);
    forall ack | ack in t.acks && ack.accepted && ack.operation == CANCEL
      ensures Released(t, ack.requestId)
    {
      if ack in s.acks {
        ReleasedStays(s, a, ack.requestId);
      } else {
        NewAck(s, a, ack);
        ServedReleases(s, a.call.request, a.call.now);
      }
    }
  }

  lemma {:induction false} ReachedReleased(s: System, run: seq<Action>)
    requires SystemInv(s) && ReleasedInv(s) && Legal(s, run)
    ensures ReleasedInv(Reached(s, run))
    decreases |run|
  {
    hide SystemInv, ReleasedInv, Next, Enabled;
    if run != [] {
      NextInv(s, run[0]);
      NextReleased(s, run[0]);
      ReachedReleased(Next(s, run[0]), run[1..]);
    }
  }

  lemma InitialReleased(s: System)
    requires Initial(s)
    ensures ReleasedInv(s) && RecordedInv(s)
  {
  }

  lemma LeavingPlace(s: System, id: string)
    requires BackedInv(s) && ReleasedInv(s) && Enabled(s, Of(id, FinishExit))
    ensures var r := s.nodes[id].place.requestId;
            Granted(s.acks, CANCEL, r) && Released(s, r) && exists report :: report in s.reports && ShowsIdle(report)
  {
    hide Released;
    assert Backed(s.acks, s.reports, s.nodes[id].client, s.nodes[id].place);
  }

  /** The CANCEL that was answered named the committed lease. */
  lemma CommittedReleased(s0: System, run: seq<Action>, r: string)
    requires Initial(s0) && Legal(s0, run)
    requires var s := Reached(s0, run); Released(s, r) && r in s.committed && r !in s.overtaken
    ensures var s := Reached(s0, run);
            var lease := s.committed[r];
            && lease in s.grants && s.grants[lease].number <= s.server.generation
            && lease == Lease(s.grants[lease].number) && s.server.status.leaseId != lease
  {
    hide Initial, Legal, Reached, Lease;
    var s := Reached(s0, run);
    var q :| q in s.requests && q.operation == CANCEL && q.requestId == r && Unheld(s, q.leaseId);
    assert run + [] == run;
    SentCancelNamesCommittedLease(s0, run, [], q);
  }

  /**
   When leaving returns, the server has accepted a CANCEL of the request and the client has heard that the robot was
   given back; and the lease that was committed for the request is not held, now and in every continuation, unless the
   one CANCEL was claimed before that lease was stored.
   */
  lemma LeavingReturnsReleased(s0: System, run: seq<Action>, id: string, rest: seq<Action>)
    requires Initial(s0) && Legal(s0, run) && Enabled(Reached(s0, run), Of(id, FinishExit))
    requires Legal(Reached(s0, run), rest)
    ensures var s := Reached(s0, run);
            var r := s.nodes[id].place.requestId;
            && Granted(s.acks, CANCEL, r) && (exists report :: report in s.reports && ShowsIdle(report))
            && (r in s.committed && r !in s.overtaken ==>
                  Reached(s, rest).server.status.leaseId != s.committed[r])
  {
    hide SystemInv, Initial, Next, Granted;
    InitialInv(s0);
    InitialBacked(s0);
    InitialReleased(s0);
    ReachedInv(s0, run);
    ReachedBacked(s0, run);
    ReachedReleased(s0, run);
    var s := Reached(s0, run);
    LeavingPlace(s, id);
    var r := s.nodes[id].place.requestId;
    if r in s.committed && r !in s.overtaken {
      CommittedReleased(s0, run, r);
      LeaseNeverReturns(s, s.grants[s.committed[r]].number, rest);
    }
  }

  // ---------------------------------------------------------------------------------------
  // Leaving, step by step
  // ---------------------------------------------------------------------------------------

  /** A status shows the server's own: EXTERNAL exactly in a session, running or held. */
  lemma ReportExactly(t: Status, stamp: nat)
    ensures var report := ReportOf(t, stamp);
            && (report.external <==> t.phase == RUNNING || t.phase == TIMEOUT_HOLD)
            && report.phase == t.phase && report.statusSeq == t.statusSeq && report.generation == t.generation
            && report.clientId == t.clientId && report.leaseId == t.leaseId && report.stampNs == stamp
  {
  }

  /**
   Leaving claims the CANCEL if nobody has, hands it over, waits for its acknowledgement, then for a status that shows
   the robot given back, and forgets the session. A refusal ends it.
   */
  lemma LeavingExactly(n: Node, r: string)
    ensures n.place == Leaving(r) ==>
              && NodeEnabled(n, ClaimCancel)
              && (n.client.requestId.Some? && !n.client.cancelSent ==>
                    NodeAfter(n, ClaimCancel).place == Cancelling(r, RequestOf(n.client, CANCEL), true))
              && (n.client.requestId == None || n.client.cancelSent ==>
                    NodeAfter(n, ClaimCancel).place == AwaitingCancel(r))
    ensures n.place.Cancelling? && n.place.leaving && n.place.requestId == r ==>
              NodeEnabled(n, HandCancel) && NodeAfter(n, HandCancel).place == AwaitingCancel(r)
    ensures n.place == AwaitingCancel(r) ==>
              && (NodeEnabled(n, TakeCancelAck) <==> !n.client.closed && (r, CANCEL) in n.client.acks)
              && (NodeEnabled(n, TakeCancelAck) ==>
                    NodeAfter(n, TakeCancelAck).place ==
                    if n.client.acks[(r, CANCEL)].accepted then AwaitingIdle(r) else Outside)
    ensures n.place == AwaitingIdle(r) ==>
              && (NodeEnabled(n, TakeIdle) <==>
                    !n.client.closed && n.client.latest.Some? && ShowsIdle(n.client.latest.value))
              && (NodeEnabled(n, TakeIdle) ==> NodeAfter(n, TakeIdle).place == SeesIdle(r))
    ensures n.place == SeesIdle(r) ==>
              NodeEnabled(n, FinishExit) && NodeAfter(n, FinishExit).place == Outside &&
              NodeAfter(n, FinishExit).client.requestId == None
  {
  }
}
