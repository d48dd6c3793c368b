/**
 Safety of the composed system over every run: who a lease belongs to is known from every message about
 it, so a stale command is harmless and a CANCEL is final.
 */
module LeaseSafety {
  import opened Words
  import opened Wrappers
  import opened LeaseServer
  import opened LeaseRuns
  import opened Controller
  import opened LeaseSystem

  // ---------------------------------------------------------------------------------------
  // The invariant
  // ---------------------------------------------------------------------------------------

  ghost predicate Owned(s: System, lease: string, id: string, requestId: string) {
    lease in s.grants && s.grants[lease].clientId == id && s.grants[lease].requestId == requestId
  }

  ghost predicate OwnedIfAny(s: System, lease: string, id: string, requestId: string) {
    lease == "" || Owned(s, lease, id, requestId)
  }

  ghost predicate BegunBy(s: System, requestId: string, id: string) {
    requestId in s.begunBy && s.begunBy[requestId] == id
  }

  ghost predicate GoodGrant(s: System, lease: string)
    requires lease in s.grants
  {
    var g := s.grants[lease];
    && 0 < g.number <= s.server.generation
    && lease == Lease(g.number)
    && BegunBy(s, g.requestId, g.clientId)
    && 0 < |g.clientId| <= 256
  }

  ghost predicate ServerInv(s: System) {
    && Inv(s.server) && s.server.rejectOperation == 0
    && (forall requestId | requestId in s.begunBy :: 0 < |requestId| <= 256)
    && (forall lease | lease in s.grants :: GoodGrant(s, lease))
    && OwnedIfAny(s, s.server.status.leaseId, s.server.status.clientId, s.server.status.requestId)
  }

  /** A request as a client of the system builds it. */
  ghost predicate Honest(s: System, r: Request) {
    && r.version == 2 && r.action == "EXTERNAL" && PREPARE <= r.operation <= CANCEL
    && r.clientId != ""
    && BegunBy(s, r.requestId, r.clientId)
    && OwnedIfAny(s, r.leaseId, r.clientId, r.requestId)
  }

  ghost predicate GoodAck(s: System, ack: Ack) {
    ack.leaseId == "" || (ack.leaseId in s.grants && s.grants[ack.leaseId].requestId == ack.requestId)
  }

  ghost predicate GoodReport(s: System, report: Report) {
    report.external ==>
      && report.leaseId in s.grants
      && s.grants[report.leaseId].clientId == report.clientId
      && report.generation == s.grants[report.leaseId].number + 1
  }

  ghost predicate MessagesInv(s: System) {
    && (forall r | r in s.requests :: Honest(s, r))
    && (forall ack | ack in s.acks :: GoodAck(s, ack))
    && (forall report | report in s.reports :: GoodReport(s, report))
  }

  ghost predicate GoodClient(s: System, id: string, c: Client) {
    && c.id == id && id != ""
    && (c.requestId.Some? ==> BegunBy(s, c.requestId.value, id))
    && (c.leaseId != "" ==> c.requestId.Some? && Owned(s, c.leaseId, id, c.requestId.value))
    && (forall key | key in c.acks :: c.acks[key] in s.acks && key == (c.acks[key].requestId, c.acks[key].operation))
    && (c.latest.Some? ==> c.latest.value in s.reports)
  }

  ghost predicate GoodCancel(s: System, cancel: Request) {
    Honest(s, cancel) && cancel.operation == CANCEL
  }

  ghost predicate GoodPlace(s: System, c: Client, p: Place) {
    && (!p.Outside? ==> c.requestId == Some(p.requestId))
    && (p.SendingPrepare? || p.AwaitingPrepare? || p.Prepared? ==> c.leaseId == "")
    && (p.Prepared? ==> p.ack in s.acks && p.ack.requestId == p.requestId && p.ack.leaseId != "")
    && (p.SendingCommit? || p.AwaitingCommit? || p.AwaitingRunning? || p.SeesRunning? ==> c.leaseId != "")
    && (p.SeesRunning? ==>
          p.report in s.reports && p.report.external && p.report.leaseId == c.leaseId && p.report.clientId == c.id)
    && (p.Cancelling? ==> GoodCancel(s, p.cancel) && p.cancel.requestId == p.requestId)
  }

  ghost predicate GoodNode(s: System, id: string, n: Node) {
    && GoodClient(s, id, n.client)
    && GoodPlace(s, n.client, n.place)
    && (forall r | r in n.beside :: GoodCancel(s, n.beside[r]))
  }

  ghost predicate NodesInv(s: System) {
    forall id | id in s.nodes :: GoodNode(s, id, s.nodes[id])
  }

  ghost predicate GoodIssue(s: System, issue: Issue) {
    && Owned(s, issue.leaseId, issue.clientId, issue.requestId)
    && SamePayload(issue.command, issue.asked)
    && issue.command.session == s.grants[issue.leaseId].number + 1
  }

  ghost predicate IssuesInv(s: System) {
    && (forall i | 0 <= i < |s.issues| :: GoodIssue(s, s.issues[i]))
    && (s.server.hasPending ==> exists i :: 0 <= i < |s.issues| && s.issues[i].command == s.server.pending)
  }

  ghost predicate SystemInv(s: System) {
    && ServerInv(s)
    && MessagesInv(s)
    && NodesInv(s)
    && IssuesInv(s)
  }

  // ---------------------------------------------------------------------------------------
  // The record only grows
  // ---------------------------------------------------------------------------------------

  ghost predicate Extends(s: System, s': System) {
    && (forall r | r in s.begunBy :: r in s'.begunBy && s'.begunBy[r] == s.begunBy[r])
    && (forall l | l in s.grants :: l in s'.grants && s'.grants[l] == s.grants[l])
    && s.acks <= s'.acks && s.reports <= s'.reports && s.requests <= s'.requests
    && s.server.generation <= s'.server.generation
  }

  lemma HonestExtends(s: System, s': System, r: Request)
    requires Extends(s, s') && Honest(s, r)
    ensures Honest(s', r)
  {
  }

  lemma NodeExtends(s: System, s': System, id: string, n: Node)
    requires Extends(s, s') && GoodNode(s, id, n)
    ensures GoodNode(s', id, n)
  {
  }

  lemma NewLeaseIsFresh(s: System, lease: string)
    requires ServerInv(s) && lease in s.grants
    ensures lease != Lease(s.server.generation + 1)
  {
    if lease == Lease(s.server.generation + 1) {
      LeaseInjective(s.grants[lease].number, s.server.generation + 1);
    }
  }

  /** A new lease is granted to the request that is served, and its number is the next one. */
  lemma ServeGrants(s: System, r: Request, now: nat)
    requires ServerInv(s)
    ensures var t := Requested(s.server, r, now).0;
            NewLease(s.server.status, t.status) ==>
              && t.generation == s.server.generation + 1
              && t.status.leaseId == Lease(t.generation)
              && t.status.clientId == r.clientId && t.status.requestId == r.requestId
              && 0 < |r.clientId| <= 256
  {
    WatchedInv(s.server, now);
  }

  /** The call of the server a step makes. */
  function CallOf(s: System, call: ServerStep): Event
    requires ServerEnabled(s, call)
  {
    match call
    case Serve(request, now, _) => Control(request, now)
    case Admit(issue, now) => Submit(s.issues[issue].command, now)
    case Apply(now, wallUs) => LeaseRuns.Apply(now, wallUs)
    case Emit(now, _) => Poll(now)
  }

  predicate Kept(call: ServerStep) {
    !(call.Serve? && !call.sent)
  }

  lemma ServerAfter(s: System, call: ServerStep)
    requires ServerEnabled(s, call)
    ensures AfterServer(s, call).server == if Kept(call) then Step(s.server, CallOf(s, call)) else s.server
  {
  }

  /** A server's step leaves the clients and what they said alone. */
  lemma ServerStepFrame(s: System, call: ServerStep)
    requires ServerEnabled(s, call)
    ensures var s' := AfterServer(s, call);
            && s'.nodes == s.nodes && s'.requests == s.requests && s'.begunBy == s.begunBy
            && s'.issues == s.issues && s'.claimed == s.claimed && s'.handed == s.handed
            && s'.committed == s.committed && s'.overtaken == s.overtaken && s'.early == s.early
            && (forall ack | ack in s'.acks :: ack in s.acks || (call.Serve? && call.sent &&
                  ack == Requested(s.server, call.request, call.now).1))
            && (forall report | report in s'.reports :: report in s.reports || (call.Emit? &&
                  report == ReportOf(s'.server.status, call.stamp)))
            && (forall lease | lease in s'.grants :: (lease in s.grants && s'.grants[lease] == s.grants[lease]) ||
                  (call.Serve? && call.sent && NewLease(s.server.status, s'.server.status) &&
                   lease == s'.server.status.leaseId &&
                   s'.grants[lease] == Grant(call.request.clientId, call.request.requestId, s'.server.generation)))
  {
    assert NewLease(s.server.status, ServerAfterCall(s, call).status) && call.Serve? ==> call.sent;
    hide Requested, ServerAfterCall, NewLease, ReportOf, Watched;
  }

  lemma ServerStepExtends(s: System, call: ServerStep)
    requires ServerInv(s) && ServerEnabled(s, call)
    ensures Extends(s, AfterServer(s, call))
  {
    hide Step, Inv, Requested, Submitted, Ticked, Watched, Decimal;
    ServerAfter(s, call);
    StepGrants(s.server, CallOf(s, call));
    if call.Serve? {
      ServeGrants(s, call.request, call.now);
      forall l | l in s.grants
        ensures l != Lease(s.server.generation + 1)
      {
        NewLeaseIsFresh(s, l);
      }
    }
  }

  lemma NextExtends(s: System, a: Action)
    requires SystemInv(s) && Enabled(s, a)
    ensures Extends(s, Next(s, a))
  {
    match a
    case Of(id, step) =>
    case OfServer(call) => ServerStepExtends(s, call);
  }

  // ---------------------------------------------------------------------------------------
  // A step of a client
  // ---------------------------------------------------------------------------------------

  /** What a client builds from its own state is honest. */
  lemma RequestOfHonest(s: System, id: string, c: Client, operation: int)
    requires GoodClient(s, id, c) && c.requestId.Some? && PREPARE <= operation <= CANCEL
    ensures Honest(s, RequestOf(c, operation))
  {
  }

  lemma SendsHonest(s: System, id: string, step: NodeStep)
    requires NodesInv(s) && Enabled(s, Of(id, step))
    ensures Sends(s.nodes[id], step).Some? ==> Honest(s, Sends(s.nodes[id], step).value)
  {
    var n := s.nodes[id];
    assert GoodNode(s, id, n);
    if step.SendPrepare? || step.SendCommit? {
      RequestOfHonest(s, id, n.client, if step.SendPrepare? then PREPARE else COMMIT);
    }
  }

  /** A claimed CANCEL is the honest one of the active request, with the lease the client holds. */
  lemma ClaimsHonest(s: System, id: string, step: NodeStep)
    requires NodesInv(s) && Enabled(s, Of(id, step))
    ensures var n := s.nodes[id];
            Claims(n, step).Some? ==>
              && GoodCancel(s, Claims(n, step).value)
              && n.client.requestId == Some(Claims(n, step).value.requestId)
              && Claims(n, step).value.leaseId == n.client.leaseId
              && !n.client.cancelSent
  {
    var n := s.nodes[id];
    assert GoodNode(s, id, n);
    if Claims(n, step).Some? {
      RequestOfHonest(s, id, n.client, CANCEL);
    }
  }

  /** The lease of an acknowledged PREPARE belongs to the client that began the request. */
  lemma AckedLeaseIsOwned(s: System, id: string, ack: Ack)
    requires ServerInv(s) && MessagesInv(s) && ack in s.acks && ack.leaseId != ""
    requires BegunBy(s, ack.requestId, id)
    ensures Owned(s, ack.leaseId, id, ack.requestId)
  {
    assert GoodAck(s, ack);
    assert GoodGrant(s, ack.leaseId);
  }

  lemma ClientStepGood(s: System, id: string, step: NodeStep)
    requires ServerInv(s) && MessagesInv(s) && NodesInv(s) && Enabled(s, Of(id, step)) && !step.Begin?
    ensures GoodClient(s, id, ClientAfter(s.nodes[id], step))
  {
    hide ServerInv, MessagesInv, Inv;
    var n := s.nodes[id];
    assert GoodNode(s, id, n);
    if step.StoreLease? {
      AckedLeaseIsOwned(s, id, n.place.ack);
    }
  }

  /** The threads beside the session thread change neither the active request nor its lease. */
  predicate OfOtherThread(step: NodeStep) {
    step.Close? || step.ExitBeside? || step.HandBeside? || step.Publish? || step.HearAck? || step.HearReport?
  }

  lemma OtherThreadsKeepSession(n: Node, step: NodeStep)
    requires NodeEnabled(n, step) && OfOtherThread(step)
    ensures PlaceAfter(n, step) == n.place
    ensures ClientAfter(n, step).requestId == n.client.requestId && ClientAfter(n, step).leaseId == n.client.leaseId
    ensures ClientAfter(n, step).id == n.client.id
    ensures !step.Close? && !step.ExitBeside? ==> ClientAfter(n, step).cancelSent == n.client.cancelSent
  {
  }

  predicate OfEntry(step: NodeStep) {
    step.SendPrepare? || step.TakePrepareAck? || step.StoreLease? || step.SendCommit? || step.TakeCommitAck? ||
    step.TakeRunning? || step.FinishEntry? || step.FailEntry?
  }

  lemma EntryPlaceGood(s: System, n: Node, step: NodeStep)
    requires NodeEnabled(n, step) && OfEntry(step)
    requires GoodClient(s, n.client.id, n.client) && GoodPlace(s, n.client, n.place)
    ensures GoodPlace(s, ClientAfter(n, step), PlaceAfter(n, step))
  {
    hide Honest, Owned, BegunBy;
  }

  lemma ExitPlaceGood(s: System, n: Node, step: NodeStep)
    requires NodeEnabled(n, step) && !OfEntry(step) && !OfOtherThread(step) && !step.Begin?
    requires GoodPlace(s, n.client, n.place)
    requires Claims(n, step).Some? ==>
               GoodCancel(s, Claims(n, step).value) && n.client.requestId == Some(Claims(n, step).value.requestId)
    ensures GoodPlace(s, ClientAfter(n, step), PlaceAfter(n, step))
  {
    hide Honest;
  }

  lemma PlaceStepGood(s: System, id: string, step: NodeStep)
    requires NodesInv(s) && Enabled(s, Of(id, step)) && !step.Begin?
    ensures GoodPlace(s, ClientAfter(s.nodes[id], step), PlaceAfter(s.nodes[id], step))
  {
    var n := s.nodes[id];
    assert GoodNode(s, id, n);
    ClaimsHonest(s, id, step);
    hide PlaceAfter, ClientAfter, NodesInv, NodeEnabled, Claims;
    if OfOtherThread(step) {
      OtherThreadsKeepSession(n, step);
    } else if OfEntry(step) {
      EntryPlaceGood(s, n, step);
    } else {
      ExitPlaceGood(s, n, step);
    }
  }

  lemma BeginGood(s: System, id: string, r: string)
    requires SystemInv(s) && Enabled(s, Of(id, Begin(r)))
    ensures GoodNode(AfterNode(s, id, Begin(r)), id, NodeAfter(s.nodes[id], Begin(r)))
  {
    assert GoodNode(s, id, s.nodes[id]);
  }

  lemma BesideGood(s: System, id: string, step: NodeStep)
    requires NodesInv(s) && Enabled(s, Of(id, step))
    ensures forall r | r in BesideAfter(s.nodes[id], step) :: GoodCancel(s, BesideAfter(s.nodes[id], step)[r])
  {
    hide GoodCancel, Claims, GoodClient, GoodPlace;
    assert GoodNode(s, id, s.nodes[id]);
    ClaimsHonest(s, id, step);
  }

  lemma NodeStepGood(s: System, id: string, step: NodeStep)
    requires SystemInv(s) && Enabled(s, Of(id, step))
    ensures GoodNode(AfterNode(s, id, step), id, NodeAfter(s.nodes[id], step))
  {
    hide ClientAfter, PlaceAfter, BesideAfter, GoodClient, GoodPlace, GoodCancel, Extends, AfterNode, NodesInv,
         ServerInv, MessagesInv, IssuesInv, NodeEnabled;
    if step.Begin? {
      BeginGood(s, id, step.requestId);
    } else {
      ClientStepGood(s, id, step);
      PlaceStepGood(s, id, step);
      BesideGood(s, id, step);
      NextExtends(s, Of(id, step));
      NodeExtends(s, AfterNode(s, id, step), id, NodeAfter(s.nodes[id], step));
    }
  }

  lemma NodeStepNodes(s: System, id: string, step: NodeStep)
    requires SystemInv(s) && Enabled(s, Of(id, step))
    ensures NodesInv(AfterNode(s, id, step))
  {
    var s' := AfterNode(s, id, step);
    NodeStepGood(s, id, step);
    NextExtends(s, Of(id, step));
    hide NodeAfter, GoodNode, Extends, ServerInv, MessagesInv, IssuesInv, Sends, Claims, IssueOf;
    forall other | other in s'.nodes
      ensures GoodNode(s', other, s'.nodes[other])
    {
      if other != id {
        NodeExtends(s, s', other, s.nodes[other]);
      }
    }
  }

  /** A client's step leaves the server, its grants, and what it said alone. */
  lemma NodeStepFrame(s: System, id: string, step: NodeStep)
    requires Enabled(s, Of(id, step))
    ensures var s' := AfterNode(s, id, step);
            && s'.server == s.server && s'.grants == s.grants && s'.acks == s.acks && s'.reports == s.reports
            && s'.clock == s.clock && s'.lastStamp == s.lastStamp
            && (forall r | r in s'.requests :: r in s.requests || Sends(s.nodes[id], step) == Some(r))
            && (forall r | r in s'.begunBy :: r in s.begunBy || (step.Begin? && r == step.requestId))
  {
  }

  lemma NodeStepMessages(s: System, id: string, step: NodeStep)
    requires SystemInv(s) && Enabled(s, Of(id, step))
    ensures MessagesInv(AfterNode(s, id, step))
  {
    var s' := AfterNode(s, id, step);
    SendsHonest(s, id, step);
    NextExtends(s, Of(id, step));
    NodeStepFrame(s, id, step);
    hide AfterNode, Sends, ServerInv, NodesInv, IssuesInv, NodeEnabled;
    forall r | r in s'.requests
      ensures Honest(s', r)
    {
      HonestExtends(s, s', r);
    }
  }

  lemma ServerInvExtends(s: System, s': System)
    requires ServerInv(s) && Extends(s, s') && s'.server == s.server && s'.grants == s.grants
    requires forall r | r in s'.begunBy && r !in s.begunBy :: 0 < |r| <= 256
    ensures ServerInv(s')
  {
    hide Inv;
    assert forall lease | lease in s.grants :: GoodGrant(s, lease) ==> GoodGrant(s', lease);
  }

  lemma NodeStepServer(s: System, id: string, step: NodeStep)
    requires SystemInv(s) && Enabled(s, Of(id, step))
    ensures ServerInv(AfterNode(s, id, step))
  {
    hide AfterNode, Sends, ServerInv, MessagesInv, NodesInv, IssuesInv, Inv, Extends;
    NextExtends(s, Of(id, step));
    NodeStepFrame(s, id, step);
    assert step.Begin? ==> 0 < |step.requestId| <= 256;
    ServerInvExtends(s, AfterNode(s, id, step));
  }

  /** A published command carries the session of the lease its publisher holds. */
  lemma PublishedIssueGood(s: System, id: string, command: Command)
    requires MessagesInv(s) && NodesInv(s) && Enabled(s, Of(id, Publish(command)))
    ensures GoodIssue(s, IssueOf(s.nodes[id], command))
    ensures IssueOf(s.nodes[id], command).clientId == id
  {
    assert GoodNode(s, id, s.nodes[id]);
    assert GoodReport(s, s.nodes[id].client.latest.value);
  }

  lemma IssueExtends(s: System, s': System, issue: Issue)
    requires Extends(s, s') && GoodIssue(s, issue)
    ensures GoodIssue(s', issue)
  {
  }

  lemma NodeStepIssues(s: System, id: string, step: NodeStep)
    requires SystemInv(s) && Enabled(s, Of(id, step))
    ensures IssuesInv(AfterNode(s, id, step))
  {
    var s' := AfterNode(s, id, step);
    NextExtends(s, Of(id, step));
    NodeStepFrame(s, id, step);
    if step.Publish? {
      PublishedIssueGood(s, id, step.command);
    }
    hide ServerInv, MessagesInv, NodesInv, IssueOf, NodeEnabled, Sends, Claims, NodeAfter, GoodIssue, Extends;
    forall i | 0 <= i < |s'.issues|
      ensures GoodIssue(s', s'.issues[i])
    {
      IssueExtends(s, s', s'.issues[i]);
    }
    if s.server.hasPending {
      var i :| 0 <= i < |s.issues| && s.issues[i].command == s.server.pending;
      assert s'.issues[i] == s.issues[i];
    }
  }

  // ---------------------------------------------------------------------------------------
  // A step of the server
  // ---------------------------------------------------------------------------------------

  /** A call leaves the identity of the held lease alone, clears it, or grants a new one. */
  lemma StepHolder(s: Server, e: Event)
    requires Inv(s)
    ensures Step(s, e).rejectOperation == s.rejectOperation
    ensures var t, t' := s.status, Step(s, e).status;
            || t'.leaseId == ""
            || (e.Control? && NewLease(t, t'))
            || (t'.leaseId == t.leaseId && t'.clientId == t.clientId && t'.requestId == t.requestId)
  {
    var w := Watched(s, e.now);
    assert w.status.leaseId == "" || (w.status.leaseId == s.status.leaseId && w.status.clientId == s.status.clientId &&
           w.status.requestId == s.status.requestId);
    if s.status.leaseId == Lease(s.generation + 1) {
      LeaseInjective(LeaseNumber(s), s.generation + 1);
    }
  }

  /** An accepted answer that names a lease names the one held, before or after, by its request. */
  lemma ReplyNamesHolder(s: Server, r: Request, now: nat)
    requires Inv(s)
    ensures var (s', ack) := Requested(s, r, now);
            && ack.requestId == r.requestId && ack.operation == r.operation
            && (ack.leaseId != "" ==>
                  || (ack.leaseId == s'.status.leaseId && s'.status.requestId == r.requestId)
                  || (ack.leaseId == s.status.leaseId && s.status.requestId == r.requestId))
  {
    assert Watched(s, now).status.leaseId == "" ||
           (Watched(s, now).status.leaseId == s.status.leaseId &&
            Watched(s, now).status.requestId == s.status.requestId);
  }

  /** The lease held after a call is recorded, with its holder. */
  lemma ServerStepHolder(s: System, call: ServerStep)
    requires ServerInv(s) && ServerEnabled(s, call)
    ensures var s' := AfterServer(s, call);
            OwnedIfAny(s', s'.server.status.leaseId, s'.server.status.clientId, s'.server.status.requestId)
  {
    ServerStepExtends(s, call);
    ServerAfter(s, call);
    StepHolder(s.server, CallOf(s, call));
    if call.Serve? {
      ServeGrants(s, call.request, call.now);
    }
    hide Step, Inv, Requested, Submitted, Ticked, Watched, Decimal, GoodGrant;
  }

  lemma ServerStepGrants(s: System, call: ServerStep, lease: string)
    requires ServerInv(s) && MessagesInv(s) && ServerEnabled(s, call)
    requires lease in AfterServer(s, call).grants
    ensures GoodGrant(AfterServer(s, call), lease)
  {
    var s' := AfterServer(s, call);
    ServerStepExtends(s, call);
    ServerStepFrame(s, call);
    ServerAfter(s, call);
    if lease in s.grants {
      assert GoodGrant(s, lease);
    } else {
      ServeGrants(s, call.request, call.now);
      assert s'.server == Requested(s.server, call.request, call.now).0;
      assert Honest(s, call.request);
    }
    hide AfterServer, Inv, Requested, Step, Decimal, MessagesInv, ServerEnabled, Watched;
  }

  lemma ServerStepServer(s: System, call: ServerStep)
    requires ServerInv(s) && MessagesInv(s) && ServerEnabled(s, call)
    ensures ServerInv(AfterServer(s, call))
  {
    var s' := AfterServer(s, call);
    ServerAfter(s, call);
    StepInv(s.server, CallOf(s, call));
    StepHolder(s.server, CallOf(s, call));
    ServerStepHolder(s, call);
    ServerStepFrame(s, call);
    hide AfterServer, Step, Inv, GoodGrant, OwnedIfAny;
    forall lease | lease in s'.grants
      ensures GoodGrant(s', lease)
    {
      ServerStepGrants(s, call, lease);
    }
  }

  /** A status of a running session names its lease, its holder, and the session after the lease's number. */
  lemma EmittedReportGood(s: System, now: nat, stamp: nat)
    requires ServerInv(s) && ServerEnabled(s, Emit(now, stamp))
    ensures GoodReport(s, ReportOf(Watched(s.server, now).status, stamp))
  {
    WatchedInv(s.server, now);
    var t := Watched(s.server, now);
    if HasSession(t.status.phase) {
      assert GoodGrant(s, t.status.leaseId);
      LeaseInjective(s.grants[t.status.leaseId].number, LeaseNumber(t));
    }
  }

  /** An acknowledgement names a lease only to the request that holds it. */
  lemma ServedAckGood(s: System, r: Request, now: nat)
    requires ServerInv(s) && ServerEnabled(s, Serve(r, now, true))
    ensures GoodAck(AfterServer(s, Serve(r, now, true)), Requested(s.server, r, now).1)
  {
    var s' := AfterServer(s, Serve(r, now, true));
    ReplyNamesHolder(s.server, r, now);
    ServerStepHolder(s, Serve(r, now, true));
    ServerStepExtends(s, Serve(r, now, true));
    assert s'.server == Requested(s.server, r, now).0;
    hide Inv, Requested, GoodGrant, AfterServer;
  }

  lemma ReportExtends(s: System, s': System, report: Report)
    requires Extends(s, s') && GoodReport(s, report)
    ensures GoodReport(s', report)
  {
  }

  lemma AckExtends(s: System, s': System, ack: Ack)
    requires Extends(s, s') && GoodAck(s, ack)
    ensures GoodAck(s', ack)
  {
  }

  lemma ServerStepMessages(s: System, call: ServerStep)
    requires ServerInv(s) && MessagesInv(s) && ServerEnabled(s, call)
    ensures MessagesInv(AfterServer(s, call))
  {
    var s' := AfterServer(s, call);
    ServerStepExtends(s, call);
    ServerStepFrame(s, call);
    if call.Serve? && call.sent {
      ServedAckGood(s, call.request, call.now);
    } else if call.Emit? {
      EmittedReportGood(s, call.now, call.stamp);
      assert s'.server == Watched(s.server, call.now);
    }
    hide Inv, Requested, Watched, AfterServer, ServerInv, GoodAck, GoodReport, Honest, Extends, NewLease, ReportOf;
    forall r | r in s'.requests ensures Honest(s', r) { HonestExtends(s, s', r); }
    forall ack | ack in s'.acks
      ensures GoodAck(s', ack)
    {
      if ack in s.acks { AckExtends(s, s', ack); }
    }
    forall report | report in s'.reports
      ensures GoodReport(s', report)
    {
      if report in s.reports {
        ReportExtends(s, s', report);
      } else {
        ReportExtends(s, s', ReportOf(s'.server.status, call.stamp));
      }
    }
  }

  /** A pending command is the one just submitted, or the one that was pending before. */
  lemma StepPending(s: Server, e: Event)
    requires Inv(s) && Step(s, e).hasPending
    ensures (e.Submit? && Step(s, e).pending == e.command) || (s.hasPending && Step(s, e).pending == s.pending)
  {
    StepOutputs(s, e);
  }

  lemma ServerStepIssues(s: System, call: ServerStep)
    requires SystemInv(s) && ServerEnabled(s, call)
    ensures IssuesInv(AfterServer(s, call))
  {
    var s' := AfterServer(s, call);
    ServerStepExtends(s, call);
    ServerAfter(s, call);
    ServerStepFrame(s, call);
    assert Inv(s.server);
    hide AfterServer, Step, Inv, GoodIssue, ServerInv, MessagesInv, NodesInv, Extends;
    forall i | 0 <= i < |s'.issues|
      ensures GoodIssue(s', s'.issues[i])
    {
      IssueExtends(s, s', s.issues[i]);
    }
    if s'.server.hasPending {
      if Kept(call) {
        StepPending(s.server, CallOf(s, call));
      }
      if call.Admit? && s'.server.pending == s.issues[call.issue].command {
        assert s'.issues[call.issue].command == s'.server.pending;
      } else {
        var i :| 0 <= i < |s.issues| && s.issues[i].command == s.server.pending;
        assert s'.issues[i].command == s'.server.pending;
      }
    }
  }

  lemma ServerStepNodes(s: System, call: ServerStep)
    requires SystemInv(s) && ServerEnabled(s, call)
    ensures NodesInv(AfterServer(s, call))
  {
    ServerStepExtends(s, call);
    ServerStepFrame(s, call);
    hide AfterServer, GoodNode, Extends, ServerInv, MessagesInv, IssuesInv;
    forall id | id in s.nodes
      ensures GoodNode(AfterServer(s, call), id, s.nodes[id])
    {
      NodeExtends(s, AfterServer(s, call), id, s.nodes[id]);
    }
  }

  lemma NextInv(s: System, a: Action)
    requires SystemInv(s) && Enabled(s, a)
    ensures SystemInv(Next(s, a))
  {
    match a
    case Of(id, step) =>
      NodeStepServer(s, id, step);
      NodeStepMessages(s, id, step);
      NodeStepNodes(s, id, step);
      NodeStepIssues(s, id, step);
    case OfServer(call) =>
      ServerStepServer(s, call);
      ServerStepMessages(s, call);
      ServerStepNodes(s, call);
      ServerStepIssues(s, call);
  }

  lemma InitialInv(s: System)
    requires Initial(s)
    ensures SystemInv(s)
  {
    var seed, commandTimeoutNs, prepareTimeoutNs :|
      Startable(seed, commandTimeoutNs, prepareTimeoutNs) &&
      s.server == Started(seed, commandTimeoutNs, prepareTimeoutNs, 0);
    StartedInv(seed, commandTimeoutNs, prepareTimeoutNs, 0);
  }
}
