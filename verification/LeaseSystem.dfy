/**
 The lease server and any number of clients, joined by a network. Every message ever handed to the
 transport stays in the network and may be delivered at any later time, any number of times, or never:
 messages are delayed, dropped, repeated and reordered at will.

 A client is its controller, one session thread that enters and leaves, and any number of threads that
 publish, deliver messages, close, or call exit while the session thread is inside a call of its own and
 give up before the session is cleared. Every call is cut where its thread does not hold the lock.
 */
module LeaseSystem {
  import opened Words
  import opened Wrappers
  import opened LeaseServer
  import opened LeaseRuns
  import opened Controller

  /** Where the session thread of a client stands; `requestId` is the identity it works for. */
  datatype Place =
    | Outside
    | SendingPrepare(requestId: string)
    | AwaitingPrepare(requestId: string)
    | Prepared(requestId: string, ack: Ack)
    | SendingCommit(requestId: string, beforeCommit: Option<Report>)
    | AwaitingCommit(requestId: string, beforeCommit: Option<Report>)
    | AwaitingRunning(requestId: string, beforeCommit: Option<Report>)
    | SeesRunning(requestId: string, report: Report)
    | EntryFailed(requestId: string)
    | Leaving(requestId: string)
    | Cancelling(requestId: string, cancel: Request, leaving: bool)
    | AwaitingCancel(requestId: string)
    | AwaitingIdle(requestId: string)
    | SeesIdle(requestId: string)
  {
    predicate InEntry() {
      SendingPrepare? || AwaitingPrepare? || Prepared? || SendingCommit? || AwaitingCommit? ||
      AwaitingRunning? || SeesRunning?
    }
  }

  /** `beside` holds, by request, the CANCELs that other threads have claimed and not yet handed to the transport. */
  datatype Node = Node(client: Client, place: Place, beside: map<string, Request>)

  /** Who a lease was granted to, and the counter value it was made from. */
  datatype Grant = Grant(clientId: string, requestId: string, number: nat)

  /** A command as it was assigned its identity, with the lease its publisher held, and what the caller asked for. */
  datatype Issue = Issue(command: Command, clientId: string, requestId: string, leaseId: string, asked: Command)

  /**
   The last eight fields are a record of what happened: who began each request, who was granted each
   lease, every identity assigned to a command, the leases of the CANCELs claimed and handed over for each
   request, the lease each COMMIT carried, the requests whose CANCEL was claimed before their lease was
   stored, and the leases a command was published under before entering had returned.
   */
  datatype System = System(
    server: Server, clock: nat, lastStamp: nat, nodes: map<string, Node>,
    requests: set<Request>, acks: set<Ack>, reports: set<Report>,
    begunBy: map<string, string>, grants: map<string, Grant>, issues: seq<Issue>,
    claimed: map<string, seq<string>>, handed: map<string, seq<string>>, committed: map<string, string>,
    overtaken: set<string>, early: set<string>)

  /** One step of a client; the first group is its session thread, the last its other threads. */
  datatype NodeStep =
    | Begin(requestId: string)
    | SendPrepare
    | TakePrepareAck
    | StoreLease
    | SendCommit
    | TakeCommitAck
    | TakeRunning
    | FinishEntry
    | FailEntry
    | BeginExit
    | ClaimCancel
    | HandCancel
    | TakeCancelAck
    | TakeIdle
    | FinishExit
    | AbandonExit
    | Close
    | ExitBeside
    | HandBeside(requestId: string)
    | Publish(command: Command)
    | HearAck(ack: Ack)
    | HearReport(report: Report)

  /** One call of the server, or the status step of its main loop. */
  datatype ServerStep =
    | Serve(request: Request, now: nat, sent: bool)
    | Admit(issue: nat, now: nat)
    | Apply(now: nat, wallUs: nat)
    | Emit(now: nat, stamp: nat)

  datatype Action = Of(id: string, step: NodeStep) | OfServer(call: ServerStep)

  function ReportOf(t: Status, stamp: nat): Report {
    Report(t.statusSeq, HasSession(t.phase), t.phase, t.clientId, t.leaseId, t.generation, stamp)
  }

  // ---------------------------------------------------------------------------------------
  // Steps
  // ---------------------------------------------------------------------------------------

  predicate AckReady(n: Node, operation: int) {
    !n.client.closed && !n.place.Outside? && (n.place.requestId, operation) in n.client.acks
  }

  predicate IsIdle(report: Option<Report>) {
    report.Some? && !report.value.external && (report.value.phase == IDLE || report.value.phase == EMERGENCY)
  }

  predicate NodeEnabled(n: Node, step: NodeStep) {
    match step
    case Begin(requestId) => n.place.Outside? && MayBegin(n.client) && 0 < |requestId| <= 256
    case SendPrepare => n.place.SendingPrepare? && n.client.requestId.Some?
    case TakePrepareAck => n.place.AwaitingPrepare? && AckReady(n, PREPARE)
    case StoreLease => n.place.Prepared?
    case SendCommit => n.place.SendingCommit? && n.client.requestId.Some?
    case TakeCommitAck => n.place.AwaitingCommit? && AckReady(n, COMMIT)
    case TakeRunning => n.place.AwaitingRunning? && !n.client.closed && OwnsRunning(n.client, n.place.beforeCommit)
    case FinishEntry => n.place.SeesRunning?
    case FailEntry => n.place.InEntry()
    case BeginExit => n.place.Outside? && !n.client.closed && n.client.requestId.Some?
    case ClaimCancel => n.place.EntryFailed? || n.place.Leaving?
    case HandCancel => n.place.Cancelling?
    case TakeCancelAck => n.place.AwaitingCancel? && AckReady(n, CANCEL)
    case TakeIdle => n.place.AwaitingIdle? && !n.client.closed && IsIdle(n.client.latest)
    case FinishExit => n.place.SeesIdle?
    case AbandonExit => n.place.AwaitingCancel? || n.place.AwaitingIdle?
    case Close => true
    case ExitBeside => !n.client.closed && n.client.requestId.Some?
    case HandBeside(requestId) => requestId in n.beside
    case Publish(command) => Published(n.client, command, true).Ok?
    case HearAck(_) => true
    case HearReport(_) => true
  }

  predicate ServerEnabled(s: System, call: ServerStep) {
    && s.clock <= call.now < TWO_TO_THE_64
    && (call.Serve? ==> call.request in s.requests)
    && (call.Admit? ==> call.issue < |s.issues|)
    && (call.Emit? ==> s.lastStamp <= call.now <= call.stamp < TWO_TO_THE_64)
  }

  predicate Enabled(s: System, a: Action) {
    match a
    case Of(id, step) =>
      && id in s.nodes
      && NodeEnabled(s.nodes[id], step)
      && (step.Begin? ==> step.requestId !in s.begunBy)
      && (step.HearAck? ==> step.ack in s.acks)
      && (step.HearReport? ==> step.report in s.reports)
    case OfServer(call) => ServerEnabled(s, call)
  }

  /** The controller after a step of its client. */
  function ClientAfter(n: Node, step: NodeStep): Client
    requires NodeEnabled(n, step)
  {
    var c := n.client;
    match step
    case Begin(requestId) => Began(c, requestId)
    case StoreLease => c.(leaseId := n.place.ack.leaseId)
    case FinishEntry => Entered(c, n.place.report)
    case ClaimCancel => CancelClaimed(c).0
    case FinishExit => SessionCleared(c)
    case Close => CloseClaimed(c).0
    case ExitBeside => CancelClaimed(c).0
    case Publish(command) => Published(c, command, true).value.0
    case HearAck(ack) => GotAck(c, ack)
    case HearReport(report) => GotReport(c, report)
    case _ => c
  }

  /** Where the session thread stands after a step of its client. */
  function PlaceAfter(n: Node, step: NodeStep): Place
    requires NodeEnabled(n, step)
  {
    var c, p := n.client, n.place;
    match step
    case Begin(requestId) => SendingPrepare(requestId)
    case SendPrepare => AwaitingPrepare(p.requestId)
    case TakePrepareAck =>
      var ack := c.acks[(p.requestId, PREPARE)];
      if ack.accepted && ack.leaseId != "" then Prepared(p.requestId, ack) else EntryFailed(p.requestId)
    case StoreLease => SendingCommit(p.requestId, c.latest)
    case SendCommit => AwaitingCommit(p.requestId, p.beforeCommit)
    case TakeCommitAck =>
      var ack := c.acks[(p.requestId, COMMIT)];
      if ack.accepted && (ack.leaseId == "" || ack.leaseId == c.leaseId)
      then AwaitingRunning(p.requestId, p.beforeCommit) else EntryFailed(p.requestId)
    case TakeRunning => SeesRunning(p.requestId, c.latest.value)
    case FinishEntry => Outside
    case FailEntry => EntryFailed(p.requestId)
    case BeginExit => Leaving(c.requestId.value)
    case ClaimCancel =>
      (match CancelClaimed(c).1
       case Some(request) => Cancelling(p.requestId, request, p.Leaving?)
       case None => if p.Leaving? then AwaitingCancel(p.requestId) else Outside)
    case HandCancel => if p.leaving then AwaitingCancel(p.requestId) else Outside
    case TakeCancelAck => if c.acks[(p.requestId, CANCEL)].accepted then AwaitingIdle(p.requestId) else Outside
    case TakeIdle => SeesIdle(p.requestId)
    case FinishExit => Outside
    case AbandonExit => Outside
    case _ => p
  }

  /** The CANCEL a step claims. */
  function Claims(n: Node, step: NodeStep): Option<Request> {
    match step
    case ClaimCancel => CancelClaimed(n.client).1
    case Close => CloseClaimed(n.client).1
    case ExitBeside => CancelClaimed(n.client).1
    case _ => None
  }

  function BesideAfter(n: Node, step: NodeStep): map<string, Request> {
    match step
    case HandBeside(requestId) => n.beside - {requestId}
    case _ =>
      var claim := Claims(n, step);
      if !step.ClaimCancel? && claim.Some? then n.beside[claim.value.requestId := claim.value] else n.beside
  }

  function NodeAfter(n: Node, step: NodeStep): Node
    requires NodeEnabled(n, step)
  {
    Node(ClientAfter(n, step), PlaceAfter(n, step), BesideAfter(n, step))
  }

  function Extended(m: map<string, seq<string>>, key: string, entry: string): map<string, seq<string>> {
    m[key := (if key in m then m[key] else []) + [entry]]
  }

  /** The request a step hands to the transport. */
  function Sends(n: Node, step: NodeStep): Option<Request>
    requires NodeEnabled(n, step)
  {
    match step
    case SendPrepare => Some(RequestOf(n.client, PREPARE))
    case SendCommit => Some(RequestOf(n.client, COMMIT))
    case HandCancel => Some(n.place.cancel)
    case HandBeside(requestId) => Some(n.beside[requestId])
    case _ => None
  }

  function IssueOf(n: Node, command: Command): Issue
    requires Published(n.client, command, true).Ok?
  {
    Issue(Published(n.client, command, true).value.1, n.client.id, n.client.requestId.value, n.client.leaseId,
          command)
  }

  function AfterNode(s: System, id: string, step: NodeStep): System
    requires Enabled(s, Of(id, step))
  {
    var n := s.nodes[id];
    var sends, claims := Sends(n, step), Claims(n, step);
    s.(nodes := s.nodes[id := NodeAfter(n, step)],
       requests := if sends.Some? then s.requests + {sends.value} else s.requests,
       handed := if sends.Some? && sends.value.operation == CANCEL
                 then Extended(s.handed, sends.value.requestId, sends.value.leaseId) else s.handed,
       claimed := if claims.Some? then Extended(s.claimed, claims.value.requestId, claims.value.leaseId)
                  else s.claimed,
       begunBy := if step.Begin? then s.begunBy[step.requestId := id] else s.begunBy,
       committed := if step.SendCommit? then s.committed[n.place.requestId := n.client.leaseId] else s.committed,
       overtaken := if step.StoreLease? && n.client.cancelSent then s.overtaken + {n.place.requestId} else s.overtaken,
       issues := if step.Publish? then s.issues + [IssueOf(n, step.command)] else s.issues,
       early := if step.Publish? && n.place.InEntry() then s.early + {n.client.leaseId} else s.early)
  }

  /** The server after a call. It keeps what a request did only when the acknowledgement was published. */
  function ServerAfterCall(s: System, call: ServerStep): Server
    requires ServerEnabled(s, call)
  {
    match call
    case Serve(request, now, sent) => if sent then Requested(s.server, request, now).0 else s.server
    case Admit(issue, now) => Submitted(s.server, s.issues[issue].command, now)
    case Apply(now, wallUs) => Ticked(s.server, now, wallUs)
    case Emit(now, _) => Watched(s.server, now)
  }

  function AfterServer(s: System, call: ServerStep): System
    requires ServerEnabled(s, call)
  {
    var server := ServerAfterCall(s, call);
    s.(server := server,
       clock := call.now,
       lastStamp := if call.Emit? then call.stamp else s.lastStamp,
       reports := if call.Emit? then s.reports + {ReportOf(server.status, call.stamp)} else s.reports,
       acks := if call.Serve? && call.sent then s.acks + {Requested(s.server, call.request, call.now).1} else s.acks,
       grants := if call.Serve? && NewLease(s.server.status, server.status)
                 then s.grants[server.status.leaseId :=
                                 Grant(call.request.clientId, call.request.requestId, server.generation)]
                 else s.grants)
  }

  function Next(s: System, a: Action): System
    requires Enabled(s, a)
  {
    match a
    case Of(id, step) => AfterNode(s, id, step)
    case OfServer(call) => AfterServer(s, call)
  }

  ghost predicate Initial(s: System) {
    && (exists seed, commandTimeoutNs, prepareTimeoutNs ::
          Startable(seed, commandTimeoutNs, prepareTimeoutNs) &&
          s.server == Started(seed, commandTimeoutNs, prepareTimeoutNs, 0))
    && s.clock == s.lastStamp == 0
    && (forall id | id in s.nodes :: id != "" && s.nodes[id] == Node(NewClient(id), Outside, map[]))
    && s.requests == {} && s.acks == {} && s.reports == {}
    && s.begunBy == map[] && s.grants == map[] && s.issues == []
    && s.claimed == map[] && s.handed == map[] && s.committed == map[]
    && s.overtaken == {} && s.early == {}
  }
}
