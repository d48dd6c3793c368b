/**
 The client of the lease server. `Client` is what the controller remembers under its lock; each function
 is one critical section. `ExternalController` is the object that updates its fields in place and is
 proved to follow them.
 */
module Controller {
  import opened Words
  import opened Wrappers
  import opened LeaseServer

  const EMERGENCY := 8

  /** A status as the client receives it. */
  datatype Report = Report(statusSeq: nat, external: bool, phase: int, clientId: string, leaseId: string,
                           generation: nat, stampNs: nat)

  datatype Client = Client(id: string, requestId: Option<string>, leaseId: string, sessionId: nat,
                           nextSequence: nat, cancelSent: bool, closed: bool,
                           acks: map<(string, int), Ack>, latest: Option<Report>)

  datatype PublishError = Closed | InvalidCommand | NotRunning | SequenceExhausted

  function NewClient(id: string): Client {
    Client(id, None, "", 0, 1, false, false, map[], None)
  }

  // ---------------------------------------------------------------------------------------
  // Statuses
  // ---------------------------------------------------------------------------------------

  predicate IsNewer(report: Report, previous: Option<Report>) {
    match previous
    case None => true
    case Some(p) =>
      if report.stampNs != p.stampNs && (report.stampNs > 0 || p.stampNs > 0) then report.stampNs > p.stampNs
      else report.statusSeq > p.statusSeq
  }

  predicate LexicographicallyAfter(a: Report, b: Report) {
    a.stampNs > b.stampNs || (a.stampNs == b.stampNs && a.statusSeq > b.statusSeq)
  }

  /** The order on statuses is the strict lexicographic one on time stamp and sequence number. */
  lemma IsNewerIsLexicographic(a: Report, b: Report)
    ensures IsNewer(a, Some(b)) <==> LexicographicallyAfter(a, b)
  {
  }

  function GotReport(c: Client, report: Report): Client {
    if !c.closed && IsNewer(report, c.latest) then c.(latest := Some(report)) else c
  }

  function GotReports(c: Client, reports: seq<Report>): Client
    decreases |reports|
  {
    if reports == [] then c
    else GotReport(GotReports(c, reports[..|reports| - 1]), reports[|reports| - 1])
  }

  /** Entry `k` is a maximum of the order, and the first one. */
  ghost predicate FirstMaximum(reports: seq<Report>, k: int) {
    && 0 <= k < |reports|
    && (forall i | 0 <= i < |reports| :: !LexicographicallyAfter(reports[i], reports[k]))
    && (forall i | 0 <= i < k :: LexicographicallyAfter(reports[k], reports[i]))
  }

  lemma {:induction false} LatestIndex(c: Client, reports: seq<Report>) returns (k: nat)
    requires !c.closed && c.latest == None && reports != []
    ensures FirstMaximum(reports, k)
    ensures GotReports(c, reports) == c.(latest := Some(reports[k]))
    decreases |reports|
  {
    var last := |reports| - 1;
    if last == 0 {
      assert GotReports(c, reports[..0]) == c;
      k := 0;
    } else {
      var before := reports[..last];
      k := LatestIndex(c, before);
      IsNewerIsLexicographic(reports[last], before[k]);
      if LexicographicallyAfter(reports[last], before[k]) {
        forall i | 0 <= i < last
          ensures LexicographicallyAfter(reports[last], reports[i])
        {
          assert !LexicographicallyAfter(before[i], before[k]);
        }
        k := last;
      }
    }
  }

  /**
   Whatever the order of delivery, the status an open controller remembers is the newest one delivered,
   and of equally new ones the one delivered first.
   */
  lemma LatestIsFirstMaximum(c: Client, reports: seq<Report>)
    requires !c.closed && c.latest == None && reports != []
    ensures exists k :: FirstMaximum(reports, k) && GotReports(c, reports).latest == Some(reports[k])
  {
    var k := LatestIndex(c, reports);
  }

  predicate AllowsPublish(c: Client, report: Option<Report>) {
    && c.requestId.Some?
    && c.leaseId != ""
    && report.Some?
    && report.value.external
    && HasSession(report.value.phase)
    && report.value.clientId == c.id
    && report.value.leaseId == c.leaseId
  }

  predicate ValidGeneration(generation: nat) {
    0 < generation <= MAX_UINT64
  }

  /** Is the latest status a RUNNING one of this session, newer than the status before the COMMIT? */
  predicate OwnsRunning(c: Client, beforeCommit: Option<Report>) {
    && AllowsPublish(c, c.latest)
    && IsNewer(c.latest.value, beforeCommit)
    && c.latest.value.phase == RUNNING
    && ValidGeneration(c.latest.value.generation)
  }

  /** Entering waits for the client's own session to run, in a status after the one that was known before the COMMIT. */
  lemma OwnsRunningExactly(c: Client, beforeCommit: Option<Report>)
    ensures OwnsRunning(c, beforeCommit) <==>
            && c.requestId.Some? && c.leaseId != "" && c.latest.Some?
            && var report := c.latest.value;
               && report.external && report.phase == RUNNING && report.clientId == c.id && report.leaseId == c.leaseId
               && 0 < report.generation <= MAX_UINT64
               && (beforeCommit.Some? ==> LexicographicallyAfter(report, beforeCommit.value))
  {
  }

  // ---------------------------------------------------------------------------------------
  // Requests and acknowledgements
  // ---------------------------------------------------------------------------------------

  function RequestOf(c: Client, operation: int): Request
    requires c.requestId.Some?
  {
    Request(2, operation, c.requestId.value, c.id, c.leaseId, "EXTERNAL")
  }

  predicate MayBegin(c: Client) {
    !c.closed && c.requestId == None
  }

  function Began(c: Client, requestId: string): Client {
    c.(requestId := Some(requestId), leaseId := "", sessionId := 0, nextSequence := 1, cancelSent := false,
       acks := map[])
  }

  function GotAck(c: Client, ack: Ack): Client {
    if !c.closed && c.requestId == Some(ack.requestId) && (ack.requestId, ack.operation) !in c.acks
    then c.(acks := c.acks[(ack.requestId, ack.operation) := ack]) else c
  }

  /** An acknowledgement is kept when it is the first of its operation for the active request; a kept one stays. */
  lemma GotAckExactly(c: Client, ack: Ack, key: (string, int))
    ensures var d := GotAck(c, ack);
            && d == c.(acks := d.acks)
            && (key in d.acks <==>
                  || key in c.acks
                  || (!c.closed && c.requestId == Some(ack.requestId) && key == (ack.requestId, ack.operation)))
            && (key in d.acks ==> d.acks[key] == if key in c.acks then c.acks[key] else ack)
  {
  }

  function GotAcks(c: Client, acks: seq<Ack>): Client
    decreases |acks|
  {
    if acks == [] then c else GotAcks(GotAck(c, acks[0]), acks[1..])
  }

  /** The first acknowledgement of an operation of a request. */
  function FirstAck(acks: seq<Ack>, requestId: string, operation: int): Option<Ack>
    decreases |acks|
  {
    if acks == [] then None
    else if acks[0].requestId == requestId && acks[0].operation == operation then Some(acks[0])
    else FirstAck(acks[1..], requestId, operation)
  }

  /** However often and in whatever order acknowledgements arrive, the first of an operation is the one that counts. */
  lemma {:induction false} FirstAckWins(c: Client, acks: seq<Ack>, requestId: string, operation: int)
    requires !c.closed && c.requestId == Some(requestId)
    ensures var d, key := GotAcks(c, acks), (requestId, operation);
            && d == c.(acks := d.acks)
            && (if key in c.acks then key in d.acks && d.acks[key] == c.acks[key]
                else match FirstAck(acks, requestId, operation)
                  case None => key !in d.acks
                  case Some(ack) => key in d.acks && d.acks[key] == ack)
    decreases |acks|
  {
    if acks != [] {
      GotAckExactly(c, acks[0], (requestId, operation));
      hide GotAck;
      FirstAckWins(GotAck(c, acks[0]), acks[1..], requestId, operation);
    }
  }

  function Entered(c: Client, report: Report): Client {
    c.(sessionId := report.generation, nextSequence := 1)
  }

  /** The one CANCEL of a request: whoever comes first claims it. */
  function CancelClaimed(c: Client): (Client, Option<Request>) {
    if c.requestId == None || c.cancelSent then (c, None)
    else (c.(cancelSent := true), Some(RequestOf(c, CANCEL)))
  }

  function CloseClaimed(c: Client): (Client, Option<Request>) {
    if c.closed then (c, None) else CancelClaimed(c.(closed := true))
  }

  function SessionCleared(c: Client): Client {
    c.(requestId := None, leaseId := "", sessionId := 0, nextSequence := 1, cancelSent := false)
  }

  /** A closed controller hears nothing more; an open one keeps a status exactly when it is newer. */
  lemma GotReportExactly(c: Client, report: Report)
    ensures var d := GotReport(c, report);
            && d == c.(latest := d.latest)
            && (d.latest == c.latest || d.latest == Some(report))
            && (!c.closed && (c.latest == None || LexicographicallyAfter(report, c.latest.value)) ==>
                  d.latest == Some(report))
            && (c.closed || (c.latest.Some? && !LexicographicallyAfter(report, c.latest.value)) ==>
                  d.latest == c.latest)
  {
  }

  /** A request begins with nothing of an earlier one; what was heard of the server stays. Ending one forgets it. */
  lemma RequestBoundaries(c: Client, requestId: string)
    ensures var b := Began(c, requestId);
            && b.requestId == Some(requestId) && b.leaseId == "" && b.sessionId == 0 && b.nextSequence == 1
            && !b.cancelSent && b.acks == map[]
            && b.latest == c.latest && b.closed == c.closed && b.id == c.id
    ensures var e := SessionCleared(c);
            && e.requestId == None && e.leaseId == "" && e.sessionId == 0 && e.nextSequence == 1 && !e.cancelSent
            && e.latest == c.latest && e.closed == c.closed && e.id == c.id
  {
  }

  // ---------------------------------------------------------------------------------------
  // Publishing
  // ---------------------------------------------------------------------------------------

  /** The session a command is published under, if the latest status allows one. */
  function PublishSession(c: Client): Option<nat> {
    if !AllowsPublish(c, c.latest) then None
    else if c.latest.value.phase == RUNNING then
      if ValidGeneration(c.latest.value.generation) then Some(c.latest.value.generation) else None
    else if c.latest.value.generation == c.sessionId then Some(c.sessionId)
    else None
  }

  /** The controller after a publish, and the command as it was sent. */
  function Published(c: Client, command: Command, valid: bool): Result<(Client, Command), PublishError> {
    if c.closed then Err(Closed)
    else if !valid then Err(InvalidCommand)
    else match PublishSession(c)
      case None => Err(NotRunning)
      case Some(session) =>
        var sequence := if session != c.sessionId then 1 else c.nextSequence;
        if sequence > MAX_UINT64 then Err(SequenceExhausted)
        else Ok((c.(sessionId := session, nextSequence := sequence + 1),
                 command.(session := session, sequence := sequence)))
  }

  /** The learned session and the latest status agree that a command may go out. */
  predicate MayPublish(c: Client) {
    && c.requestId.Some? && c.leaseId != "" && c.latest.Some?
    && var report := c.latest.value;
       && report.external && report.clientId == c.id && report.leaseId == c.leaseId
       && (|| (report.phase == RUNNING && 0 < report.generation <= MAX_UINT64)
           || (report.phase == TIMEOUT_HOLD && report.generation == c.sessionId))
  }

  /**
   A command goes out exactly when the controller is open, the command is valid, and the session is the caller's own
   and runs or was learned before it was held; it carries what the caller asked for, under the session the status
   names, numbered on from the last one of that session.
   */
  lemma PublishedExactly(c: Client, command: Command, valid: bool)
    ensures var renewed := c.latest.Some? && c.latest.value.generation != c.sessionId;
            var sequence := if renewed then 1 else c.nextSequence;
            && (Published(c, command, valid) == Err(Closed) <==> c.closed)
            && (Published(c, command, valid) == Err(InvalidCommand) <==> !c.closed && !valid)
            && (Published(c, command, valid) == Err(NotRunning) <==> !c.closed && valid && !MayPublish(c))
            && (Published(c, command, valid) == Err(SequenceExhausted) <==>
                  !c.closed && valid && MayPublish(c) && sequence > MAX_UINT64)
            && (Published(c, command, valid).Ok? ==>
                  var (after, sent) := Published(c, command, valid).value;
                  && SamePayload(sent, command)
                  && sent.session == c.latest.value.generation && sent.sequence == sequence <= MAX_UINT64
                  && after == c.(sessionId := sent.session, nextSequence := sequence + 1))
  {
  }

  // ---------------------------------------------------------------------------------------
  // The object
  // ---------------------------------------------------------------------------------------

  class ExternalController {
    const clientId: string
    var requestId: Option<string>
    var leaseId: string
    var sessionId: nat
    var nextSequence: nat
    var cancelSent: bool
    var closed: bool
    var acks: map<(string, int), Ack>
    var latestStatus: Option<Report>

    function State(): Client
      reads this
    {
      Client(clientId, requestId, leaseId, sessionId, nextSequence, cancelSent, closed, acks, latestStatus)
    }

    constructor (clientId: string)
      ensures State() == NewClient(clientId)
    {
      this.clientId := clientId;
      requestId, leaseId, sessionId, nextSequence := None, "", 0, 1;
      cancelSent, closed, acks, latestStatus := false, false, map[], None;
    }

    /** The first critical section of entering; `newRequestId` is the new request id. */
    method BeginEnter(newRequestId: string) returns (begun: bool)
      modifies this
      ensures begun == MayBegin(old(State()))
      ensures State() == if begun then Began(old(State()), newRequestId) else old(State())
    {
      if closed || requestId.Some? {
        return false;
      }
      requestId := Some(newRequestId);
      leaseId := "";
      sessionId := 0;
      nextSequence := 1;
      cancelSent := false;
      acks := map[];
      return true;
    }

    /** Stores the lease of the accepted PREPARE and remembers the status before the COMMIT. */
    method StoreLease(lease: string) returns (beforeCommit: Option<Report>)
      modifies this
      ensures State() == old(State()).(leaseId := lease)
      ensures beforeCommit == old(latestStatus)
    {
      leaseId := lease;
      beforeCommit := latestStatus;
    }

    /** The last critical section of entering. */
    method FinishEnter(report: Report)
      modifies this
      ensures State() == Entered(old(State()), report)
    {
      sessionId := report.generation;
      nextSequence := 1;
    }

    /** Decides whether this caller sends the CANCEL, and builds it. */
    method BestEffortCancel() returns (cancel: Option<Request>)
      modifies this
      ensures (State(), cancel) == CancelClaimed(old(State()))
    {
      if requestId.None? || cancelSent {
        return None;
      }
      cancelSent := true;
      cancel := Some(RequestOf(State(), CANCEL));
    }

    method Close() returns (cancel: Option<Request>)
      modifies this
      ensures (State(), cancel) == CloseClaimed(old(State()))
    {
      if closed {
        return None;
      }
      closed := true;
      var shouldCancel := requestId.Some? && !cancelSent;
      if shouldCancel {
        cancelSent := true;
        cancel := Some(RequestOf(State(), CANCEL));
      } else {
        cancel := None;
      }
    }

    method ClearSession()
      modifies this
      ensures State() == SessionCleared(old(State()))
    {
      requestId := None;
      leaseId := "";
      sessionId := 0;
      nextSequence := 1;
      cancelSent := false;
    }

    method OnAck(ack: Ack)
      modifies this
      ensures State() == GotAck(old(State()), ack)
    {
      if !closed && requestId == Some(ack.requestId) {
        var key := (ack.requestId, ack.operation);
        if key !in acks {
          acks := acks[key := ack];
        }
      }
    }

    method OnStatus(report: Report)
      modifies this
      ensures State() == GotReport(old(State()), report)
    {
      if !closed {
        if IsNewer(report, latestStatus) {
          latestStatus := Some(report);
        }
      }
    }

    /** The critical section of a publish; `valid` is the verdict of the command's validation. */
    method Publish(command: Command, valid: bool) returns (sent: Result<Command, PublishError>)
      modifies this
      ensures match Published(old(State()), command, valid)
              case Ok((after, stamped)) => State() == after && sent == Ok(stamped)
              case Err(e) => State() == old(State()) && sent == Err(e)
      ensures sent.Ok? ==> SamePayload(sent.value, command)
    {
      if closed {
        return Err(Closed);
      }
      if !valid {
        return Err(InvalidCommand);
      }
      var status := latestStatus;
      if !AllowsPublish(State(), status) {
        return Err(NotRunning);
      }
      if status.value.phase == RUNNING {
        if !ValidGeneration(status.value.generation) {
          return Err(NotRunning);
        }
        if status.value.generation != sessionId {
          sessionId := status.value.generation;
          nextSequence := 1;
        }
      } else if status.value.generation != sessionId {
        return Err(NotRunning);
      }
      if nextSequence > MAX_UINT64 {
        return Err(SequenceExhausted);
      }
      sent := Ok(command.(session := sessionId, sequence := nextSequence));
      nextSequence := nextSequence + 1;
    }
  }
}
