/**
 The EXTERNAL lease server of the production topic mock, as values: its state, its messages,
 and what each call does to the state. `Protocol` (same directory) is the object that updates
 its fields in place and is proved to follow these functions.
 */
module LeaseServer {
  import opened BodyShape
  import opened Words

  // Phases, as the wire numbers them.
  const IDLE := 0
  const ARMED := 2
  const RUNNING := 4
  const TIMEOUT_HOLD := 5

  // Request operations.
  const PREPARE := 1
  const COMMIT := 2
  const CANCEL := 3

  const LEASE_PREFIX := "mock-lease-"

  /** A binary32 value. Only the order of finite values matters to admission. */
  datatype Float32 = Finite(value: real) | Infinite | NotANumber

  function Zeros(n: nat): (s: seq<Float32>)
    ensures |s| == n
    ensures forall j | 0 <= j < n :: s[j] == Finite(0.0)
  {
    if n == 0 then [] else Zeros(n - 1) + [Finite(0.0)]
  }

  /** One value per joint slot. */
  type Row = s: seq<Float32> | |s| == SLOTS witness Zeros(SLOTS)

  const ZERO_ROW: Row := Zeros(SLOTS)

  datatype Request = Request(version: nat, operation: int, requestId: string, clientId: string,
                             leaseId: string, action: string)

  datatype Ack = Ack(requestId: string, leaseId: string, operation: int, error: int, accepted: bool)

  datatype Status = Status(statusSeq: nat, generation: nat, acceptedSequence: nat, rejectCount: nat,
                           lastValidNs: nat, phase: int, rejectCode: int,
                           requestId: string, clientId: string, leaseId: string)

  datatype Command = Command(session: nat, sequence: nat, inputStateRealUs: nat,
                             q: Row, dq: Row, tau: Row, kp: Row, kd: Row)

  datatype Output = Output(session: nat, sequence: nat, firstOutputUs: nat, q: Row)

  datatype Server = Server(status: Status, output: Output, pending: Command, hasPending: bool,
                           generation: nat, commandTimeoutNs: nat, prepareTimeoutNs: nat,
                           preparedNs: nat, overwritten: nat, rejectOperation: int)

  const DEFAULT_STATUS := Status(1, 0, 0, 0, 0, IDLE, 0, "", "", "")
  const DEFAULT_OUTPUT := Output(0, 0, 0, ZERO_ROW)
  const DEFAULT_COMMAND := Command(0, 0, 0, ZERO_ROW, ZERO_ROW, ZERO_ROW, ZERO_ROW, ZERO_ROW)

  /** The state a new server starts in. */
  function Started(seed: nat, commandTimeoutNs: nat, prepareTimeoutNs: nat, rejectOperation: int): Server {
    Server(DEFAULT_STATUS, DEFAULT_OUTPUT, DEFAULT_COMMAND, false, seed,
           commandTimeoutNs, prepareTimeoutNs, 0, 0, rejectOperation)
  }

  function Lease(number: nat): string {
    LEASE_PREFIX + Decimal(number)
  }

  lemma LeaseInjective(m: nat, n: nat)
    requires Lease(m) == Lease(n)
    ensures m == n
  {
    assert Decimal(m) == Lease(m)[|LEASE_PREFIX|..];
    assert Decimal(n) == Lease(n)[|LEASE_PREFIX|..];
    DecimalInjective(m, n);
  }

  // ---------------------------------------------------------------------------------------
  // Admission of a command
  // ---------------------------------------------------------------------------------------

  predicate Within(x: Float32, low: real, high: real) {
    x.Finite? && low <= x.value <= high
  }

  predicate JointAdmissible(c: Command, j: nat)
    requires j < SLOTS
  {
    && Within(c.q[j], -10.0, 10.0)
    && Within(c.dq[j], -50.0, 50.0)
    && Within(c.tau[j], -100.0, 100.0)
    && Within(c.kp[j], 0.0, 600.0)
    && Within(c.kd[j], 0.0, 60.0)
  }

  /** Do two commands ask the same of the joints, on the same observation? */
  predicate SamePayload(a: Command, b: Command) {
    && a.inputStateRealUs == b.inputStateRealUs
    && a.q == b.q && a.dq == b.dq && a.tau == b.tau && a.kp == b.kp && a.kd == b.kd
  }

  predicate HasSession(phase: int) {
    phase == RUNNING || phase == TIMEOUT_HOLD
  }

  predicate IdentityAdmissible(s: Server, c: Command) {
    && HasSession(s.status.phase)
    && c.session == s.status.generation
    && c.sequence > s.status.acceptedSequence
    && c.sequence != 0
    && c.inputStateRealUs != 0
  }

  predicate Admissible(s: Server, c: Command) {
    && IdentityAdmissible(s, c)
    && forall j: nat | j < SLOTS && j != ABSENT_SLOT :: JointAdmissible(c, j)
  }

  // ---------------------------------------------------------------------------------------
  // What each call does
  // ---------------------------------------------------------------------------------------

  function WithoutEvidence(o: Output): Output {
    o.(session := 0, sequence := 0, firstOutputUs := 0)
  }

  function Cleared(s: Server): Server {
    s.(status := DEFAULT_STATUS.(statusSeq := s.status.statusSeq + 1, rejectCount := s.status.rejectCount),
       hasPending := false, preparedNs := 0, output := WithoutEvidence(s.output))
  }

  function Held(s: Server): Server {
    s.(status := s.status.(phase := TIMEOUT_HOLD, statusSeq := s.status.statusSeq + 1),
       hasPending := false, output := WithoutEvidence(s.output))
  }

  function Watched(s: Server, now: nat): Server {
    if s.status.phase == ARMED && SubU64(now, s.preparedNs) >= s.prepareTimeoutNs then Cleared(s)
    else if s.status.phase == RUNNING && SubU64(now, s.status.lastValidNs) >= s.commandTimeoutNs then Held(s)
    else s
  }

  function Reply(s: Server, r: Request, error: int): Ack {
    Ack(r.requestId, if error != 0 then "" else s.status.leaseId, r.operation, error, error == 0)
  }

  predicate WellIdentified(r: Request) {
    && 0 < |r.requestId| <= 256
    && 0 < |r.clientId| <= 256
    && PREPARE <= r.operation <= CANCEL
  }

  function Armed(s: Server, r: Request, now: nat): Server {
    s.(generation := s.generation + 1, preparedNs := now,
       status := s.status.(requestId := r.requestId, clientId := r.clientId,
                           leaseId := Lease(s.generation + 1), phase := ARMED,
                           statusSeq := s.status.statusSeq + 1))
  }

  function Activated(s: Server, now: nat): Server {
    s.(generation := s.generation + 1,
       status := s.status.(generation := s.generation + 1, phase := RUNNING, lastValidNs := now,
                           statusSeq := s.status.statusSeq + 1))
  }

  /** A request met by a server whose watchdog has just run. */
  function Handled(s: Server, r: Request, now: nat): (Server, Ack) {
    if r.version != 2 then (s, Reply(s, r, 1001))
    else if !WellIdentified(r) then (s, Reply(s, r, 1002))
    else if r.action != "EXTERNAL" || r.operation == s.rejectOperation then (s, Reply(s, r, 1003))
    else if r.operation == PREPARE then
      if s.status.clientId != "" then
        if r.clientId != s.status.clientId then (s, Reply(s, r, 1008))
        else if r.requestId != s.status.requestId then (s, Reply(s, r, 1004))
        else (s, Reply(s, r, 0))
      else if s.generation == MAX_UINT64 then (s, Reply(s, r, 1009))
      else (Armed(s, r, now), Reply(Armed(s, r, now), r, 0))
    else if r.operation == CANCEL && s.status.clientId == "" then (s, Reply(s, r, 0))
    else if s.status.clientId != r.clientId then (s, Reply(s, r, 1005))
    else if s.status.requestId != r.requestId then (s, Reply(s, r, 1004))
    else if r.leaseId != s.status.leaseId then (s, Reply(s, r, 1006))
    else if r.operation == CANCEL then (Cleared(s), Reply(s, r, 0))
    else if HasSession(s.status.phase) then (s, Reply(s, r, 0))
    else if s.status.phase != ARMED then (s, Reply(s, r, 1007))
    else if s.generation == MAX_UINT64 then (s, Reply(s, r, 1009))
    else (Activated(s, now), Reply(s, r, 0))
  }

  function Requested(s: Server, r: Request, now: nat): (Server, Ack) {
    Handled(Watched(s, now), r, now)
  }

  function Admitted(s: Server, c: Command, now: nat): Server {
    s.(overwritten := if s.hasPending then s.overwritten + 1 else s.overwritten,
       pending := c, hasPending := true,
       status := s.status.(acceptedSequence := c.sequence, lastValidNs := now, phase := RUNNING,
                           rejectCode := 0, statusSeq := s.status.statusSeq + 1))
  }

  function Refused(s: Server): Server {
    s.(status := s.status.(rejectCount := s.status.rejectCount + 1, rejectCode := 1,
                           statusSeq := s.status.statusSeq + 1))
  }

  /** Does the server take the command `c` at time `now`? */
  predicate Takes(s: Server, c: Command, now: nat) {
    Admissible(Watched(s, now), c)
  }

  function Submitted(s: Server, c: Command, now: nat): Server {
    var w := Watched(s, now);
    if Admissible(w, c) then Admitted(w, c, now) else Refused(w)
  }

  /** Does a tick at time `now` apply the pending command? */
  predicate Applies(s: Server, now: nat) {
    var w := Watched(s, now);
    w.hasPending && w.status.phase == RUNNING
  }

  function Ticked(s: Server, now: nat, wallUs: nat): Server {
    var w := Watched(s, now);
    if Applies(s, now) then
      w.(output := Output(w.pending.session, w.pending.sequence, wallUs, w.pending.q), hasPending := false)
    else w
  }
}
