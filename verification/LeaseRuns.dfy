/**
 What the lease server keeps over every run: the calls that reach it come in any order and any
 number, and a history records what an observer sees.
 */
module LeaseRuns {
  import opened Words
  import opened LeaseServer

  datatype Event =
    | Control(request: Request, now: nat)
    | Submit(command: Command, now: nat)
    | Apply(now: nat, wallUs: nat)
    | Poll(now: nat)

  function Step(s: Server, e: Event): Server {
    match e
    case Control(r, now) => Requested(s, r, now).0
    case Submit(c, now) => Submitted(s, c, now)
    case Apply(now, wallUs) => Ticked(s, now, wallUs)
    case Poll(now) => Watched(s, now)
  }

  // ---------------------------------------------------------------------------------------
  // The inductive invariant of the state
  // ---------------------------------------------------------------------------------------

  /** The number of the lease that is held: the one before the session's once a session runs. */
  function LeaseNumber(s: Server): int {
    if HasSession(s.status.phase) then s.generation - 1 else s.generation
  }

  predicate IdleIffUnowned(t: Status) {
    && (t.phase == IDLE <==> t.clientId == "")
    && (t.phase == IDLE <==> t.requestId == "")
    && (t.phase == IDLE <==> t.leaseId == "")
  }

  ghost predicate Inv(s: Server) {
    && 0 < s.generation <= MAX_UINT64
    && s.commandTimeoutNs > 0 && s.prepareTimeoutNs > 0
    && s.status.phase in {IDLE, ARMED, RUNNING, TIMEOUT_HOLD}
    && IdleIffUnowned(s.status)
    && |s.status.clientId| <= 256 && |s.status.requestId| <= 256
    && (s.status.phase != IDLE ==> LeaseNumber(s) > 0 && s.status.leaseId == Lease(LeaseNumber(s)))
    && s.status.generation == (if HasSession(s.status.phase) then s.generation else 0)
    && (!HasSession(s.status.phase) ==> s.status.acceptedSequence == 0)
    && (s.hasPending ==>
          && s.status.phase == RUNNING
          && s.pending.session == s.status.generation
          && s.pending.sequence == s.status.acceptedSequence > 0
          && s.output.sequence < s.pending.sequence)
    && (s.status.phase != RUNNING ==>
          s.output.session == s.output.sequence == s.output.firstOutputUs == 0)
    && (s.output.session == 0 ==> s.output.sequence == 0)
    && (s.output.session != 0 ==>
          && s.output.session == s.status.generation
          && 0 < s.output.sequence <= s.status.acceptedSequence)
  }

  lemma StartedInv(seed: nat, commandTimeoutNs: nat, prepareTimeoutNs: nat, rejectOperation: int)
    requires 0 < seed <= MAX_UINT64 && commandTimeoutNs > 0 && prepareTimeoutNs > 0
    ensures Inv(Started(seed, commandTimeoutNs, prepareTimeoutNs, rejectOperation))
  {
  }

  lemma WatchedInv(s: Server, now: nat)
    requires Inv(s)
    ensures Inv(Watched(s, now))
  {
  }

  lemma HandledInv(s: Server, r: Request, now: nat)
    requires Inv(s)
    ensures Inv(Handled(s, r, now).0)
  {
  }

  lemma StepInv(s: Server, e: Event)
    requires Inv(s)
    ensures Inv(Step(s, e))
  {
    WatchedInv(s, e.now);
    if e.Control? {
      HandledInv(Watched(s, e.now), e.request, e.now);
    }
  }

  // ---------------------------------------------------------------------------------------
  // Requests are idempotent
  // ---------------------------------------------------------------------------------------

  /** The same request twice at one time: the second changes nothing and is answered alike. */
  lemma RequestIdempotent(s: Server, r: Request, now: nat)
    requires Inv(s)
    ensures var (once, ack) := Requested(s, r, now);
            var (twice, again) := Requested(once, r, now);
            twice == once && again.error == ack.error && again.accepted == ack.accepted
  {
    WatchedInv(s, now);
  }

  // ---------------------------------------------------------------------------------------
  // The status sequence orders the statuses
  // ---------------------------------------------------------------------------------------

  lemma StatusChangeRaisesSequence(s: Server, e: Event)
    ensures s.status.statusSeq <= Step(s, e).status.statusSeq
    ensures Step(s, e).status != s.status ==> s.status.statusSeq < Step(s, e).status.statusSeq
  {
    assert s.status.statusSeq <= Watched(s, e.now).status.statusSeq;
    assert Watched(s, e.now).status != s.status ==> s.status.statusSeq < Watched(s, e.now).status.statusSeq;
  }

  // ---------------------------------------------------------------------------------------
  // Histories
  // ---------------------------------------------------------------------------------------

  /**
   `statuses` holds the status after every call, `leases` and `sessions` each new lease and session
   in the order they appeared, `numbers` the counter value behind each lease, `discarded` how many
   commands were dropped by a watchdog or a CANCEL before a tick.
   */
  datatype History = History(server: Server, statuses: seq<Status>,
                             accepted: seq<Command>, acceptedAt: seq<nat>,
                             applied: seq<Output>, appliedAt: seq<nat>, source: seq<nat>,
                             discarded: nat,
                             leases: seq<string>, numbers: seq<nat>, sessions: seq<nat>)

  function Begun(s: Server): History {
    History(s, [s.status], [], [], [], [], [], 0, [], [], [])
  }

  function Lost(before: Server, after: Server): nat {
    if before.hasPending && !after.hasPending then 1 else 0
  }

  /** Commands dropped by the call `e`: by its watchdog, or by the CANCEL it carries. */
  function Discards(s: Server, e: Event): nat {
    Lost(s, Watched(s, e.now)) + if e.Control? then Lost(Watched(s, e.now), Step(s, e)) else 0
  }

  function Log<T>(entries: seq<T>, happened: bool, entry: T): seq<T> {
    if happened then entries + [entry] else entries
  }

  predicate TakesNow(s: Server, e: Event) {
    e.Submit? && Takes(s, e.command, e.now)
  }

  predicate AppliesNow(s: Server, e: Event) {
    e.Apply? && Applies(s, e.now)
  }

  predicate NewLease(before: Status, after: Status) {
    after.leaseId != "" && after.leaseId != before.leaseId
  }

  predicate NewSession(before: Status, after: Status) {
    after.generation != 0 && after.generation != before.generation
  }

  function Record(h: History, e: Event): History {
    var s := h.server;
    var s' := Step(s, e);
    History(s', h.statuses + [s'.status],
            if TakesNow(s, e) then h.accepted + [e.command] else h.accepted,
            Log(h.acceptedAt, TakesNow(s, e), e.now),
            Log(h.applied, AppliesNow(s, e), s'.output),
            Log(h.appliedAt, AppliesNow(s, e), e.now),
            if AppliesNow(s, e) && |h.accepted| > 0 then h.source + [|h.accepted| - 1] else h.source,
            h.discarded + Discards(s, e),
            Log(h.leases, NewLease(s.status, s'.status), s'.status.leaseId),
            Log(h.numbers, NewLease(s.status, s'.status), s'.generation),
            Log(h.sessions, NewSession(s.status, s'.status), s'.status.generation))
  }

  function Replay(h: History, events: seq<Event>): History
    decreases |events|
  {
    if events == [] then h
    else Record(Replay(h, events[..|events| - 1]), events[|events| - 1])
  }

  predicate Before(a: Output, b: Output) {
    a.session < b.session || (a.session == b.session && a.sequence < b.sequence)
  }

  ghost predicate Increasing(ns: seq<nat>) {
    forall i, j | 0 <= i < j < |ns| :: ns[i] < ns[j]
  }

  ghost predicate InOrder(os: seq<Output>) {
    forall i, j | 0 <= i < j < |os| :: Before(os[i], os[j])
  }

  /** Does the output `o` show the command `c`, and nothing else? */
  predicate Shows(o: Output, c: Command) {
    o.session == c.session && o.sequence == c.sequence && o.q == c.q
  }

  /** Is the output `o` behind everything the state `s` may still apply? */
  predicate Behind(o: Output, s: Server) {
    && o.session <= s.generation
    && (HasSession(s.status.phase) && o.session == s.status.generation ==>
          && o.sequence <= s.status.acceptedSequence
          && (s.hasPending ==> o.sequence < s.pending.sequence))
  }

  /** The accepted commands a state still accounts for itself. */
  function Account(s: Server): nat {
    s.overwritten + if s.hasPending then 1 else 0
  }

  /** Each output in order shows the accepted command it came from. */
  ghost predicate Logged(accepted: seq<Command>, acceptedAt: seq<nat>, applied: seq<Output>, appliedAt: seq<nat>,
                         source: seq<nat>) {
    && |applied| == |appliedAt| == |source|
    && |accepted| == |acceptedAt|
    && (forall k | 0 <= k < |applied| :: source[k] < |accepted| && Shows(applied[k], accepted[source[k]]))
    && InOrder(applied)
  }

  ghost predicate LogInv(h: History) {
    Logged(h.accepted, h.acceptedAt, h.applied, h.appliedAt, h.source)
  }

  ghost predicate AppliedInv(h: History) {
    var s := h.server;
    && LogInv(h)
    && (s.hasPending ==> |h.accepted| > 0 && s.pending == h.accepted[|h.accepted| - 1])
    && (h.applied != [] ==> Behind(h.applied[|h.applied| - 1], s))
  }

  ghost predicate Conserved(h: History) {
    |h.accepted| == |h.applied| + h.discarded + Account(h.server)
  }

  ghost predicate GrantsInv(h: History) {
    && |h.leases| == |h.numbers|
    && Increasing(h.numbers) && Increasing(h.sessions)
    && (forall k | 0 <= k < |h.numbers| :: h.numbers[k] <= h.server.generation && h.leases[k] == Lease(h.numbers[k]))
    && (forall k | 0 <= k < |h.sessions| :: h.sessions[k] <= h.server.generation)
  }

  predicate Ordered(a: Status, b: Status) {
    && a.statusSeq <= b.statusSeq
    && (a.statusSeq == b.statusSeq ==> a == b)
  }

  ghost predicate StatusesInv(h: History) {
    && |h.statuses| > 0
    && h.statuses[|h.statuses| - 1] == h.server.status
    && forall i, j | 0 <= i < j < |h.statuses| :: Ordered(h.statuses[i], h.statuses[j])
  }

  ghost predicate HistoryInv(h: History) {
    && Inv(h.server)
    && AppliedInv(h)
    && Conserved(h)
    && GrantsInv(h)
    && StatusesInv(h)
  }

  lemma RecordStatuses(h: History, e: Event)
    requires StatusesInv(h)
    ensures StatusesInv(Record(h, e))
  {
    StatusChangeRaisesSequence(h.server, e);
    var h' := Record(h, e);
    forall i, j | 0 <= i < j < |h'.statuses|
      ensures Ordered(h'.statuses[i], h'.statuses[j])
    {
      if j == |h.statuses| && i < |h.statuses| - 1 {
        assert Ordered(h.statuses[i], h.server.status);
      }
    }
  }

  /** New leases and new sessions take their number from the counter, which only grows. */
  lemma StepGrants(s: Server, e: Event)
    requires Inv(s)
    ensures s.generation <= Step(s, e).generation
    ensures NewLease(s.status, Step(s, e).status) ==>
              s.generation < Step(s, e).generation && Step(s, e).status.leaseId == Lease(Step(s, e).generation)
    ensures NewSession(s.status, Step(s, e).status) ==>
              s.generation < Step(s, e).generation == Step(s, e).status.generation
  {
    WatchedInv(s, e.now);
  }

  lemma RecordGrants(h: History, e: Event)
    requires Inv(h.server) && GrantsInv(h)
    ensures GrantsInv(Record(h, e))
  {
    StepGrants(h.server, e);
    hide Step;
  }

  /** Every call moves commands between the accounts and loses none. */
  lemma StepKeepsCount(s: Server, e: Event)
    requires Inv(s)
    ensures Account(s) + (if TakesNow(s, e) then 1 else 0) ==
            Account(Step(s, e)) + Discards(s, e) + (if AppliesNow(s, e) then 1 else 0)
  {
    WatchedInv(s, e.now);
  }

  lemma RecordConserved(h: History, e: Event)
    requires Inv(h.server) && AppliedInv(h) && Conserved(h)
    ensures Conserved(Record(h, e))
  {
    StepKeepsCount(h.server, e);
  }

  /** A tick shows the pending command; every other call leaves the log of outputs alone. */
  lemma TickShowsPending(s: Server, now: nat, wallUs: nat)
    requires Inv(s) && Applies(s, now)
    ensures Watched(s, now) == s && s.hasPending
    ensures Shows(Ticked(s, now, wallUs).output, s.pending)
    ensures !Ticked(s, now, wallUs).hasPending && Ticked(s, now, wallUs).status == s.status
  {
  }

  lemma StaysBehind(o: Output, s: Server, e: Event)
    requires Inv(s) && Behind(o, s)
    ensures Behind(o, Step(s, e))
  {
    WatchedInv(s, e.now);
    assert Behind(o, Watched(s, e.now));
  }

  /** What one call means for the log of outputs. */
  lemma StepOutputs(s: Server, e: Event)
    requires Inv(s)
    ensures AppliesNow(s, e) ==>
              && s.hasPending && !Step(s, e).hasPending
              && Shows(Step(s, e).output, s.pending) && Behind(Step(s, e).output, Step(s, e))
    ensures Step(s, e).hasPending && !TakesNow(s, e) ==> s.hasPending && Step(s, e).pending == s.pending
    ensures Step(s, e).hasPending && TakesNow(s, e) ==> Step(s, e).pending == e.command
  {
    if AppliesNow(s, e) {
      TickShowsPending(s, e.now, e.wallUs);
    } else {
      assert Watched(s, e.now).hasPending ==> Watched(s, e.now).pending == s.pending;
    }
  }

  /** An output behind the state is before whatever that state applies next. */
  lemma BehindIsBefore(o: Output, s: Server, e: Event)
    requires Inv(s) && Behind(o, s) && AppliesNow(s, e)
    ensures Before(o, Step(s, e).output)
  {
    TickShowsPending(s, e.now, e.wallUs);
  }

  /** An output after the last one is after all of them. */
  lemma InOrderAppends(os: seq<Output>, o: Output)
    requires InOrder(os) && (os != [] ==> Before(os[|os| - 1], o))
    ensures InOrder(os + [o])
  {
    forall i | 0 <= i < |os|
      ensures Before(os[i], o)
    {
      assert i < |os| - 1 ==> Before(os[i], os[|os| - 1]);
    }
  }

  lemma LogTakes(h: History, c: Command, now: nat)
    requires LogInv(h)
    ensures Logged(h.accepted + [c], h.acceptedAt + [now], h.applied, h.appliedAt, h.source)
  {
    hide InOrder, Shows;
  }

  lemma LogApplies(h: History, o: Output, now: nat)
    requires LogInv(h) && |h.accepted| > 0 && Shows(o, h.accepted[|h.accepted| - 1])
    requires h.applied != [] ==> Before(h.applied[|h.applied| - 1], o)
    ensures Logged(h.accepted, h.acceptedAt, h.applied + [o], h.appliedAt + [now], h.source + [|h.accepted| - 1])
  {
    hide Shows, Before, InOrder;
    InOrderAppends(h.applied, o);
  }

  lemma RecordApplied(h: History, e: Event)
    requires Inv(h.server) && AppliedInv(h)
    ensures AppliedInv(Record(h, e))
  {
    hide Step, Inv, Applies, Takes, Behind, Before, Logged, Shows, Discards, NewLease, NewSession;
    var s := h.server;
    StepOutputs(s, e);
    if h.applied != [] {
      StaysBehind(h.applied[|h.applied| - 1], s, e);
    }
    if AppliesNow(s, e) {
      if h.applied != [] {
        BehindIsBefore(h.applied[|h.applied| - 1], s, e);
      }
      LogApplies(h, Step(s, e).output, e.now);
    } else if TakesNow(s, e) {
      LogTakes(h, e.command, e.now);
    }
  }

  lemma {:induction false} ReplayInv(s: Server, events: seq<Event>)
    requires Inv(s) && !s.hasPending && s.overwritten == 0
    ensures HistoryInv(Replay(Begun(s), events))
    decreases |events|
  {
    if events != [] {
      var h := Replay(Begun(s), events[..|events| - 1]);
      var e := events[|events| - 1];
      ReplayInv(s, events[..|events| - 1]);
      StepInv(h.server, e);
      RecordStatuses(h, e);
      RecordGrants(h, e);
      RecordConserved(h, e);
      RecordApplied(h, e);
    }
  }

  // ---------------------------------------------------------------------------------------
  // What every run shows
  // ---------------------------------------------------------------------------------------

  /** The history of a server started with `seed` and called with `events`. */
  function Run(seed: nat, commandTimeoutNs: nat, prepareTimeoutNs: nat, rejectOperation: int,
               events: seq<Event>): History
  {
    Replay(Begun(Started(seed, commandTimeoutNs, prepareTimeoutNs, rejectOperation)), events)
  }

  predicate Startable(seed: nat, commandTimeoutNs: nat, prepareTimeoutNs: nat) {
    0 < seed <= MAX_UINT64 && commandTimeoutNs > 0 && prepareTimeoutNs > 0
  }

  /**
   Whatever is called in whatever order: the identities a tick outputs strictly increase, each output
   shows the command that was the newest accepted one, and every accepted command was either applied,
   overwritten, discarded, or is still pending.
   */
  lemma AppliedInOrderAndConserved(seed: nat, commandTimeoutNs: nat, prepareTimeoutNs: nat,
                                   rejectOperation: int, events: seq<Event>)
    requires Startable(seed, commandTimeoutNs, prepareTimeoutNs)
    ensures var h := Run(seed, commandTimeoutNs, prepareTimeoutNs, rejectOperation, events);
            && (forall i, j | 0 <= i < j < |h.applied| :: Before(h.applied[i], h.applied[j]))
            && |h.applied| == |h.source|
            && (forall k | 0 <= k < |h.applied| ::
                  h.source[k] < |h.accepted| && Shows(h.applied[k], h.accepted[h.source[k]]))
            && |h.accepted| == |h.applied| + h.server.overwritten + h.discarded +
                               (if h.server.hasPending then 1 else 0)
  {
    ReplayInv(Started(seed, commandTimeoutNs, prepareTimeoutNs, rejectOperation), events);
  }

  /** No lease and no session is ever given twice, and sessions only grow. */
  lemma LeasesAndSessionsNeverRepeat(seed: nat, commandTimeoutNs: nat, prepareTimeoutNs: nat,
                                     rejectOperation: int, events: seq<Event>)
    requires Startable(seed, commandTimeoutNs, prepareTimeoutNs)
    ensures var h := Run(seed, commandTimeoutNs, prepareTimeoutNs, rejectOperation, events);
            && (forall i, j | 0 <= i < j < |h.leases| :: h.leases[i] != h.leases[j])
            && (forall i, j | 0 <= i < j < |h.sessions| :: h.sessions[i] < h.sessions[j])
  {
    var h := Run(seed, commandTimeoutNs, prepareTimeoutNs, rejectOperation, events);
    ReplayInv(Started(seed, commandTimeoutNs, prepareTimeoutNs, rejectOperation), events);
    forall i, j | 0 <= i < j < |h.leases|
      ensures h.leases[i] != h.leases[j]
    {
      if h.leases[i] == h.leases[j] {
        LeaseInjective(h.numbers[i], h.numbers[j]);
      }
    }
  }

  /** Two statuses with one sequence number are one status; a later one never has a smaller number. */
  lemma StatusSequenceIdentifiesStatus(seed: nat, commandTimeoutNs: nat, prepareTimeoutNs: nat,
                                       rejectOperation: int, events: seq<Event>, i: nat, j: nat)
    requires Startable(seed, commandTimeoutNs, prepareTimeoutNs)
    requires var h := Run(seed, commandTimeoutNs, prepareTimeoutNs, rejectOperation, events);
             i <= j < |h.statuses|
    ensures var h := Run(seed, commandTimeoutNs, prepareTimeoutNs, rejectOperation, events);
            && h.statuses[i].statusSeq <= h.statuses[j].statusSeq
            && (h.statuses[i].statusSeq == h.statuses[j].statusSeq ==> h.statuses[i] == h.statuses[j])
  {
    var h := Run(seed, commandTimeoutNs, prepareTimeoutNs, rejectOperation, events);
    ReplayInv(Started(seed, commandTimeoutNs, prepareTimeoutNs, rejectOperation), events);
    assert i < j ==> Ordered(h.statuses[i], h.statuses[j]);
  }

  // ---------------------------------------------------------------------------------------
  // A lease that is gone stays gone
  // ---------------------------------------------------------------------------------------

  function After(s: Server, events: seq<Event>): Server
    decreases |events|
  {
    if events == [] then s else After(Step(s, events[0]), events[1..])
  }

  lemma LostLeaseStaysLostStep(s: Server, number: nat, e: Event)
    requires Inv(s) && number <= s.generation && s.status.leaseId != Lease(number)
    ensures number <= Step(s, e).generation && Step(s, e).status.leaseId != Lease(number)
  {
    WatchedInv(s, e.now);
    StepInv(s, e);
    assert Lease(number) != "";
    var s' := Step(s, e);
    if s'.generation > s.generation && s'.status.leaseId == Lease(number) {
      LeaseInjective(LeaseNumber(s'), number);
    }
  }

  lemma {:induction false} LostLeaseStaysLost(s: Server, number: nat, events: seq<Event>)
    requires Inv(s) && number <= s.generation && s.status.leaseId != Lease(number)
    ensures After(s, events).status.leaseId != Lease(number)
    decreases |events|
  {
    if events != [] {
      StepInv(s, events[0]);
      LostLeaseStaysLostStep(s, number, events[0]);
      LostLeaseStaysLost(Step(s, events[0]), number, events[1..]);
    }
  }

  /** A CANCEL that is answered without an error ends its lease for good, whatever is called later. */
  lemma AcceptedCancelIsFinal(s: Server, r: Request, now: nat, number: nat, events: seq<Event>)
    requires Inv(s) && number <= s.generation
    requires r.operation == CANCEL && r.leaseId == Lease(number)
    requires Requested(s, r, now).1.accepted
    ensures After(Requested(s, r, now).0, events).status.leaseId != Lease(number)
  {
    WatchedInv(s, now);
    StepInv(s, Control(r, now));
    assert Lease(number) != "";
    LostLeaseStaysLost(Requested(s, r, now).0, number, events);
  }

  // ---------------------------------------------------------------------------------------
  // Time: the clock the calls read never goes back
  // ---------------------------------------------------------------------------------------

  ghost predicate Timed(events: seq<Event>) {
    && (forall i | 0 <= i < |events| :: events[i].now < TWO_TO_THE_64)
    && (forall i, j | 0 <= i < j < |events| :: events[i].now <= events[j].now)
  }

  predicate Fresh(acceptedAt: nat, appliedAt: nat, commandTimeoutNs: nat) {
    acceptedAt <= appliedAt < acceptedAt + commandTimeoutNs
  }

  /** Right after a call at time `now`, no deadline of the state has passed. */
  ghost predicate OnTime(s: Server, now: nat) {
    && (s.status.phase == ARMED ==> s.preparedNs <= now < s.preparedNs + s.prepareTimeoutNs)
    && (HasSession(s.status.phase) ==> s.status.lastValidNs <= now)
    && (s.status.phase == RUNNING ==> now < s.status.lastValidNs + s.commandTimeoutNs)
  }

  ghost predicate TimedInv(h: History, clock: nat, commandTimeoutNs: nat, prepareTimeoutNs: nat) {
    var s := h.server;
    && s.commandTimeoutNs == commandTimeoutNs && s.prepareTimeoutNs == prepareTimeoutNs
    && OnTime(s, clock)
    && (s.hasPending ==> |h.acceptedAt| > 0 && h.acceptedAt[|h.acceptedAt| - 1] == s.status.lastValidNs)
    && |h.applied| == |h.appliedAt| == |h.source| && |h.accepted| == |h.acceptedAt|
    && forall k | 0 <= k < |h.applied| ::
         h.source[k] < |h.acceptedAt| && Fresh(h.acceptedAt[h.source[k]], h.appliedAt[k], commandTimeoutNs)
  }

  lemma StepOnTime(s: Server, clock: nat, e: Event)
    requires Inv(s) && OnTime(s, clock) && clock <= e.now < TWO_TO_THE_64
    ensures OnTime(Step(s, e), e.now)
    ensures Step(s, e).commandTimeoutNs == s.commandTimeoutNs && Step(s, e).prepareTimeoutNs == s.prepareTimeoutNs
    ensures Step(s, e).hasPending ==>
              Step(s, e).status.lastValidNs == if TakesNow(s, e) then e.now else s.status.lastValidNs
    ensures Step(s, e).hasPending && !TakesNow(s, e) ==> s.hasPending
    ensures AppliesNow(s, e) ==> s.hasPending && Fresh(s.status.lastValidNs, e.now, s.commandTimeoutNs)
  {
    WatchedInv(s, e.now);
    assert OnTime(Watched(s, e.now), e.now);
  }

  lemma RecordTimed(h: History, clock: nat, e: Event, commandTimeoutNs: nat, prepareTimeoutNs: nat)
    requires Inv(h.server) && AppliedInv(h) && TimedInv(h, clock, commandTimeoutNs, prepareTimeoutNs)
    requires clock <= e.now < TWO_TO_THE_64
    ensures TimedInv(Record(h, e), e.now, commandTimeoutNs, prepareTimeoutNs)
  {
    StepOnTime(h.server, clock, e);
    var h' := Record(h, e);
    hide Step, Inv, Applies, Takes;
    forall k | 0 <= k < |h'.applied|
      ensures h'.source[k] < |h'.acceptedAt| && Fresh(h'.acceptedAt[h'.source[k]], h'.appliedAt[k], commandTimeoutNs)
    {
    }
  }

  lemma {:induction false} ReplayTimed(seed: nat, commandTimeoutNs: nat, prepareTimeoutNs: nat,
                                       rejectOperation: int, events: seq<Event>)
    requires Startable(seed, commandTimeoutNs, prepareTimeoutNs) && Timed(events)
    ensures TimedInv(Run(seed, commandTimeoutNs, prepareTimeoutNs, rejectOperation, events),
                     if events == [] then 0 else events[|events| - 1].now, commandTimeoutNs, prepareTimeoutNs)
    decreases |events|
  {
    if events != [] {
      var before := events[..|events| - 1];
      ReplayInv(Started(seed, commandTimeoutNs, prepareTimeoutNs, rejectOperation), before);
      ReplayTimed(seed, commandTimeoutNs, prepareTimeoutNs, rejectOperation, before);
      RecordTimed(Run(seed, commandTimeoutNs, prepareTimeoutNs, rejectOperation, before),
                  if before == [] then 0 else before[|before| - 1].now,
                  events[|events| - 1], commandTimeoutNs, prepareTimeoutNs);
    }
  }

  /**
   No command is applied later than the command timeout after it was accepted, and right after any
   call no arming and no running session has outlived its timeout.
   */
  lemma AppliedCommandsAreFresh(seed: nat, commandTimeoutNs: nat, prepareTimeoutNs: nat,
                                rejectOperation: int, events: seq<Event>)
    requires Startable(seed, commandTimeoutNs, prepareTimeoutNs) && Timed(events) && events != []
    ensures var h := Run(seed, commandTimeoutNs, prepareTimeoutNs, rejectOperation, events);
            var now := events[|events| - 1].now;
            && |h.applied| == |h.appliedAt| == |h.source| && |h.accepted| == |h.acceptedAt|
            && (forall k | 0 <= k < |h.applied| ::
                  && h.source[k] < |h.acceptedAt|
                  && h.acceptedAt[h.source[k]] <= h.appliedAt[k] < h.acceptedAt[h.source[k]] + commandTimeoutNs)
            && (h.server.status.phase == ARMED ==> now < h.server.preparedNs + prepareTimeoutNs)
            && (h.server.status.phase == RUNNING ==> now < h.server.status.lastValidNs + commandTimeoutNs)
  {
    var h := Run(seed, commandTimeoutNs, prepareTimeoutNs, rejectOperation, events);
    ReplayTimed(seed, commandTimeoutNs, prepareTimeoutNs, rejectOperation, events);
    forall k | 0 <= k < |h.applied|
      ensures h.source[k] < |h.acceptedAt|
      ensures h.acceptedAt[h.source[k]] <= h.appliedAt[k] < h.acceptedAt[h.source[k]] + commandTimeoutNs
    {
      assert Fresh(h.acceptedAt[h.source[k]], h.appliedAt[k], commandTimeoutNs);
    }
  }
}
