/**
 The CANCEL of every request: claimed exactly once, handed to the transport exactly once, and with the
 lease that was committed unless another thread overtook the session thread.
 */
module LeaseCancel {
  import opened Wrappers
  import opened LeaseServer
  import opened Controller
  import opened LeaseSystem
  import opened LeaseSafety
  import opened LeaseTheorems

  predicate Current(n: Node, requestId: string) {
    n.client.requestId == Some(requestId)
  }

  /** The request is active and its CANCEL is still to be claimed. */
  predicate Unclaimed(n: Node, r: string) {
    Current(n, r) && !n.client.cancelSent
  }

  /** Is the CANCEL of the request claimed by a thread that has not yet handed it over? */
  predicate InFlight(n: Node, requestId: string) {
    || (n.place.Cancelling? && n.place.requestId == requestId)
    || requestId in n.beside
  }

  function InFlightLease(n: Node, requestId: string): string
    requires InFlight(n, requestId)
  {
    if n.place.Cancelling? && n.place.requestId == requestId then n.place.cancel.leaseId
    else n.beside[requestId].leaseId
  }

  /**
   The record of one request: the leases of the CANCELs claimed and handed over for it, the lease its
   COMMIT carried, and whether its CANCEL was claimed before its lease was stored.
   */
  datatype Trail = Trail(claimed: seq<string>, handed: seq<string>, committed: Option<string>, overtaken: bool)

  function Entry(m: map<string, seq<string>>, key: string): seq<string> {
    if key in m then m[key] else []
  }

  function TrailOf(s: System, r: string): Trail {
    Trail(Entry(s.claimed, r), Entry(s.handed, r), if r in s.committed then Some(s.committed[r]) else None,
          r in s.overtaken)
  }

  const NO_TRAIL := Trail([], [], None, false)

  /** The one CANCEL of a request is unclaimed, claimed, or handed over. */
  predicate ClaimedOnce(n: Node, r: string, t: Trail) {
    if Unclaimed(n, r) then t.claimed == t.handed == [] && !InFlight(n, r)
    else
      && |t.claimed| == 1
      && (if InFlight(n, r) then t.handed == [] && t.claimed == [InFlightLease(n, r)] else t.handed == t.claimed)
  }

  /** Which lease the CANCEL of a request named, while the request is active and afterwards. */
  predicate ClaimedLease(n: Node, r: string, t: Trail) {
    && (t.overtaken ==> t.claimed == [""])
    && (t.committed.Some? ==> t.committed.value != "")
    && (t.committed.Some? && t.claimed != [] && !t.overtaken ==> t.claimed == [t.committed.value])
    && (Current(n, r) ==>
          && (t.committed.Some? ==> t.committed.value == n.client.leaseId)
          && (n.client.leaseId == "" ==> t.committed.None? && !t.overtaken)
          && (t.claimed != [] && !t.overtaken ==> t.claimed == [n.client.leaseId]))
  }

  predicate CancelNode(n: Node) {
    && (n.client.closed && n.client.requestId.Some? ==> n.client.cancelSent)
    && (n.place.Cancelling? || n.place.AwaitingCancel? || n.place.AwaitingIdle? || n.place.SeesIdle? ==>
          n.client.cancelSent)
    && (n.place.Cancelling? ==> n.place.cancel.operation == CANCEL && n.place.cancel.requestId == n.place.requestId)
    && (forall r | r in n.beside :: n.beside[r].operation == CANCEL && n.beside[r].requestId == r)
    && (n.place.Cancelling? ==> n.place.requestId !in n.beside)
    && (n.client.requestId.Some? && n.client.requestId.value in n.beside ==> n.client.cancelSent)
  }

  /** What is known of the session thread from who owns its lease. */
  predicate Placed(n: Node) {
    && (!n.place.Outside? ==> n.client.requestId == Some(n.place.requestId))
    && (n.place.SendingCommit? ==> n.client.leaseId != "")
    && (n.place.Prepared? ==> n.client.leaseId == "" && n.place.ack.leaseId != "")
  }

  /** The trail of a request after a step of the node that began it. */
  function TrailAfter(n: Node, step: NodeStep, r: string, t: Trail): Trail
    requires NodeEnabled(n, step)
  {
    var sends, claims := Sends(n, step), Claims(n, step);
    Trail(if claims.Some? && claims.value.requestId == r then t.claimed + [claims.value.leaseId] else t.claimed,
          if sends.Some? && sends.value.operation == CANCEL && sends.value.requestId == r
          then t.handed + [sends.value.leaseId] else t.handed,
          if step.SendCommit? && n.place.requestId == r then Some(n.client.leaseId) else t.committed,
          t.overtaken || (step.StoreLease? && n.client.cancelSent && n.place.requestId == r))
  }

  lemma CancelNodeStep(n: Node, step: NodeStep)
    requires NodeEnabled(n, step) && CancelNode(n) && Placed(n)
    requires step.Begin? ==> step.requestId !in n.beside
    ensures CancelNode(NodeAfter(n, step))
  {
  }

  lemma ClaimedOnceBeside(n: Node, step: NodeStep, r: string, t: Trail)
    requires NodeEnabled(n, step) && CancelNode(n) && Placed(n) && ClaimedOnce(n, r, t) && OfOtherThread(step)
    ensures ClaimedOnce(NodeAfter(n, step), r, TrailAfter(n, step, r, t))
  {
    OtherThreadsKeepSession(n, step);
    hide PlaceAfter;
  }

  lemma ClaimedOnceStep(n: Node, step: NodeStep, r: string, t: Trail)
    requires NodeEnabled(n, step) && CancelNode(n) && Placed(n) && ClaimedOnce(n, r, t)
    requires step.Begin? ==> step.requestId != r
    ensures ClaimedOnce(NodeAfter(n, step), r, TrailAfter(n, step, r, t))
  {
    if OfOtherThread(step) {
      ClaimedOnceBeside(n, step, r, t);
    }
  }

  lemma ClaimedLeaseStep(n: Node, step: NodeStep, r: string, t: Trail)
    requires NodeEnabled(n, step) && CancelNode(n) && Placed(n) && ClaimedOnce(n, r, t) && ClaimedLease(n, r, t)
    requires step.Begin? ==> step.requestId != r
    ensures ClaimedLease(NodeAfter(n, step), r, TrailAfter(n, step, r, t))
  {
  }

  // ---------------------------------------------------------------------------------------
  // In the system
  // ---------------------------------------------------------------------------------------

  ghost predicate BesideInv(s: System) {
    forall id | id in s.nodes ::
      && CancelNode(s.nodes[id])
      && forall r | r in s.nodes[id].beside :: BegunBy(s, r, id)
  }

  ghost predicate TrailInv(s: System, r: string) {
    if r in s.begunBy then
      && s.begunBy[r] in s.nodes
      && ClaimedOnce(s.nodes[s.begunBy[r]], r, TrailOf(s, r))
      && ClaimedLease(s.nodes[s.begunBy[r]], r, TrailOf(s, r))
    else TrailOf(s, r) == NO_TRAIL
  }

  ghost predicate CancelInv(s: System) {
    BesideInv(s) && forall r :: TrailInv(s, r)
  }

  /** The requests a client is busy with are its own. */
  lemma NodeRequests(s: System, id: string)
    requires SystemInv(s) && id in s.nodes
    ensures var n := s.nodes[id];
            && Placed(n)
            && (!n.place.Outside? ==> BegunBy(s, n.place.requestId, id))
            && (n.client.requestId.Some? ==> BegunBy(s, n.client.requestId.value, id))
  {
    assert GoodNode(s, id, s.nodes[id]);
  }

  /** What a step of a node hands over or claims is about a request its client began. */
  lemma StepRequests(s: System, id: string, step: NodeStep)
    requires SystemInv(s) && BesideInv(s) && Enabled(s, Of(id, step))
    ensures var n := s.nodes[id];
            && Placed(n)
            && (Claims(n, step).Some? ==> BegunBy(s, Claims(n, step).value.requestId, id))
            && (Sends(n, step).Some? ==> BegunBy(s, Sends(n, step).value.requestId, id))
            && (!n.place.Outside? ==> BegunBy(s, n.place.requestId, id))
            && (n.client.requestId.Some? ==> BegunBy(s, n.client.requestId.value, id))
  {
    hide SystemInv, BegunBy;
    NodeRequests(s, id);
  }

  /** What a step adds to the record of a request, whoever began it. */
  lemma RecordsStep(s: System, id: string, step: NodeStep, r: string)
    requires Enabled(s, Of(id, step))
    ensures TrailOf(AfterNode(s, id, step), r) == TrailAfter(s.nodes[id], step, r, TrailOf(s, r))
  {
    hide NodeAfter, Claims, Sends, NodeEnabled, IssueOf;
  }

  lemma TrailStep(s: System, id: string, step: NodeStep, r: string)
    requires SystemInv(s) && BesideInv(s) && Enabled(s, Of(id, step))
    ensures TrailOf(AfterNode(s, id, step), r) ==
            if BegunBy(s, r, id) then TrailAfter(s.nodes[id], step, r, TrailOf(s, r)) else TrailOf(s, r)
  {
    StepRequests(s, id, step);
    RecordsStep(s, id, step, r);
    hide SystemInv, BesideInv, NodeAfter, Claims, Sends, NodeEnabled, AfterNode, TrailOf, Placed;
  }

  lemma NodeStepBegun(s: System, id: string, step: NodeStep)
    requires Enabled(s, Of(id, step))
    ensures AfterNode(s, id, step).begunBy == if step.Begin? then s.begunBy[step.requestId := id] else s.begunBy
    ensures AfterNode(s, id, step).nodes == s.nodes[id := NodeAfter(s.nodes[id], step)]
    ensures step.Begin? ==> step.requestId !in s.begunBy
  {
  }

  /** A request that has just begun has no trail. */
  lemma NewRequestTrail(s: System, id: string, r: string)
    requires SystemInv(s) && BesideInv(s) && Enabled(s, Of(id, Begin(r)))
    ensures ClaimedOnce(NodeAfter(s.nodes[id], Begin(r)), r, NO_TRAIL)
    ensures ClaimedLease(NodeAfter(s.nodes[id], Begin(r)), r, NO_TRAIL)
  {
    StepRequests(s, id, Begin(r));
    assert CancelNode(s.nodes[id]);
    hide SystemInv, BesideInv;
  }

  lemma OwnTrailStep(s: System, id: string, step: NodeStep, r: string)
    requires SystemInv(s) && BesideInv(s) && Enabled(s, Of(id, step)) && TrailInv(s, r) && BegunBy(s, r, id)
    ensures ClaimedOnce(NodeAfter(s.nodes[id], step), r, TrailAfter(s.nodes[id], step, r, TrailOf(s, r)))
    ensures ClaimedLease(NodeAfter(s.nodes[id], step), r, TrailAfter(s.nodes[id], step, r, TrailOf(s, r)))
  {
    StepRequests(s, id, step);
    assert CancelNode(s.nodes[id]);
    hide SystemInv, BesideInv, NodeAfter, TrailAfter, ClaimedOnce, ClaimedLease, TrailOf, CancelNode, Placed;
    ClaimedOnceStep(s.nodes[id], step, r, TrailOf(s, r));
    ClaimedLeaseStep(s.nodes[id], step, r, TrailOf(s, r));
  }

  lemma NodeStepTrail(s: System, id: string, step: NodeStep, r: string)
    requires SystemInv(s) && BesideInv(s) && Enabled(s, Of(id, step)) && TrailInv(s, r)
    ensures TrailInv(AfterNode(s, id, step), r)
  {
    hide SystemInv, BesideInv, NodeAfter, NodeEnabled, TrailAfter, ClaimedOnce, ClaimedLease, TrailOf, AfterNode;
    TrailStep(s, id, step, r);
    NodeStepBegun(s, id, step);
    if BegunBy(s, r, id) {
      OwnTrailStep(s, id, step, r);
    } else if step.Begin? && step.requestId == r {
      NewRequestTrail(s, id, r);
    }
  }

  lemma NodeStepBeside(s: System, id: string, step: NodeStep)
    requires SystemInv(s) && BesideInv(s) && Enabled(s, Of(id, step))
    ensures BesideInv(AfterNode(s, id, step))
  {
    StepRequests(s, id, step);
    NodeStepBegun(s, id, step);
    CancelNodeStep(s.nodes[id], step);
    hide SystemInv, AfterNode, ClientAfter, PlaceAfter, CancelNode, NodeEnabled, CloseClaimed, CancelClaimed, Claims;
  }

  lemma NextCancel(s: System, a: Action)
    requires SystemInv(s) && CancelInv(s) && Enabled(s, a)
    ensures CancelInv(Next(s, a))
  {
    match a
    case Of(id, step) =>
      NodeStepBeside(s, id, step);
      forall r ensures TrailInv(Next(s, a), r) { NodeStepTrail(s, id, step, r); }
    case OfServer(call) =>
      ServerStepFrame(s, call);
      hide SystemInv, AfterServer, CancelNode, ClaimedOnce, ClaimedLease;
      forall r ensures TrailInv(Next(s, a), r) { assert TrailInv(s, r); }
  }

  lemma {:induction false} ReachedCancel(s: System, run: seq<Action>)
    requires SystemInv(s) && CancelInv(s) && Legal(s, run)
    ensures CancelInv(Reached(s, run))
    decreases |run|
  {
    hide SystemInv, CancelInv, Next, Enabled;
    if run != [] {
      NextInv(s, run[0]);
      NextCancel(s, run[0]);
      ReachedCancel(Next(s, run[0]), run[1..]);
    }
  }

  lemma InitialCancel(s: System)
    requires Initial(s)
    ensures CancelInv(s)
  {
    forall r ensures TrailInv(s, r) {}
  }

  // ---------------------------------------------------------------------------------------
  // What every run shows
  // ---------------------------------------------------------------------------------------

  /**
   When a `close` has returned, every request its client ever began has had exactly one CANCEL claimed. It
   was handed to the transport exactly once, unless some thread, in entering, leaving or another `close`,
   stands between claiming it and handing it over, in which case it was not handed over yet.
   */
  lemma ClosedClientCancelledEachRequestOnce(s0: System, run: seq<Action>, id: string, r: string)
    requires Initial(s0) && Legal(s0, run)
    requires var s := Reached(s0, run); id in s.nodes && s.nodes[id].client.closed && BegunBy(s, r, id)
    ensures var s := Reached(s0, run);
            && |Entry(s.claimed, r)| == 1
            && (Entry(s.handed, r) == Entry(s.claimed, r) <==> !InFlight(s.nodes[id], r))
            && (Entry(s.handed, r) == [] <==> InFlight(s.nodes[id], r))
  {
    InitialInv(s0);
    InitialCancel(s0);
    ReachedCancel(s0, run);
    var s := Reached(s0, run);
    assert TrailInv(s, r) && CancelNode(s.nodes[id]);
  }

  /** So it was handed over exactly once when `close` returns and no thread is inside entering, leaving or `close`. */
  lemma QuietCloseHandsOverEachCancel(s0: System, run: seq<Action>, id: string, r: string)
    requires Initial(s0) && Legal(s0, run)
    requires var s := Reached(s0, run);
             && id in s.nodes && s.nodes[id].client.closed && BegunBy(s, r, id)
             && s.nodes[id].place.Outside? && s.nodes[id].beside == map[]
    ensures |Entry(Reached(s0, run).handed, r)| == 1
  {
    ClosedClientCancelledEachRequestOnce(s0, run, id, r);
  }

  /**
   A request whose COMMIT was sent has no CANCEL exactly as long as it is active and none was claimed. After that
   it has one, which names the committed lease exactly when it was not claimed before the lease was stored.
   */
  lemma CancelNamesCommittedLease(s0: System, run: seq<Action>, r: string)
    requires Initial(s0) && Legal(s0, run) && r in Reached(s0, run).committed
    ensures var s := Reached(s0, run);
            && r in s.begunBy && s.begunBy[r] in s.nodes
            && (Entry(s.claimed, r) == [] <==> Unclaimed(s.nodes[s.begunBy[r]], r))
            && (Entry(s.claimed, r) != [] ==>
                  && |Entry(s.claimed, r)| == 1
                  && (Entry(s.claimed, r) == [s.committed[r]] <==> r !in s.overtaken)
                  && (r in s.overtaken ==> Entry(s.claimed, r) == [""]))
  {
    InitialInv(s0);
    InitialCancel(s0);
    ReachedCancel(s0, run);
    var s := Reached(s0, run);
    assert TrailInv(s, r);
  }

  // ---------------------------------------------------------------------------------------
  // A failed entry cancels
  // ---------------------------------------------------------------------------------------

  lemma StepKeepsClaimed(n: Node, step: NodeStep, r: string)
    requires NodeEnabled(n, step) && !Unclaimed(n, r)
    requires step.Begin? ==> step.requestId != r
    ensures !Unclaimed(NodeAfter(n, step), r)
  {
  }

  lemma NextKeepsClaimed(s: System, a: Action, id: string, r: string)
    requires Enabled(s, a) && id in s.nodes && BegunBy(s, r, id) && !Unclaimed(s.nodes[id], r)
    ensures var s' := Next(s, a); id in s'.nodes && BegunBy(s', r, id) && !Unclaimed(s'.nodes[id], r)
  {
    hide AfterNode, AfterServer, NodeAfter, NodeEnabled, Unclaimed;
    match a
    case Of(other, step) =>
      NodeStepBegun(s, other, step);
      if other == id {
        StepKeepsClaimed(s.nodes[id], step, r);
      }
    case OfServer(call) =>
      ServerStepFrame(s, call);
  }

  lemma {:induction false} ReachedKeepsClaimed(s: System, run: seq<Action>, id: string, r: string)
    requires Legal(s, run) && id in s.nodes && BegunBy(s, r, id) && !Unclaimed(s.nodes[id], r)
    ensures var t := Reached(s, run); id in t.nodes && BegunBy(t, r, id) && !Unclaimed(t.nodes[id], r)
    decreases |run|
  {
    hide Next, Enabled, Unclaimed, BegunBy;
    if run != [] {
      NextKeepsClaimed(s, run[0], id, r);
      ReachedKeepsClaimed(Next(s, run[0]), run[1..], id, r);
    }
  }

  lemma BegunByKept(s: System, s': System, r: string, id: string)
    requires BegunBy(s, r, id) && s'.begunBy == s.begunBy
    ensures BegunBy(s', r, id)
  {
  }

  /** The step in which a failed entry reaches for its CANCEL leaves it claimed, by this thread or by another before. */
  lemma FailedEntryClaims(s: System, id: string, r: string)
    requires SystemInv(s) && Enabled(s, Of(id, ClaimCancel)) && s.nodes[id].place == EntryFailed(r)
    ensures var s' := Next(s, Of(id, ClaimCancel));
            id in s'.nodes && BegunBy(s', r, id) && !Unclaimed(s'.nodes[id], r)
  {
    hide SystemInv, AfterNode, BegunBy;
    NodeRequests(s, id);
    NodeStepBegun(s, id, ClaimCancel);
    BegunByKept(s, Next(s, Of(id, ClaimCancel)), r, id);
  }

  /** A request whose CANCEL is no longer to be claimed has one, on its way or handed over. */
  lemma TrailOfClaimed(s0: System, run: seq<Action>, id: string, r: string)
    requires Initial(s0) && Legal(s0, run)
    requires var s := Reached(s0, run); id in s.nodes && BegunBy(s, r, id) && !Unclaimed(s.nodes[id], r)
    ensures var s := Reached(s0, run);
            && |Entry(s.claimed, r)| == 1
            && Entry(s.handed, r) == (if InFlight(s.nodes[id], r) then [] else Entry(s.claimed, r))
            && (r in s.committed ==> (Entry(s.claimed, r) == [s.committed[r]] <==> r !in s.overtaken))
  {
    hide SystemInv, Initial, InFlight;
    InitialInv(s0);
    InitialCancel(s0);
    ReachedCancel(s0, run);
    assert TrailInv(Reached(s0, run), r);
  }

  /**
   An entry that failed attempts exactly one CANCEL: whatever follows, one CANCEL is claimed for its request, it is
   handed over unless a thread still stands before that, and when the COMMIT was sent it names the committed lease
   exactly when it was not claimed before the lease was stored.
   */
  lemma FailedEntryCancelsOnce(s0: System, before: seq<Action>, id: string, r: string, after: seq<Action>)
    requires Initial(s0) && Legal(s0, before + ([Of(id, ClaimCancel)] + after)) && Legal(s0, before)
    requires id in Reached(s0, before).nodes && Reached(s0, before).nodes[id].place == EntryFailed(r)
    ensures var s := Reached(s0, before + ([Of(id, ClaimCancel)] + after));
            && |Entry(s.claimed, r)| == 1
            && id in s.nodes
            && Entry(s.handed, r) == (if InFlight(s.nodes[id], r) then [] else Entry(s.claimed, r))
            && (r in s.committed ==> (Entry(s.claimed, r) == [s.committed[r]] <==> r !in s.overtaken))
  {
    hide Next, NodeEnabled, SystemInv, Initial, Unclaimed, InFlight, NodeAfter, ClaimedLease;
    var claim := Of(id, ClaimCancel);
    RunSplits(s0, before, [claim] + after);
    assert ([claim] + after)[1..] == after;
    InitialInv(s0);
    ReachedInv(s0, before);
    var s := Reached(s0, before);
    FailedEntryClaims(s, id, r);
    ReachedKeepsClaimed(Next(s, claim), after, id, r);
    TrailOfClaimed(s0, before + ([claim] + after), id, r);
  }

  // ---------------------------------------------------------------------------------------
  // Who overtakes
  // ---------------------------------------------------------------------------------------

  /** No other thread calls exit while the session thread of its client is inside a call of its own. */
  predicate NoExitBeside(a: Action) {
    a.Of? ==> !a.step.ExitBeside?
  }

  predicate SpentMeansClosed(n: Node) {
    n.place.InEntry() && n.client.cancelSent ==> n.client.closed
  }

  lemma SpentStep(n: Node, step: NodeStep)
    requires NodeEnabled(n, step) && !step.ExitBeside? && SpentMeansClosed(n)
    ensures SpentMeansClosed(NodeAfter(n, step)) && (n.client.closed ==> NodeAfter(n, step).client.closed)
    ensures step.StoreLease? && n.client.cancelSent ==> n.client.closed
  {
  }

  ghost predicate OvertakenInv(s: System) {
    && (forall id | id in s.nodes :: SpentMeansClosed(s.nodes[id]))
    && (forall r | r in s.overtaken ::
          r in s.begunBy && s.begunBy[r] in s.nodes && s.nodes[s.begunBy[r]].client.closed)
  }

  lemma NodeStepOvertaken(s: System, id: string, step: NodeStep)
    requires Enabled(s, Of(id, step))
    ensures AfterNode(s, id, step).overtaken ==
            if step.StoreLease? && s.nodes[id].client.cancelSent then s.overtaken + {s.nodes[id].place.requestId}
            else s.overtaken
  {
  }

  lemma StoreLeaseRequest(s: System, id: string, step: NodeStep)
    requires SystemInv(s) && Enabled(s, Of(id, step))
    ensures step.StoreLease? ==> BegunBy(s, s.nodes[id].place.requestId, id)
  {
    assert GoodNode(s, id, s.nodes[id]);
  }

  lemma ClientStepOvertaken(s: System, id: string, step: NodeStep)
    requires SystemInv(s) && OvertakenInv(s) && Enabled(s, Of(id, step)) && !step.ExitBeside?
    ensures OvertakenInv(AfterNode(s, id, step))
  {
    hide SystemInv, NodeAfter, NodeEnabled, SpentMeansClosed, AfterNode;
    SpentStep(s.nodes[id], step);
    NodeStepBegun(s, id, step);
    NodeStepOvertaken(s, id, step);
    StoreLeaseRequest(s, id, step);
  }

  lemma SameOvertaken(s: System, s': System)
    requires OvertakenInv(s) && s'.nodes == s.nodes && s'.overtaken == s.overtaken && s'.begunBy == s.begunBy
    ensures OvertakenInv(s')
  {
  }

  lemma NextOvertaken(s: System, a: Action)
    requires SystemInv(s) && OvertakenInv(s) && Enabled(s, a) && NoExitBeside(a)
    ensures OvertakenInv(Next(s, a))
  {
    hide SystemInv, OvertakenInv, AfterNode, AfterServer;
    match a
    case Of(id, step) =>
      ClientStepOvertaken(s, id, step);
    case OfServer(call) =>
      ServerStepFrame(s, call);
      SameOvertaken(s, Next(s, a));
  }

  lemma {:induction false} ReachedOvertaken(s: System, run: seq<Action>)
    requires SystemInv(s) && OvertakenInv(s) && Legal(s, run)
    requires forall k | 0 <= k < |run| :: NoExitBeside(run[k])
    ensures OvertakenInv(Reached(s, run))
    decreases |run|
  {
    hide SystemInv, OvertakenInv, Next, Enabled, NoExitBeside;
    if run != [] {
      assert NoExitBeside(run[0]);
      NextInv(s, run[0]);
      NextOvertaken(s, run[0]);
      ReachedOvertaken(Next(s, run[0]), run[1..]);
    }
  }

  /**
   When no other thread calls exit beside the session thread, only a `close` overtakes the storing of a lease:
   in a run of clients that are still open, every CANCEL of a committed request names the committed lease.
   */
  lemma OnlyCloseOvertakes(s0: System, run: seq<Action>, r: string)
    requires Initial(s0) && Legal(s0, run)
    requires forall k | 0 <= k < |run| :: NoExitBeside(run[k])
    requires r in Reached(s0, run).overtaken
    ensures var s := Reached(s0, run);
            r in s.begunBy && s.begunBy[r] in s.nodes && s.nodes[s.begunBy[r]].client.closed
  {
    InitialInv(s0);
    ReachedOvertaken(s0, run);
  }

  // ---------------------------------------------------------------------------------------
  // A served CANCEL frees the committed lease
  // ---------------------------------------------------------------------------------------

  /** Every CANCEL on the network is on record as handed over for its request. */
  ghost predicate RecordedInv(s: System) {
    forall q | q in s.requests && q.operation == CANCEL :: q.leaseId in Entry(s.handed, q.requestId)
  }

  lemma NextRecorded(s: System, a: Action)
    requires RecordedInv(s) && Enabled(s, a)
    ensures RecordedInv(Next(s, a)) && s.requests <= Next(s, a).requests
  {
    if a.OfServer? {
      ServerStepFrame(s, a.call);
      hide AfterServer;
    } else {
      hide NodeAfter, Claims, Sends, NodeEnabled, IssueOf;
    }
  }

  lemma {:induction false} ReachedRecorded(s: System, run: seq<Action>)
    requires RecordedInv(s) && Legal(s, run)
    ensures RecordedInv(Reached(s, run)) && s.requests <= Reached(s, run).requests
    decreases |run|
  {
    hide RecordedInv, Next, Enabled;
    if run != [] {
      NextRecorded(s, run[0]);
      ReachedRecorded(Next(s, run[0]), run[1..]);
    }
  }

  /** A CANCEL that was ever on the network names the committed lease of its request, unless it was overtaken. */
  lemma SentCancelNamesCommittedLease(s0: System, run: seq<Action>, rest: seq<Action>, q: Request)
    requires Initial(s0) && Legal(s0, run + rest) && Legal(s0, run)
    requires q in Reached(s0, run).requests && q.operation == CANCEL
    requires var s := Reached(s0, run + rest); q.requestId in s.committed && q.requestId !in s.overtaken
    ensures q.leaseId == Reached(s0, run + rest).committed[q.requestId] != ""
  {
    RunSplits(s0, run, rest);
    ReachedRecorded(s0, run);
    ReachedRecorded(Reached(s0, run), rest);
    InitialInv(s0);
    InitialCancel(s0);
    ReachedCancel(s0, run + rest);
    assert TrailInv(Reached(s0, run + rest), q.requestId);
  }

  /**
   Once the server has processed a CANCEL of a request, no later state holds the lease that was committed for
   the request, unless the CANCEL was claimed before that lease was stored.
   */
  lemma ServedCancelFreesCommittedLease(s0: System, before: seq<Action>, q: Request, now: nat, after: seq<Action>)
    requires Initial(s0) && Legal(s0, before + ([OfServer(Serve(q, now, true))] + after))
    requires q.operation == CANCEL
    requires var s := Reached(s0, before + ([OfServer(Serve(q, now, true))] + after));
             q.requestId in s.committed && q.requestId !in s.overtaken
    ensures var s := Reached(s0, before + ([OfServer(Serve(q, now, true))] + after));
            s.server.status.leaseId != s.committed[q.requestId]
  {
    hide Next, Reached;
    var rest := [OfServer(Serve(q, now, true))] + after;
    RunSplits(s0, before, rest);
    assert Enabled(Reached(s0, before), rest[0]);
    SentCancelNamesCommittedLease(s0, before, rest, q);
    CancelIsFinal(s0, before, q, now, after);
  }
}
