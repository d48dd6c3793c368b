/**
 Runs of one client that show where a promise of the controller fails. The conditions under which the
 promises hold are proved in `LeaseCancel` and `LeaseIdentity`.
 */
module LeaseRaces {
  import opened Wrappers
  import opened LeaseServer
  import opened LeaseRuns
  import opened Controller
  import opened LeaseSystem
  import opened LeaseTheorems

  const ID := "client"
  const REQUEST := "request"
  const NODE := Node(NewClient(ID), Outside, map[])

  /** A server started with counter 1 and one client that has done nothing. */
  const START := System(Started(1, 100, 100, 0), 0, 0, map[ID := NODE], {}, {}, {},
                        map[], map[], [], map[], map[], map[], {}, {})

  lemma StartIsInitial()
    ensures Initial(START)
  {
    assert Startable(1, 100, 100);
  }

  lemma {:induction false} Extend(s: System, run: seq<Action>, a: Action)
    requires Legal(s, run) && Enabled(Reached(s, run), a)
    ensures Legal(s, run + [a]) && Reached(s, run + [a]) == Next(Reached(s, run), a)
    decreases |run|
  {
    if run == [] {
      assert (run + [a])[1..] == [];
    } else {
      assert (run + [a])[1..] == run[1..] + [a];
      Extend(Next(s, run[0]), run[1..], a);
    }
  }

  /** What is needed of a state reached with the one client: its node, the server, and the record. */
  datatype Scene = Scene(node: Node, server: Server, clock: nat, lastStamp: nat, issues: seq<Issue>,
                         claimed: map<string, seq<string>>, handed: map<string, seq<string>>)

  ghost predicate Reaches(run: seq<Action>, scene: Scene) {
    && Legal(START, run)
    && var s := Reached(START, run);
       && s.nodes == map[ID := scene.node] && s.server == scene.server
       && s.clock == scene.clock && s.lastStamp == scene.lastStamp
       && s.issues == scene.issues && s.claimed == scene.claimed && s.handed == scene.handed
  }

  function SceneAfter(scene: Scene, step: NodeStep): Scene
    requires NodeEnabled(scene.node, step)
  {
    var n := scene.node;
    var sends, claims := Sends(n, step), Claims(n, step);
    scene.(node := NodeAfter(n, step),
           issues := if step.Publish? then scene.issues + [IssueOf(n, step.command)] else scene.issues,
           claimed := if claims.Some? then Extended(scene.claimed, claims.value.requestId, claims.value.leaseId)
                      else scene.claimed,
           handed := if sends.Some? && sends.value.operation == CANCEL
                     then Extended(scene.handed, sends.value.requestId, sends.value.leaseId) else scene.handed)
  }

  /** A step of the client extends the run. */
  lemma Do(run: seq<Action>, scene: Scene, step: NodeStep) returns (longer: seq<Action>)
    requires Reaches(run, scene) && NodeEnabled(scene.node, step)
    requires step.Begin? ==> step.requestId !in Reached(START, run).begunBy
    requires step.HearAck? ==> step.ack in Reached(START, run).acks
    requires step.HearReport? ==> step.report in Reached(START, run).reports
    ensures longer == run + [Of(ID, step)] && Reaches(longer, SceneAfter(scene, step))
    ensures var s, s' := Reached(START, run), Reached(START, longer);
            && s.requests <= s'.requests && s.acks <= s'.acks && s.reports <= s'.reports
            && (Sends(scene.node, step).Some? ==> Sends(scene.node, step).value in s'.requests)
  {
    hide Legal, Reached, NodeAfter, Claims, Sends, IssueOf;
    Extend(START, run, Of(ID, step));
    longer := run + [Of(ID, step)];
  }

  /** A call of the server extends the run. */
  lemma Call(run: seq<Action>, scene: Scene, call: ServerStep) returns (longer: seq<Action>)
    requires Reaches(run, scene) && ServerEnabled(Reached(START, run), call) && !call.Admit?
    ensures longer == run + [OfServer(call)] && Legal(START, longer)
    ensures var s, s' := Reached(START, run), Reached(START, longer);
            && Reaches(longer, scene.(server := ServerAfterCall(s, call), clock := call.now,
                                    lastStamp := if call.Emit? then call.stamp else scene.lastStamp))
            && s.requests <= s'.requests && s.acks <= s'.acks && s.reports <= s'.reports
            && (call.Serve? && call.sent ==> Requested(s.server, call.request, call.now).1 in s'.acks)
            && (call.Emit? ==> ReportOf(s'.server.status, call.stamp) in s'.reports)
  {
    hide Legal, Reached, ServerAfterCall, Requested, ReportOf;
    Extend(START, run, OfServer(call));
    longer := run + [OfServer(call)];
  }

  const PREPARE_REQUEST := Request(2, PREPARE, REQUEST, ID, "", "EXTERNAL")
  const PREPARE_ACK := Ack(REQUEST, Lease(2), PREPARE, 0, true)
  const ARMED_SERVER := Armed(START.server, PREPARE_REQUEST, 1)
  const ARMED_CLIENT := Began(NewClient(ID), REQUEST).(acks := map[(REQUEST, PREPARE) := PREPARE_ACK])

  lemma ServePrepare()
    ensures Requested(START.server, PREPARE_REQUEST, 1) == (ARMED_SERVER, PREPARE_ACK)
  {
  }

  // The scenes up to an acknowledged PREPARE.
  const FIRST := Scene(NODE, START.server, 0, 0, [], map[], map[])
  const BEGUN := FIRST.(node := Node(Began(NewClient(ID), REQUEST), SendingPrepare(REQUEST), map[]))
  const WAITING := BEGUN.(node := BEGUN.node.(place := AwaitingPrepare(REQUEST)))
  const SERVED := WAITING.(server := ARMED_SERVER, clock := 1)
  const HEARD := SERVED.(node := SERVED.node.(client := ARMED_CLIENT))
  const PREPARED := HEARD.(node := HEARD.node.(place := Prepared(REQUEST, PREPARE_ACK)))

  lemma ArmScenes()
    ensures NodeEnabled(FIRST.node, Begin(REQUEST)) && SceneAfter(FIRST, Begin(REQUEST)) == BEGUN
    ensures NodeEnabled(BEGUN.node, LeaseSystem.SendPrepare) && SceneAfter(BEGUN, LeaseSystem.SendPrepare) == WAITING
    ensures Sends(BEGUN.node, LeaseSystem.SendPrepare) == Some(PREPARE_REQUEST)
    ensures NodeEnabled(SERVED.node, HearAck(PREPARE_ACK)) && SceneAfter(SERVED, HearAck(PREPARE_ACK)) == HEARD
    ensures NodeEnabled(HEARD.node, LeaseSystem.TakePrepareAck) &&
            SceneAfter(HEARD, LeaseSystem.TakePrepareAck) == PREPARED
  {
    assert Lease(2) != "";
    hide Armed, Lease;
  }

  /** The client has begun a request, the server has armed it, and its acknowledgement was taken. */
  lemma Arm() returns (run: seq<Action>)
    ensures Reaches(run, PREPARED)
  {
    assert Reaches([], FIRST) && REQUEST !in Reached(START, []).begunBy;
    ServePrepare();
    ArmScenes();
    hide Legal, Reached, Requested, Armed, SceneAfter, NodeEnabled, Sends, Began, NewClient, Lease;
    run := Do([], FIRST, Begin(REQUEST));
    run := Do(run, BEGUN, LeaseSystem.SendPrepare);
    run := Call(run, WAITING, Serve(PREPARE_REQUEST, 1, true));
    run := Do(run, SERVED, HearAck(PREPARE_ACK));
    run := Do(run, HEARD, LeaseSystem.TakePrepareAck);
  }

  // ---------------------------------------------------------------------------------------
  // A close that overtakes the COMMIT
  // ---------------------------------------------------------------------------------------

  const COMMIT_REQUEST := Request(2, COMMIT, REQUEST, ID, Lease(2), "EXTERNAL")
  const EARLY_CANCEL := Request(2, CANCEL, REQUEST, ID, "", "EXTERNAL")
  const RUNNING_SERVER := Activated(ARMED_SERVER, 1)
  const CLOSED_CLIENT := ARMED_CLIENT.(closed := true, cancelSent := true)

  const CLOSING := PREPARED.(node := Node(CLOSED_CLIENT, Prepared(REQUEST, PREPARE_ACK), map[REQUEST := EARLY_CANCEL]),
                             claimed := map[REQUEST := [""]])
  const CANCELLED := CLOSING.(node := CLOSING.node.(beside := map[]), handed := map[REQUEST := [""]])
  const STORED_LATE := CANCELLED.(node := Node(CLOSED_CLIENT.(leaseId := Lease(2)), SendingCommit(REQUEST, None),
                                               map[]))
  const COMMITTED_LATE := STORED_LATE.(node := STORED_LATE.node.(place := AwaitingCommit(REQUEST, None)))
  const HELD_OPEN := COMMITTED_LATE.(server := RUNNING_SERVER)

  lemma ExtendedOnce()
    ensures Extended(map[], REQUEST, "") == map[REQUEST := [""]]
  {
    assert [] + [""] == [""];
  }

  lemma ClosingScenes()
    ensures NodeEnabled(PREPARED.node, Close) && SceneAfter(PREPARED, Close) == CLOSING
  {
    hide Armed, Lease, Extended;
    ExtendedOnce();
  }

  lemma OvertakingScenes()
    ensures NodeEnabled(CLOSING.node, HandBeside(REQUEST)) && SceneAfter(CLOSING, HandBeside(REQUEST)) == CANCELLED
    ensures Sends(CLOSING.node, HandBeside(REQUEST)) == Some(EARLY_CANCEL)
  {
    hide Armed, Lease, Extended;
    ExtendedOnce();
  }

  lemma LateScenes()
    ensures NodeEnabled(CANCELLED.node, StoreLease) && SceneAfter(CANCELLED, StoreLease) == STORED_LATE
    ensures NodeEnabled(STORED_LATE.node, SendCommit) && SceneAfter(STORED_LATE, SendCommit) == COMMITTED_LATE
    ensures Sends(STORED_LATE.node, SendCommit) == Some(COMMIT_REQUEST)
  {
    hide Armed, Lease;
  }

  lemma ServeEarlyCancel()
    ensures Requested(ARMED_SERVER, EARLY_CANCEL, 1) ==
            (ARMED_SERVER, Ack(REQUEST, "", CANCEL, 1006, false))
  {
    assert Lease(2) != "";
  }

  lemma ServeCommit()
    ensures Requested(ARMED_SERVER, COMMIT_REQUEST, 1) == (RUNNING_SERVER, Ack(REQUEST, Lease(2), COMMIT, 0, true))
    ensures RUNNING_SERVER.status.phase == RUNNING && RUNNING_SERVER.status.leaseId == Lease(2)
    ensures RUNNING_SERVER.generation == RUNNING_SERVER.status.generation == 3
  {
  }

  /** Both messages of the client are in the network, its CANCEL without a lease. */
  lemma Overtake() returns (run: seq<Action>)
    ensures Reaches(run, COMMITTED_LATE)
    ensures EARLY_CANCEL in Reached(START, run).requests && COMMIT_REQUEST in Reached(START, run).requests
  {
    run := Arm();
    ClosingScenes();
    OvertakingScenes();
    LateScenes();
    hide Legal, Reached, Requested, Armed, Activated, SceneAfter, NodeEnabled, Sends, Began, NewClient, Lease;
    run := Do(run, PREPARED, Close);
    run := Do(run, CLOSING, HandBeside(REQUEST));
    run := Do(run, CANCELLED, StoreLease);
    run := Do(run, STORED_LATE, SendCommit);
  }

  /**
   A `close` that runs between the acknowledged PREPARE and the moment the lease is stored sends its one
   CANCEL without a lease; the server refuses it, and the COMMIT that follows starts a session. In the end
   the client is closed, every message has been served, and the robot is still held.
   */
  lemma CloseMayLeaveTheRobotHeld() returns (run: seq<Action>)
    ensures Initial(START) && Legal(START, run)
    ensures var s := Reached(START, run);
            && ID in s.nodes && s.nodes[ID].client.closed && s.nodes[ID].beside == map[]
            && REQUEST in s.handed && s.claimed == s.handed && s.handed[REQUEST] == [""]
            && s.server.status.phase == RUNNING && s.server.status.clientId == ID
            && s.server.status.leaseId == s.nodes[ID].client.leaseId != ""
  {
    StartIsInitial();
    run := Overtake();
    ServeEarlyCancel();
    ServeCommit();
    assert Lease(2) != "" && RUNNING_SERVER.status.clientId == ID;
    hide Legal, Reached, Requested, Armed, Activated, Began, NewClient, Lease;
    run := Call(run, COMMITTED_LATE, Serve(EARLY_CANCEL, 1, true));
    run := Call(run, COMMITTED_LATE.(clock := 1), Serve(COMMIT_REQUEST, 1, true));
    assert Reaches(run, HELD_OPEN);
  }

  // ---------------------------------------------------------------------------------------
  // An exit on another thread that overtakes the COMMIT
  // ---------------------------------------------------------------------------------------

  const COMMIT_ACK := Ack(REQUEST, Lease(2), COMMIT, 0, true)
  const RUNNING_REPORT := Report(3, true, RUNNING, ID, Lease(2), 3, 1)

  // The scenes of an entry; `spent` says whether another thread has spent its CANCEL after the PREPARE.

  function Holder(spent: bool): Client { ARMED_CLIENT.(cancelSent := spent, leaseId := Lease(2)) }

  function Entering(spent: bool): Client {
    Holder(spent).(acks := Holder(spent).acks[(REQUEST, COMMIT) := COMMIT_ACK])
  }

  function Informed(spent: bool): Client { Entering(spent).(latest := Some(RUNNING_REPORT)) }

  function Reset(spent: bool): Client { Informed(spent).(sessionId := 3, nextSequence := 1) }

  function Ready(spent: bool): Scene {
    if !spent then PREPARED
    else PREPARED.(node := PREPARED.node.(client := ARMED_CLIENT.(cancelSent := true)),
                   claimed := map[REQUEST := [""]], handed := map[REQUEST := [""]])
  }

  function Stored(spent: bool): Scene {
    Ready(spent).(node := Node(Holder(spent), SendingCommit(REQUEST, None), map[]))
  }

  function Committed(spent: bool): Scene {
    Stored(spent).(node := Stored(spent).node.(place := AwaitingCommit(REQUEST, None)))
  }

  function Active(spent: bool): Scene { Committed(spent).(server := RUNNING_SERVER) }

  function Acked(spent: bool): Scene {
    Active(spent).(node := Node(Entering(spent), AwaitingCommit(REQUEST, None), map[]))
  }

  function Watching(spent: bool): Scene {
    Acked(spent).(node := Node(Entering(spent), AwaitingRunning(REQUEST, None), map[]))
  }

  function Reported(spent: bool): Scene { Watching(spent).(lastStamp := 1) }

  function Told(spent: bool): Scene {
    Reported(spent).(node := Node(Informed(spent), AwaitingRunning(REQUEST, None), map[]))
  }

  lemma CommitScenes(spent: bool)
    ensures NodeEnabled(Ready(spent).node, StoreLease) && SceneAfter(Ready(spent), StoreLease) == Stored(spent)
    ensures NodeEnabled(Stored(spent).node, SendCommit) && SceneAfter(Stored(spent), SendCommit) == Committed(spent)
    ensures Sends(Stored(spent).node, SendCommit) == Some(COMMIT_REQUEST)
  {
    hide Armed, Lease, Activated;
  }

  lemma RunningScenes(spent: bool)
    ensures NodeEnabled(Active(spent).node, HearAck(COMMIT_ACK)) &&
            SceneAfter(Active(spent), HearAck(COMMIT_ACK)) == Acked(spent)
  {
    hide Armed, Lease, Activated;
  }

  lemma AckedScenes(spent: bool)
    ensures NodeEnabled(Acked(spent).node, TakeCommitAck) && SceneAfter(Acked(spent), TakeCommitAck) == Watching(spent)
  {
    hide Armed, Lease, Activated;
  }

  lemma ReportedScenes(spent: bool)
    ensures NodeEnabled(Reported(spent).node, HearReport(RUNNING_REPORT)) &&
            SceneAfter(Reported(spent), HearReport(RUNNING_REPORT)) == Told(spent)
  {
    hide Armed, Lease, Activated;
  }

  lemma WatchedWhileRunning()
    ensures Watched(RUNNING_SERVER, 1) == RUNNING_SERVER
    ensures ReportOf(RUNNING_SERVER.status, 1) == RUNNING_REPORT
  {
  }

  /** The server has started the session of a client that stands before its COMMIT. */
  lemma Activate(run: seq<Action>, spent: bool) returns (longer: seq<Action>)
    requires Reaches(run, Ready(spent))
    ensures Reaches(longer, Active(spent)) && COMMIT_ACK in Reached(START, longer).acks
  {
    hide Legal, Reached, Requested, Armed, Activated, SceneAfter, NodeEnabled, Sends, Began, NewClient, Lease;
    CommitScenes(spent);
    ServeCommit();
    longer := Do(run, Ready(spent), StoreLease);
    longer := Do(longer, Stored(spent), SendCommit);
    longer := Call(longer, Committed(spent), Serve(COMMIT_REQUEST, 1, true));
  }

  /** The client holds a running session and has been told so; entering has not returned. */
  lemma Inform(run: seq<Action>, spent: bool) returns (longer: seq<Action>)
    requires Reaches(run, Ready(spent))
    ensures Reaches(longer, Told(spent))
  {
    hide Legal, Reached, Requested, Armed, Activated, SceneAfter, NodeEnabled, Sends, Began, NewClient, Lease,
         Watched, ReportOf;
    longer := Activate(run, spent);
    RunningScenes(spent);
    AckedScenes(spent);
    ReportedScenes(spent);
    WatchedWhileRunning();
    longer := Do(longer, Active(spent), HearAck(COMMIT_ACK));
    longer := Do(longer, Acked(spent), TakeCommitAck);
    longer := Call(longer, Watching(spent), LeaseSystem.Emit(1, 1));
    longer := Do(longer, Reported(spent), HearReport(RUNNING_REPORT));
  }

  const LEAVING := PREPARED.(node := Node(ARMED_CLIENT.(cancelSent := true), Prepared(REQUEST, PREPARE_ACK),
                                          map[REQUEST := EARLY_CANCEL]),
                             claimed := map[REQUEST := [""]])
  const ENTERED_SPENT := Told(true).(node := Node(Reset(true), Outside, map[]))

  lemma LeavingScenes()
    ensures NodeEnabled(PREPARED.node, ExitBeside) && SceneAfter(PREPARED, ExitBeside) == LEAVING
  {
    hide Armed, Lease, Extended;
    ExtendedOnce();
  }

  lemma SpentScenes()
    ensures NodeEnabled(LEAVING.node, HandBeside(REQUEST)) && SceneAfter(LEAVING, HandBeside(REQUEST)) == Ready(true)
    ensures Sends(LEAVING.node, HandBeside(REQUEST)) == Some(EARLY_CANCEL)
  {
    hide Armed, Lease, Extended;
    ExtendedOnce();
  }

  const SEEN_SPENT := Told(true).(node := Told(true).node.(place := SeesRunning(REQUEST, RUNNING_REPORT)))

  lemma LeaseNotEmpty()
    ensures Lease(2) != ""
  {
  }

  lemma EnteredSpentScenes()
    ensures NodeEnabled(Told(true).node, TakeRunning) && SceneAfter(Told(true), TakeRunning) == SEEN_SPENT
    ensures NodeEnabled(SEEN_SPENT.node, FinishEntry) && SceneAfter(SEEN_SPENT, FinishEntry) == ENTERED_SPENT
  {
    hide Armed, Lease, Activated;
    LeaseNotEmpty();
  }

  lemma ServedClient()
    ensures RUNNING_SERVER.status.clientId == ID
  {
  }

  lemma HeldSpent()
    ensures RUNNING_SERVER.status.clientId == ID && Ready(true).claimed == Ready(true).handed == map[REQUEST := [""]]
    ensures var c := Reset(true);
            !c.closed && c.cancelSent && c.requestId == Some(REQUEST) && c.leaseId == Lease(2)
  {
    hide Armed, Lease, Activated;
    assert RUNNING_SERVER.status.clientId == ID by { ServedClient(); }
  }

  /** Another thread has spent the CANCEL, and the server has refused it. */
  lemma Spend() returns (run: seq<Action>)
    ensures Reaches(run, Ready(true))
  {
    hide Legal, Reached, Requested, Armed, Activated, SceneAfter, NodeEnabled, Sends, Began, NewClient, Lease;
    run := Arm();
    LeavingScenes();
    SpentScenes();
    ServeEarlyCancel();
    run := Do(run, PREPARED, ExitBeside);
    run := Do(run, LEAVING, HandBeside(REQUEST));
    run := Call(run, Ready(true), Serve(EARLY_CANCEL, 1, true));
  }

  /**
   An exit on another thread between the acknowledged PREPARE and the moment the lease is stored spends the one
   CANCEL of the request without a lease; the server refuses it. Entering then returns, the client is open and
   holds a running session, and it has no CANCEL left to give it back.
   */
  lemma ExitMaySpendTheCancel() returns (run: seq<Action>)
    ensures Initial(START) && Legal(START, run)
    ensures var s := Reached(START, run);
            && ID in s.nodes && !s.nodes[ID].client.closed && s.nodes[ID].place.Outside?
            && s.nodes[ID].client.requestId == Some(REQUEST) && s.nodes[ID].client.cancelSent
            && REQUEST in s.handed && s.claimed == s.handed && s.handed[REQUEST] == [""]
            && s.server.status.phase == RUNNING && s.server.status.clientId == ID
            && s.server.status.leaseId == s.nodes[ID].client.leaseId != ""
  {
    hide Legal, Reached, Requested, Armed, Activated, SceneAfter, NodeEnabled, Sends, Began, NewClient, Lease;
    StartIsInitial();
    run := Spend();
    run := Inform(run, true);
    EnteredSpentScenes();
    run := Do(run, Told(true), TakeRunning);
    run := Do(run, SEEN_SPENT, FinishEntry);
    assert Reaches(run, ENTERED_SPENT);
    LeaseNotEmpty();
    ServeCommit();
    HeldSpent();
  }

  // ---------------------------------------------------------------------------------------
  // A publish before entering has returned
  // ---------------------------------------------------------------------------------------

  const FIRST_COMMAND := DEFAULT_COMMAND.(session := 3, sequence := 1)
  const FIRST_ISSUE := Issue(FIRST_COMMAND, ID, REQUEST, Lease(2), DEFAULT_COMMAND)
  const PUBLISHED := Informed(false).(sessionId := 3, nextSequence := 2)

  const FIRST_OUT := Told(false).(node := Node(PUBLISHED, AwaitingRunning(REQUEST, None), map[]),
                                   issues := [FIRST_ISSUE])
  const SEEN := FIRST_OUT.(node := Node(PUBLISHED, SeesRunning(REQUEST, RUNNING_REPORT), map[]))
  const ENTERED := SEEN.(node := Node(Reset(false), Outside, map[]))
  const SECOND_OUT := ENTERED.(node := Node(PUBLISHED, Outside, map[]), issues := [FIRST_ISSUE, FIRST_ISSUE])

  lemma EarlyScenes()
    ensures NodeEnabled(Told(false).node, Publish(DEFAULT_COMMAND)) &&
            SceneAfter(Told(false), Publish(DEFAULT_COMMAND)) == FIRST_OUT
    ensures NodeEnabled(FIRST_OUT.node, TakeRunning) && SceneAfter(FIRST_OUT, TakeRunning) == SEEN
  {
    hide Armed, Lease, Activated;
    LeaseNotEmpty();
  }

  lemma SeenScenes()
    ensures NodeEnabled(SEEN.node, FinishEntry) && SceneAfter(SEEN, FinishEntry) == ENTERED
  {
    hide Armed, Lease, Activated;
    LeaseNotEmpty();
  }

  lemma EnteredScenes()
    ensures NodeEnabled(ENTERED.node, Publish(DEFAULT_COMMAND)) &&
            SceneAfter(ENTERED, Publish(DEFAULT_COMMAND)) == SECOND_OUT
  {
    hide Armed, Lease, Activated;
    LeaseNotEmpty();
  }

  /**
   A publish between the arrival of the RUNNING status and the return of entering: the return sets the
   sequence back to one, so the next command repeats the identity of the first.
   */
  lemma EntryMayRepeatAnIdentity() returns (run: seq<Action>)
    ensures Initial(START) && Legal(START, run)
    ensures Reached(START, run).issues == [FIRST_ISSUE, FIRST_ISSUE]
  {
    hide Legal, Reached, SceneAfter, NodeEnabled, Sends, Activated, Armed, Began, NewClient, Lease, Initial;
    StartIsInitial();
    run := Arm();
    run := Inform(run, false);
    EarlyScenes();
    SeenScenes();
    EnteredScenes();
    run := Do(run, Told(false), Publish(DEFAULT_COMMAND));
    run := Do(run, FIRST_OUT, TakeRunning);
    run := Do(run, SEEN, FinishEntry);
    run := Do(run, ENTERED, Publish(DEFAULT_COMMAND));
    assert Reaches(run, SECOND_OUT);
  }

  // ---------------------------------------------------------------------------------------
  // A close that returns before the CANCEL is out
  // ---------------------------------------------------------------------------------------

  const FAILED := BEGUN.(node := BEGUN.node.(place := EntryFailed(REQUEST)))
  const CLAIMED := FAILED.(node := Node(FAILED.node.client.(cancelSent := true),
                                        Cancelling(REQUEST, EARLY_CANCEL, false), map[]),
                           claimed := map[REQUEST := [""]])
  const CLOSED_EARLY := CLAIMED.(node := CLAIMED.node.(client := CLAIMED.node.client.(closed := true)))

  lemma FailedScenes()
    ensures NodeEnabled(FIRST.node, Begin(REQUEST)) && SceneAfter(FIRST, Begin(REQUEST)) == BEGUN
    ensures NodeEnabled(BEGUN.node, FailEntry) && SceneAfter(BEGUN, FailEntry) == FAILED
  {
    hide Extended;
  }

  lemma ClaimedScenes()
    ensures NodeEnabled(FAILED.node, ClaimCancel) && SceneAfter(FAILED, ClaimCancel) == CLAIMED
    ensures NodeEnabled(CLAIMED.node, Close) && SceneAfter(CLAIMED, Close) == CLOSED_EARLY
  {
    hide Extended;
    ExtendedOnce();
  }

  /** `close` has returned, and the CANCEL that a failed entry claimed has not been handed over. */
  lemma CloseMayReturnBeforeTheCancel() returns (run: seq<Action>)
    ensures Initial(START) && Legal(START, run)
    ensures var s := Reached(START, run);
            && ID in s.nodes && s.nodes[ID].client.closed && s.nodes[ID].beside == map[]
            && REQUEST in s.claimed && REQUEST !in s.handed
  {
    StartIsInitial();
    assert Reaches([], FIRST) && REQUEST !in Reached(START, []).begunBy;
    FailedScenes();
    ClaimedScenes();
    hide Legal, Reached, SceneAfter, NodeEnabled, Began, NewClient;
    run := Do([], FIRST, Begin(REQUEST));
    run := Do(run, BEGUN, FailEntry);
    run := Do(run, FAILED, ClaimCancel);
    run := Do(run, CLAIMED, Close);
  }

  lemma SecondCloseScenes()
    ensures NodeEnabled(CLOSING.node, Close) && SceneAfter(CLOSING, Close) == CLOSING
  {
    hide Armed, Lease, Extended;
  }

  /** A run that reaches an acknowledged PREPARE is not empty. */
  lemma PrepareComesFirst(run: seq<Action>)
    requires Reaches(run, PREPARED)
    ensures run != []
  {
  }

  /** A second `close` has returned, and the CANCEL that the first one claimed has not been handed over. */
  lemma SecondCloseMayReturnBeforeTheCancel() returns (run: seq<Action>)
    ensures Initial(START) && Legal(START, run)
    ensures |run| > 2 && run[|run| - 2..] == [Of(ID, Close), Of(ID, Close)]
    ensures var s := Reached(START, run);
            && ID in s.nodes && s.nodes[ID].client.closed && !s.nodes[ID].place.Cancelling?
            && REQUEST in s.claimed && REQUEST !in s.handed
  {
    hide Legal, Reached, SceneAfter, NodeEnabled, Sends, Activated, Armed, Began, NewClient, Lease, Initial, Extended;
    StartIsInitial();
    var armed := Arm();
    ClosingScenes();
    SecondCloseScenes();
    var once := Do(armed, PREPARED, Close);
    run := Do(once, CLOSING, Close);
    assert run == armed + [Of(ID, Close), Of(ID, Close)];
    PrepareComesFirst(armed);
  }
}
