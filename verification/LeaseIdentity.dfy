/**
 The identities a client assigns to its commands: within a session the sequences run 1, 2, 3, ..., and no
 (session, sequence) pair is assigned twice, unless a command was published before entering had returned.
 */
module LeaseIdentity {
  import opened Wrappers
  import opened LeaseServer
  import opened Controller
  import opened LeaseSystem
  import opened LeaseSafety
  import opened LeaseTheorems

  /** How many commands were issued under a lease. */
  function Count(issues: seq<Issue>, lease: string): nat
    decreases |issues|
  {
    if issues == [] then 0
    else
      var last := |issues| - 1;
      Count(issues[..last], lease) + if issues[last].leaseId == lease then 1 else 0
  }

  lemma CountAppends(issues: seq<Issue>, issue: Issue, lease: string)
    ensures Count(issues + [issue], lease) == Count(issues, lease) + if issue.leaseId == lease then 1 else 0
  {
    assert (issues + [issue])[..|issues|] == issues;
  }

  lemma {:induction false} CountPrefix(issues: seq<Issue>, i: nat, j: nat, lease: string)
    requires i < j <= |issues| && issues[i].leaseId == lease
    ensures Count(issues[..i], lease) < Count(issues[..j], lease)
    decreases j
  {
    assert issues[..j][..j - 1] == issues[..j - 1];
    if i < j - 1 {
      CountPrefix(issues, i, j - 1, lease);
    }
  }

  lemma {:induction false} NoneCounted(issues: seq<Issue>, lease: string)
    requires forall i | 0 <= i < |issues| :: issues[i].leaseId != lease
    ensures Count(issues, lease) == 0
    decreases |issues|
  {
    if issues != [] {
      NoneCounted(issues[..|issues| - 1], lease);
    }
  }

  /** The sequence number of entry `i` among the commands of its lease. */
  ghost predicate GoodSequence(issues: seq<Issue>, early: set<string>, i: nat)
    requires i < |issues|
  {
    var n := Count(issues[..i], issues[i].leaseId);
    && (n == 0 ==> issues[i].command.sequence == 1)
    && (issues[i].leaseId !in early ==> issues[i].command.sequence == n + 1)
  }

  /** What a client that holds a lease knows of the commands issued under it. */
  ghost predicate Counts(c: Client, place: Place, session: nat, issued: nat, isEarly: bool) {
    && (c.sessionId == session || issued == 0)
    && (c.sessionId == session && !isEarly ==> c.nextSequence == issued + 1)
    && (place.InEntry() && !isEarly ==> issued == 0)
    && (isEarly ==> issued > 0)
  }

  ghost predicate SequenceNode(s: System, n: Node) {
    var c := n.client;
    if c.leaseId == "" then
      && c.nextSequence == 1 && c.sessionId == 0
      && (c.requestId.Some? ==> forall i | 0 <= i < |s.issues| :: s.issues[i].requestId != c.requestId.value)
    else
      && c.leaseId in s.grants
      && Counts(c, n.place, s.grants[c.leaseId].number + 1, Count(s.issues, c.leaseId), c.leaseId in s.early)
  }

  ghost predicate IdentityInv(s: System) {
    && (forall i | 0 <= i < |s.issues| :: GoodSequence(s.issues, s.early, i))
    && (forall id | id in s.nodes :: SequenceNode(s, s.nodes[id]))
    && (forall lease | lease in s.early :: Count(s.issues, lease) > 0)
  }

  /** What the step of a node adds to the issues and to the early leases. */
  lemma NodeStepIssued(s: System, id: string, step: NodeStep)
    requires Enabled(s, Of(id, step))
    ensures var s', n := AfterNode(s, id, step), s.nodes[id];
            && s'.nodes == s.nodes[id := NodeAfter(n, step)] && s'.grants == s.grants
            && s'.issues == (if step.Publish? then s.issues + [IssueOf(n, step.command)] else s.issues)
            && s'.early == (if step.Publish? && n.place.InEntry() then s.early + {n.client.leaseId} else s.early)
  {
  }

  /** Under a lease that a client has not stored yet, nothing was issued. */
  lemma UnstoredLeaseIsUnused(s: System, id: string, lease: string, r: string)
    requires ServerInv(s) && IssuesInv(s) && Owned(s, lease, id, r)
    requires forall i | 0 <= i < |s.issues| :: s.issues[i].requestId != r
    ensures Count(s.issues, lease) == 0
  {
    forall i | 0 <= i < |s.issues|
      ensures s.issues[i].leaseId != lease
    {
      assert GoodIssue(s, s.issues[i]);
    }
    NoneCounted(s.issues, lease);
  }

  predicate MovesSequence(step: NodeStep) {
    step.Begin? || step.StoreLease? || step.FinishEntry? || step.FinishExit? || step.Publish?
  }

  /** Every other step leaves the session, the lease and the next sequence alone, and enters nothing. */
  lemma StillStep(n: Node, step: NodeStep)
    requires NodeEnabled(n, step) && !MovesSequence(step)
    ensures var c, c' := n.client, ClientAfter(n, step);
            && c'.leaseId == c.leaseId && c'.requestId == c.requestId
            && c'.sessionId == c.sessionId && c'.nextSequence == c.nextSequence
    ensures PlaceAfter(n, step).InEntry() ==> n.place.InEntry()
  {
  }

  lemma StillCounts(s: System, n: Node, n': Node)
    requires SequenceNode(s, n)
    requires n'.client.leaseId == n.client.leaseId && n'.client.requestId == n.client.requestId
    requires n'.client.sessionId == n.client.sessionId && n'.client.nextSequence == n.client.nextSequence
    requires n'.place.InEntry() ==> n.place.InEntry()
    ensures SequenceNode(s, n')
  {
  }

  lemma StoreLeaseCounts(s: System, id: string)
    requires SystemInv(s) && IdentityInv(s) && Enabled(s, Of(id, LeaseSystem.StoreLease))
    ensures SequenceNode(s, NodeAfter(s.nodes[id], LeaseSystem.StoreLease))
  {
    var n := s.nodes[id];
    assert GoodNode(s, id, n) && SequenceNode(s, n);
    var lease := n.place.ack.leaseId;
    AckedLeaseIsOwned(s, id, n.place.ack);
    UnstoredLeaseIsUnused(s, id, lease, n.place.requestId);
    assert GoodGrant(s, lease);
    hide SystemInv, GoodNode;
  }

  lemma FinishEntryCounts(s: System, id: string)
    requires SystemInv(s) && IdentityInv(s) && Enabled(s, Of(id, FinishEntry))
    ensures SequenceNode(s, NodeAfter(s.nodes[id], FinishEntry))
  {
    var n := s.nodes[id];
    assert GoodNode(s, id, n) && SequenceNode(s, n);
    assert GoodReport(s, n.place.report);
    hide SystemInv, IdentityInv, GoodNode;
  }

  lemma BeginCounts(s: System, id: string, r: string)
    requires SystemInv(s) && Enabled(s, Of(id, Begin(r)))
    ensures SequenceNode(s, NodeAfter(s.nodes[id], Begin(r)))
  {
    forall i | 0 <= i < |s.issues|
      ensures s.issues[i].requestId != r
    {
      assert GoodIssue(s, s.issues[i]) && GoodGrant(s, s.issues[i].leaseId);
    }
    hide SystemInv;
  }

  /** A client's own step that publishes nothing keeps its count. */
  lemma QuietStepKeepsCount(s: System, id: string, step: NodeStep)
    requires SystemInv(s) && IdentityInv(s) && Enabled(s, Of(id, step)) && !step.Publish?
    ensures SequenceNode(s, NodeAfter(s.nodes[id], step))
  {
    assert SequenceNode(s, s.nodes[id]);
    hide SystemInv, IdentityInv, PlaceAfter, GoodSequence;
    if step.StoreLease? {
      StoreLeaseCounts(s, id);
    } else if step.FinishEntry? {
      FinishEntryCounts(s, id);
    } else if step.Begin? {
      BeginCounts(s, id, step.requestId);
    } else if step.FinishExit? {
      hide NodeEnabled;
    } else {
      StillStep(s.nodes[id], step);
      hide ClientAfter, NodeEnabled, Count;
      StillCounts(s, s.nodes[id], NodeAfter(s.nodes[id], step));
    }
  }

  /** A command is published under the lease and the request of its publisher. */
  lemma IssueNames(n: Node, command: Command)
    requires NodeEnabled(n, Publish(command))
    ensures n.client.leaseId != "" && n.client.requestId.Some?
    ensures IssueOf(n, command).leaseId == n.client.leaseId
    ensures IssueOf(n, command).requestId == n.client.requestId.value
  {
  }

  /** A client that may publish holds a recorded lease, whose session it was told of. */
  lemma PublisherKnows(s: System, id: string, command: Command)
    requires SystemInv(s) && IdentityInv(s) && Enabled(s, Of(id, Publish(command)))
    ensures var n := s.nodes[id];
            var lease := n.client.leaseId;
            && SequenceNode(s, n) && n.client.id == id && lease != "" && lease in s.grants
            && IssueOf(n, command).command.session == s.grants[lease].number + 1
  {
    hide GoodSequence, Count, Counts;
    assert GoodNode(s, id, s.nodes[id]) && SequenceNode(s, s.nodes[id]);
    PublishedIssueGood(s, id, command);
  }

  /** What a publish assigns, and what the client counts afterwards. */
  lemma PublishCounts(s: System, id: string, command: Command)
    requires SystemInv(s) && IdentityInv(s) && Enabled(s, Of(id, Publish(command)))
    ensures var s' := AfterNode(s, id, Publish(command));
            && SequenceNode(s', s'.nodes[id])
            && GoodSequence(s'.issues, s'.early, |s.issues|)
  {
    hide SystemInv, IdentityInv, GoodNode, AfterNode, PlaceAfter, BesideAfter, Count;
    var n := s.nodes[id];
    PublisherKnows(s, id, command);
    OtherThreadsKeepSession(n, Publish(command));
    NodeStepIssued(s, id, Publish(command));
    CountAppends(s.issues, IssueOf(n, command), n.client.leaseId);
    assert AfterNode(s, id, Publish(command)).issues[..|s.issues|] == s.issues;
  }

  /** An issue under a lease that is not the client's leaves the client's count alone. */
  lemma ForeignIssue(s: System, s': System, m: Node, issue: Issue)
    requires SequenceNode(s, m)
    requires s'.issues == s.issues + [issue] && s'.grants == s.grants
    requires s.early <= s'.early <= s.early + {issue.leaseId}
    requires m.client.leaseId != issue.leaseId && m.client.requestId != Some(issue.requestId)
    ensures SequenceNode(s', m)
  {
    CountAppends(s.issues, issue, m.client.leaseId);
  }

  /** Two clients hold neither a lease nor a request in common. */
  lemma ClientsApart(s: System, id: string, other: string)
    requires NodesInv(s) && id in s.nodes && other in s.nodes && id != other
    ensures s.nodes[id].client.leaseId != "" ==> s.nodes[id].client.leaseId != s.nodes[other].client.leaseId
    ensures s.nodes[id].client.requestId.Some? ==> s.nodes[id].client.requestId != s.nodes[other].client.requestId
  {
    assert GoodNode(s, id, s.nodes[id]) && GoodNode(s, other, s.nodes[other]);
  }

  /** A publish of one client changes no other client's count. */
  lemma OtherClientsKeepCount(s: System, id: string, command: Command, other: string)
    requires SystemInv(s) && IdentityInv(s) && Enabled(s, Of(id, Publish(command)))
    requires other in s.nodes && other != id
    ensures SequenceNode(AfterNode(s, id, Publish(command)), s.nodes[other])
  {
    assert SequenceNode(s, s.nodes[other]) && NodesInv(s);
    hide SystemInv, IdentityInv, AfterNode, IssueOf, NodesInv, GoodSequence, NodeEnabled, SequenceNode, Count;
    ClientsApart(s, id, other);
    IssueNames(s.nodes[id], command);
    NodeStepIssued(s, id, Publish(command));
    ForeignIssue(s, AfterNode(s, id, Publish(command)), s.nodes[other], IssueOf(s.nodes[id], command));
  }

  lemma NodeStepSequences(s: System, id: string, step: NodeStep, i: nat)
    requires SystemInv(s) && IdentityInv(s) && Enabled(s, Of(id, step))
    requires i < |AfterNode(s, id, step).issues|
    ensures GoodSequence(AfterNode(s, id, step).issues, AfterNode(s, id, step).early, i)
  {
    NodeStepIssued(s, id, step);
    if i == |s.issues| {
      PublishCounts(s, id, step.command);
    } else {
      assert GoodSequence(s.issues, s.early, i);
      assert AfterNode(s, id, step).issues[..i] == s.issues[..i];
    }
    hide SystemInv, IdentityInv, AfterNode, NodeEnabled;
  }

  lemma NodeStepEarly(s: System, id: string, step: NodeStep, lease: string)
    requires SystemInv(s) && IdentityInv(s) && Enabled(s, Of(id, step)) && lease in AfterNode(s, id, step).early
    ensures Count(AfterNode(s, id, step).issues, lease) > 0
  {
    assert lease in s.early ==> Count(s.issues, lease) > 0;
    hide SystemInv, IdentityInv, AfterNode, NodeAfter, NodeEnabled, GoodSequence, IssueOf, SequenceNode, Count;
    NodeStepIssued(s, id, step);
    if step.Publish? {
      CountAppends(s.issues, IssueOf(s.nodes[id], step.command), lease);
      IssueNames(s.nodes[id], step.command);
    }
  }

  lemma SameRecordKeepsCount(s: System, s': System, m: Node)
    requires SequenceNode(s, m) && s'.issues == s.issues && s'.grants == s.grants && s'.early == s.early
    ensures SequenceNode(s', m)
  {
  }

  lemma NodeStepCounts(s: System, id: string, step: NodeStep, other: string)
    requires SystemInv(s) && IdentityInv(s) && Enabled(s, Of(id, step)) && other in s.nodes
    ensures SequenceNode(AfterNode(s, id, step), AfterNode(s, id, step).nodes[other])
  {
    NodeStepIssued(s, id, step);
    assert SequenceNode(s, s.nodes[other]);
    hide SystemInv, IdentityInv, AfterNode, NodeAfter, NodeEnabled, GoodSequence, IssueOf, SequenceNode;
    if step.Publish? {
      if other == id {
        PublishCounts(s, id, step.command);
      } else {
        OtherClientsKeepCount(s, id, step.command, other);
      }
    } else {
      var m := if other == id then NodeAfter(s.nodes[id], step) else s.nodes[other];
      if other == id {
        QuietStepKeepsCount(s, id, step);
      }
      SameRecordKeepsCount(s, AfterNode(s, id, step), m);
    }
  }

  lemma NodeStepIdentity(s: System, id: string, step: NodeStep)
    requires SystemInv(s) && IdentityInv(s) && Enabled(s, Of(id, step))
    ensures IdentityInv(AfterNode(s, id, step))
  {
    var s' := AfterNode(s, id, step);
    NodeStepIssued(s, id, step);
    hide SystemInv, AfterNode, NodeAfter, NodeEnabled, GoodSequence, IssueOf, SequenceNode, Count;
    forall i | 0 <= i < |s'.issues| ensures GoodSequence(s'.issues, s'.early, i) { NodeStepSequences(s, id, step, i); }
    forall lease | lease in s'.early ensures Count(s'.issues, lease) > 0 { NodeStepEarly(s, id, step, lease); }
    forall other | other in s'.nodes ensures SequenceNode(s', s'.nodes[other]) { NodeStepCounts(s, id, step, other); }
  }

  lemma NextIdentity(s: System, a: Action)
    requires SystemInv(s) && IdentityInv(s) && Enabled(s, a)
    ensures IdentityInv(Next(s, a))
  {
    match a
    case Of(id, step) => NodeStepIdentity(s, id, step);
    case OfServer(call) =>
      NextExtends(s, a);
      ServerStepFrame(s, call);
      hide SystemInv, AfterServer, GoodSequence, Count;
      forall id | id in s.nodes
        ensures SequenceNode(Next(s, a), s.nodes[id])
      {
        assert SequenceNode(s, s.nodes[id]);
      }
  }

  lemma {:induction false} ReachedIdentity(s: System, run: seq<Action>)
    requires SystemInv(s) && IdentityInv(s) && Legal(s, run)
    ensures IdentityInv(Reached(s, run))
    decreases |run|
  {
    hide SystemInv, IdentityInv, Next, Enabled;
    if run != [] {
      NextInv(s, run[0]);
      NextIdentity(s, run[0]);
      ReachedIdentity(Next(s, run[0]), run[1..]);
    }
  }

  /** The sequences of a session run 1, 2, 3, ... unless it was published under before entering returned. */
  lemma SequencesRunFromOne(s0: System, run: seq<Action>, i: nat)
    requires Initial(s0) && Legal(s0, run) && i < |Reached(s0, run).issues|
    requires Reached(s0, run).issues[i].leaseId !in Reached(s0, run).early
    ensures var issues := Reached(s0, run).issues;
            issues[i].command.sequence == Count(issues[..i], issues[i].leaseId) + 1
  {
    InitialInv(s0);
    ReachedIdentity(s0, run);
    assert GoodSequence(Reached(s0, run).issues, Reached(s0, run).early, i);
  }

  /** Commands with one session number were issued under one lease. */
  lemma OneLeasePerSession(s: System, i: nat, j: nat)
    requires ServerInv(s) && IssuesInv(s) && i < |s.issues| && j < |s.issues|
    requires s.issues[i].command.session == s.issues[j].command.session
    ensures s.issues[i].leaseId == s.issues[j].leaseId
  {
    assert GoodIssue(s, s.issues[i]) && GoodIssue(s, s.issues[j]);
    assert GoodGrant(s, s.issues[i].leaseId) && GoodGrant(s, s.issues[j].leaseId);
  }

  /** No identity is assigned twice, by whichever clients and in whichever sessions. */
  lemma NoIdentityTwice(s0: System, run: seq<Action>, i: nat, j: nat)
    requires Initial(s0) && Legal(s0, run) && i < j < |Reached(s0, run).issues|
    requires Reached(s0, run).issues[i].leaseId !in Reached(s0, run).early
    ensures var issues := Reached(s0, run).issues;
            issues[i].command.session != issues[j].command.session ||
            issues[i].command.sequence != issues[j].command.sequence
  {
    InitialInv(s0);
    ReachedInv(s0, run);
    ReachedIdentity(s0, run);
    var s := Reached(s0, run);
    if s.issues[i].command.session == s.issues[j].command.session {
      OneLeasePerSession(s, i, j);
      assert GoodSequence(s.issues, s.early, i) && GoodSequence(s.issues, s.early, j);
      CountPrefix(s.issues, i, j, s.issues[i].leaseId);
    }
  }

  lemma {:induction false} FirstCounted(issues: seq<Issue>, lease: string) returns (i: nat)
    requires Count(issues, lease) > 0
    ensures i < |issues| && issues[i].leaseId == lease && Count(issues[..i], lease) == 0
    decreases |issues|
  {
    var last := |issues| - 1;
    if Count(issues[..last], lease) == 0 {
      i := last;
    } else {
      i := FirstCounted(issues[..last], lease);
      assert issues[..last][..i] == issues[..i];
    }
  }

  predicate Assigned(issues: seq<Issue>, session: nat, sequence: nat) {
    exists i :: 0 <= i < |issues| && issues[i].command.session == session && issues[i].command.sequence == sequence
  }

  /** Nothing carries the session of a lease under which nothing was issued. */
  lemma EntryAssignedNone(s: System, lease: string, session: nat)
    requires ServerInv(s) && IssuesInv(s) && lease in s.grants && session == s.grants[lease].number + 1
    requires Count(s.issues, lease) == 0
    ensures forall i | 0 <= i < |s.issues| :: s.issues[i].command.session != session
  {
    forall i | 0 <= i < |s.issues|
      ensures s.issues[i].command.session != session
    {
      if s.issues[i].command.session == session {
        assert GoodIssue(s, s.issues[i]) && GoodGrant(s, s.issues[i].leaseId) && GoodGrant(s, lease);
        assert s.issues[..|s.issues|] == s.issues;
        CountPrefix(s.issues, i, |s.issues|, lease);
      }
    }
  }

  /**
   When entering returns, the next identity of the session, sequence 1, has been assigned before exactly
   when a command was published under the lease while the entry was still in progress.
   */
  lemma EntryRepeatsIdentityIffEarly(s0: System, run: seq<Action>, id: string)
    requires Initial(s0) && Legal(s0, run) && Enabled(Reached(s0, run), Of(id, FinishEntry))
    ensures var s := Reached(s0, run);
            var c := Next(s, Of(id, FinishEntry)).nodes[id].client;
            && c.nextSequence == 1
            && (Assigned(s.issues, c.sessionId, c.nextSequence) <==> s.nodes[id].client.leaseId in s.early)
  {
    InitialInv(s0);
    ReachedInv(s0, run);
    ReachedIdentity(s0, run);
    var s := Reached(s0, run);
    var n := s.nodes[id];
    var lease := n.client.leaseId;
    assert GoodNode(s, id, n) && SequenceNode(s, n) && GoodReport(s, n.place.report) && GoodGrant(s, lease);
    assert IssuesInv(s) && ServerInv(s);
    hide Legal, Reached, SystemInv, GoodNode, ServerInv, PlaceAfter, Lease;
    if lease in s.early {
      var i := FirstCounted(s.issues, lease);
      assert GoodIssue(s, s.issues[i]) && GoodSequence(s.issues, s.early, i);
    } else {
      EntryAssignedNone(s, lease, n.place.report.generation);
    }
  }
}
