/**
 The watchdog, over every run: it ends an arming or a running session exactly when it has been silent for its timeout,
 no later and no earlier, measured from the calls that an observer sees.
 */
module LeaseTimers {
  import opened Words
  import opened LeaseServer
  import opened LeaseRuns

  /** The settings of a server. */
  datatype Setup = Setup(seed: nat, commandTimeoutNs: nat, prepareTimeoutNs: nat, rejectOperation: int)

  predicate Proper(u: Setup) {
    Startable(u.seed, u.commandTimeoutNs, u.prepareTimeoutNs)
  }

  /** The server after a run. */
  function ServerAfter(u: Setup, events: seq<Event>): Server {
    Run(u.seed, u.commandTimeoutNs, u.prepareTimeoutNs, u.rejectOperation, events).server
  }

  /** A call that keeps a session alive: the start of a session, or a command that is taken. */
  predicate Revives(s: Server, e: Event) {
    TakesNow(s, e) || NewSession(s.status, Step(s, e).status)
  }

  /** When the session was last kept alive. */
  function LastActive(u: Setup, events: seq<Event>): nat
    decreases |events|
  {
    if events == [] then 0
    else
      var before, e := events[..|events| - 1], events[|events| - 1];
      if Revives(ServerAfter(u, before), e) then e.now else LastActive(u, before)
  }

  /** When the last lease was granted. */
  function LastArmed(u: Setup, events: seq<Event>): nat
    decreases |events|
  {
    if events == [] then 0
    else
      var before, e := events[..|events| - 1], events[|events| - 1];
      var s := ServerAfter(u, before);
      if NewLease(s.status, Step(s, e).status) then e.now else LastArmed(u, before)
  }

  /** A CANCEL that is answered without an error. */
  predicate Cancels(s: Server, e: Event) {
    e.Control? && e.request.operation == CANCEL && Requested(s, e.request, e.now).1.accepted
  }

  /** The time stamps a server keeps. */
  predicate Stamped(s: Server, active: nat, armed: nat) {
    && (HasSession(s.status.phase) ==> s.status.lastValidNs == active)
    && (s.status.phase == ARMED ==> s.preparedNs == armed)
  }

  /** The lease granted next is not the one that is held. */
  lemma FreshLease(s: Server)
    requires Inv(s)
    ensures s.status.leaseId != Lease(s.generation + 1)
  {
    if s.status.leaseId == Lease(s.generation + 1) {
      assert Lease(s.generation + 1) != "";
      LeaseInjective(LeaseNumber(s), s.generation + 1);
    }
  }

  lemma StepStamped(s: Server, e: Event, active: nat, armed: nat)
    requires Inv(s) && Stamped(s, active, armed)
    ensures Stamped(Step(s, e), if Revives(s, e) then e.now else active,
                    if NewLease(s.status, Step(s, e).status) then e.now else armed)
  {
    WatchedInv(s, e.now);
    FreshLease(s);
  }

  lemma ServerAfterNext(u: Setup, events: seq<Event>)
    requires events != []
    ensures ServerAfter(u, events) == Step(ServerAfter(u, events[..|events| - 1]), events[|events| - 1])
  {
  }

  lemma ServerAfterInv(u: Setup, events: seq<Event>)
    requires Proper(u)
    ensures Inv(ServerAfter(u, events))
  {
    ReplayInv(Started(u.seed, u.commandTimeoutNs, u.prepareTimeoutNs, u.rejectOperation), events);
  }

  lemma NothingStamped(u: Setup)
    ensures Stamped(ServerAfter(u, []), 0, 0)
  {
  }

  lemma {:induction false} StampsKept(u: Setup, events: seq<Event>)
    requires Proper(u)
    ensures Stamped(ServerAfter(u, events), LastActive(u, events), LastArmed(u, events))
    decreases |events|
  {
    hide Step, Inv, Stamped, Revives, NewLease, ServerAfter;
    if events == [] {
      NothingStamped(u);
    } else {
      var before := events[..|events| - 1];
      StampsKept(u, before);
      ServerAfterInv(u, before);
      ServerAfterNext(u, events);
      StepStamped(ServerAfter(u, before), events[|events| - 1], LastActive(u, before), LastArmed(u, before));
    }
  }

  // ---------------------------------------------------------------------------------------
  // One call
  // ---------------------------------------------------------------------------------------

  /** A running session met by a call `e`, when it was last kept alive at `active`. */
  lemma RunningStep(s: Server, e: Event, active: nat)
    requires Inv(s) && s.status.phase == RUNNING && s.status.lastValidNs == active <= e.now < TWO_TO_THE_64
    ensures var t, late := Step(s, e), active + s.commandTimeoutNs <= e.now;
            && (Cancels(s, e) ==> t.status.phase == IDLE)
            && (!Cancels(s, e) ==>
                  && t.status.leaseId == s.status.leaseId && t.status.generation == s.status.generation
                  && (t.status.phase == TIMEOUT_HOLD <==> late && !TakesNow(s, e))
                  && (t.status.phase == RUNNING <==> !late || TakesNow(s, e)))
            && (Discards(s, e) > 0 <==> s.hasPending && (late || Cancels(s, e)))
            && (AppliesNow(s, e) <==> e.Apply? && s.hasPending && !late)
  {
    WatchedInv(s, e.now);
  }

  /** An armed server met by a call `e`, when it was armed at `armed`. */
  lemma ArmedStep(s: Server, e: Event, armed: nat)
    requires Inv(s) && s.status.phase == ARMED && s.preparedNs == armed <= e.now < TWO_TO_THE_64
    ensures var t, late := Step(s, e), armed + s.prepareTimeoutNs <= e.now;
            t.status.leaseId == s.status.leaseId <==> !late && !Cancels(s, e)
  {
    WatchedInv(s, e.now);
    FreshLease(s);
    assert Lease(s.generation) != "";
  }

  /** A server that is idle or holds a session has nothing to time out. */
  lemma NothingToTimeOut(s: Server, now: nat)
    requires s.status.phase == IDLE || s.status.phase == TIMEOUT_HOLD
    ensures Watched(s, now) == s
  {
  }

  /** A held session stays held, under its lease, until a command revives it or a CANCEL ends it. */
  lemma HeldStep(s: Server, e: Event)
    requires Inv(s) && s.status.phase == TIMEOUT_HOLD
    ensures var t := Step(s, e);
            && (t.status.phase == TIMEOUT_HOLD <==> !TakesNow(s, e) && !Cancels(s, e))
            && (t.status.phase == RUNNING <==> TakesNow(s, e))
            && (!Cancels(s, e) ==> t.status.leaseId == s.status.leaseId && t.status.generation == s.status.generation)
  {
    NothingToTimeOut(s, e.now);
  }

  // ---------------------------------------------------------------------------------------
  // Every run
  // ---------------------------------------------------------------------------------------

  lemma BeforeClock(u: Setup, events: seq<Event>, e: Event)
    requires Proper(u) && Timed(events + [e])
    ensures var s := ServerAfter(u, events);
            && s.commandTimeoutNs == u.commandTimeoutNs && s.prepareTimeoutNs == u.prepareTimeoutNs
            && e.now < TWO_TO_THE_64
            && (HasSession(s.status.phase) ==> s.status.lastValidNs <= e.now)
            && (s.status.phase == ARMED ==> s.preparedNs <= e.now)
  {
    assert (events + [e])[|events|] == e;
    forall i | 0 <= i < |events|
      ensures events[i].now <= e.now && events[i].now < TWO_TO_THE_64
    {
      assert (events + [e])[i] == events[i];
    }
    forall i, j | 0 <= i < j < |events|
      ensures events[i].now <= events[j].now
    {
      assert (events + [e])[i] == events[i] && (events + [e])[j] == events[j];
    }
    ReplayTimed(u.seed, u.commandTimeoutNs, u.prepareTimeoutNs, u.rejectOperation, events);
  }

  /**
   With a clock that does not go back: a call leaves a running session held exactly when the session has not been kept
   alive for the command timeout and the call does not revive it; a pending command is dropped exactly then or by a
   CANCEL. An arming is lost exactly when it has outlived its own timeout, or by a CANCEL.
   */
  lemma WatchdogIsExact(u: Setup, events: seq<Event>, e: Event)
    requires Proper(u) && Timed(events + [e])
    ensures var s, t := ServerAfter(u, events), Step(ServerAfter(u, events), e);
            var silent := LastActive(u, events) + u.commandTimeoutNs <= e.now;
            var expired := LastArmed(u, events) + u.prepareTimeoutNs <= e.now;
            && (s.status.phase == RUNNING ==>
                  && (Cancels(s, e) ==> t.status.phase == IDLE)
                  && (!Cancels(s, e) ==>
                        && t.status.leaseId == s.status.leaseId && t.status.generation == s.status.generation
                        && (t.status.phase == TIMEOUT_HOLD <==> silent && !TakesNow(s, e))
                        && (t.status.phase == RUNNING <==> !silent || TakesNow(s, e)))
                  && (Discards(s, e) > 0 <==> s.hasPending && (silent || Cancels(s, e)))
                  && (AppliesNow(s, e) <==> e.Apply? && s.hasPending && !silent))
            && (s.status.phase == ARMED ==>
                  (t.status.leaseId == s.status.leaseId <==> !expired && !Cancels(s, e)))
  {
    hide Step, Inv, ServerAfter, Cancels, TakesNow, AppliesNow, Discards, LastActive, LastArmed;
    ServerAfterInv(u, events);
    StampsKept(u, events);
    BeforeClock(u, events, e);
    var s := ServerAfter(u, events);
    if s.status.phase == RUNNING {
      RunningStep(s, e, LastActive(u, events));
    }
    if s.status.phase == ARMED {
      ArmedStep(s, e, LastArmed(u, events));
    }
  }

  /** Each call of a stream comes before the session has been silent for its timeout, and none cancels. */
  ghost predicate Streams(u: Setup, events: seq<Event>, stream: seq<Event>) {
    forall k | 0 <= k < |stream| ::
      && stream[k].now < LastActive(u, events + stream[..k]) + u.commandTimeoutNs
      && !Cancels(ServerAfter(u, events + stream[..k]), stream[k])
  }

  /** How many commands were dropped in a run. */
  function Dropped(u: Setup, events: seq<Event>): nat {
    Run(u.seed, u.commandTimeoutNs, u.prepareTimeoutNs, u.rejectOperation, events).discarded
  }

  lemma RunNext(u: Setup, before: seq<Event>, e: Event)
    ensures ServerAfter(u, before + [e]) == Step(ServerAfter(u, before), e)
    ensures Dropped(u, before + [e]) == Dropped(u, before) + Discards(ServerAfter(u, before), e)
  {
    var events := before + [e];
    assert events[..|events| - 1] == before && events[|events| - 1] == e;
  }

  lemma StreamPrefix(u: Setup, events: seq<Event>, stream: seq<Event>, n: nat)
    requires n <= |stream| && Timed(events + stream) && Streams(u, events, stream)
    ensures Timed(events + stream[..n]) && Streams(u, events, stream[..n])
  {
    hide LastActive, Cancels, ServerAfter;
    var all, part := events + stream, events + stream[..n];
    assert forall i | 0 <= i < |part| :: part[i] == all[i];
    forall k | 0 <= k < n
      ensures stream[..n][..k] == stream[..k]
    {
    }
  }

  /** A running session that is kept alive goes on running, under its lease, and drops no command. */
  lemma {:induction false} StreamKeepsRunning(u: Setup, events: seq<Event>, stream: seq<Event>)
    requires Proper(u) && Timed(events + stream) && Streams(u, events, stream)
    requires ServerAfter(u, events).status.phase == RUNNING
    ensures var s, t := ServerAfter(u, events), ServerAfter(u, events + stream);
            && t.status.phase == RUNNING
            && t.status.leaseId == s.status.leaseId && t.status.generation == s.status.generation
            && Dropped(u, events + stream) == Dropped(u, events)
    decreases |stream|
  {
    hide Step, ServerAfter, Cancels, LastActive, Dropped;
    if stream == [] {
      assert events + stream == events;
    } else {
      var n := |stream| - 1;
      var before, e := events + stream[..n], stream[n];
      assert events + stream == before + [e];
      StreamPrefix(u, events, stream, n);
      StreamKeepsRunning(u, events, stream[..n]);
      WatchdogIsExact(u, before, e);
      RunNext(u, before, e);
    }
  }
}
