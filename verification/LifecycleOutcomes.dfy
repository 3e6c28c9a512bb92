/**
  What every ending of an awaited call leads to: the failures that must be recorded, the
  connections that must be published, announced or closed, and the passes that must start and end.
*/
module LifecycleOutcomes {
  import opened Common
  import opened Lifecycle
  import opened LifecycleRuns
  import opened LifecycleProgress

  // ----- One check in a world -----

  /** The step runs a piece of a check, and neither the manager nor the caller has stopped. */
  predicate Runs(w: World, e: Event) {
    e.Run? && Enabled(w, e) && !w.core.stopped && !e.aborted
  }

  function TaskOf(w: World, e: Event): Task
    requires e.Run? && Enabled(w, e)
  {
    w.passes[e.pass][e.name]
  }

  /** Where the check waits after the step. */
  function PcAfter(w: World, e: Event): Pc
    requires e.Run? && Enabled(w, e)
  {
    RunPiece(w, e).passes[e.pass][e.name].pc
  }

  predicate IsStale(w: World, e: Event)
    requires e.Run? && Enabled(w, e)
  {
    Stale(w, e.name, TaskOf(w, e))
  }

  /** Neither the retry nor the pending record of the name was touched, and the check is over or waits at pc. */
  ghost predicate Untouched(w: World, e: Event, pc: Pc)
    requires e.Run? && Enabled(w, e)
  {
    RunPiece(w, e).core == w.core && PcAfter(w, e) == pc
  }

  /**
    A failure of the given connection is on record: one attempt more, due 30 s later, doubled for
    every attempt before and at most 300 s, and told to the log unless it is a passing one.
  */
  ghost predicate FailureOnRecord(w: World, e: Event, conn: Option<ConnId>, reported: bool)
    requires e.Run? && Enabled(w, e)
  {
    var n, retry' := e.name, RunPiece(w, e).core.retry;
    var before := Lookup(w.core.retry, n);
    var k := if before.Some? then before.value.attempts else 0;
    && n in retry'
    && retry'[n].attempts == k + 1
    && retry'[n].nextAttemptAt == w.now + (if k < 4 then 30_000 * Pow2(k) else 300_000)
    && retry'[n].connection == conn && retry'[n].status == StatusOf(w, conn)
    && (retry'[n].warningReported <==> reported || (before.Some? && before.value.warningReported))
    && RunPiece(w, e).core.pending == w.core.pending && PcAfter(w, e) == Done
  }

  lemma RecordedExactly(core: Core, seen: Seen, n: Name, def: Definition, conn: Option<ConnId>)
    requires Lookup(core.keepAlive, n) == Some(def)
    ensures var core' := ReportFailure(core, seen, n, def, conn);
      var k := if n in core.retry then core.retry[n].attempts else 0;
      && core'.pending == core.pending && n in core'.retry
      && core'.retry[n] == Retry(
        k + 1, seen.now + (if k < 4 then 30_000 * Pow2(k) else 300_000), conn, seen.StatusOf(conn),
        !seen.transient || (n in core.retry && core.retry[n].warningReported))
    ensures var core' := RecordRetry(core, seen, n, def, conn).0;
      var k := if n in core.retry then core.retry[n].attempts else 0;
      && core'.pending == core.pending && n in core'.retry
      && core'.retry[n] == Retry(
        k + 1, seen.now + (if k < 4 then 30_000 * Pow2(k) else 300_000), conn, seen.StatusOf(conn),
        n in core.retry && core.retry[n].warningReported)
  {
    DelayShape((if n in core.retry then core.retry[n].attempts else 0) + 1);
  }

  // ----- After a connect or a reconnect -----

  predicate Connects(w: World, e: Event)
    requires e.Run? && Enabled(w, e)
  {
    TaskOf(w, e).pc.Connecting? || TaskOf(w, e).pc.Reconnecting?
  }

  /** One that fails is recorded against the connection the manager then has. */
  lemma FailedConnectIsRecorded(w: World, e: Event)
    requires Runs(w, e) && Connects(w, e) && !IsStale(w, e) && !e.outcome.Returned?
    ensures FailureOnRecord(w, e, Lookup(w.conns, e.name), !e.transient)
  {
    RecordedExactly(w.core, SeenBy(w, e), e.name, TaskOf(w, e).def, Lookup(w.conns, e.name));
  }

  /** One that returns no connected session is recorded against what it returned. */
  lemma ClosedConnectIsRecorded(w: World, e: Event)
    requires Runs(w, e) && Connects(w, e) && !IsStale(w, e)
    requires e.outcome.Returned? && w.status(e.outcome.connection) == Closed
    ensures FailureOnRecord(w, e, Some(e.outcome.connection), !e.transient)
  {
    RecordedExactly(w.core, SeenBy(w, e), e.name, TaskOf(w, e).def, Some(e.outcome.connection));
  }

  /** One that connects is published: its publication is pending and the check waits for it. */
  lemma ConnectedIsPublished(w: World, e: Event)
    requires Runs(w, e) && Connects(w, e) && !IsStale(w, e)
    requires e.outcome.Returned? && w.status(e.outcome.connection) == Connected
    ensures PcAfter(w, e) == Publishing(e.outcome.connection)
    ensures RunPiece(w, e).core == w.core.(pending := w.core.pending + {e.name})
  {
  }

  /** One that needs authorization is announced, and nothing stays on record of the name. */
  lemma NeedsAuthIsAnnounced(w: World, e: Event)
    requires Runs(w, e) && Connects(w, e) && !IsStale(w, e)
    requires e.outcome.Returned? && w.status(e.outcome.connection) == NeedsAuth
    ensures PcAfter(w, e) == NotifyingAuth
    ensures RunPiece(w, e).core == w.core.(pending := w.core.pending - {e.name}, retry := w.core.retry - {e.name})
  {
  }

  /** A stale check closes the connection it made while that is the current one, and records nothing. */
  lemma StaleConnectIsClosed(w: World, e: Event)
    requires Runs(w, e) && Connects(w, e) && IsStale(w, e)
    ensures var c := if e.outcome.Returned? then Some(e.outcome.connection) else None;
      Untouched(w, e,
        if c.Some? && w.status(c.value) != Closed && Lookup(w.conns, e.name) == c then Closing(c.value) else Done)
  {
  }

  // ----- After a refresh -----

  predicate Refreshes(w: World, e: Event)
    requires e.Run? && Enabled(w, e)
  {
    TaskOf(w, e).pc.Refreshing?
  }

  /** The connection that was refreshed is still the name's, and connected. */
  predicate StillThere(w: World, e: Event)
    requires e.Run? && Enabled(w, e) && Refreshes(w, e)
  {
    Lookup(w.conns, e.name) == Some(TaskOf(w, e).pc.connection) && w.status(TaskOf(w, e).pc.connection) == Connected
  }

  /** A refresh that fails on a connection that is still there is recorded, unless the session was lost. */
  lemma FailedRefreshIsRecorded(w: World, e: Event)
    requires Runs(w, e) && Refreshes(w, e) && !IsStale(w, e) && StillThere(w, e)
    requires e.outcome == RefreshEnded(RefreshFailed(false))
    ensures FailureOnRecord(w, e, Some(TaskOf(w, e).pc.connection), !e.transient)
  {
    RecordedExactly(w.core, SeenBy(w, e), e.name, TaskOf(w, e).def, Some(TaskOf(w, e).pc.connection));
  }

  /** A lost session is reconnected, unless an authorization is under way. */
  lemma LostSessionReconnects(w: World, e: Event)
    requires Runs(w, e) && Refreshes(w, e) && StillThere(w, e)
    requires e.outcome == RefreshEnded(RefreshFailed(true))
    ensures Untouched(w, e, if e.authPending then Done else Reconnecting)
  {
  }

  /** A refresh that times out is recorded quietly. */
  lemma TimeoutIsRecorded(w: World, e: Event)
    requires Runs(w, e) && Refreshes(w, e) && !IsStale(w, e) && e.outcome == RefreshEnded(TimedOut)
    ensures FailureOnRecord(w, e, Some(TaskOf(w, e).pc.connection), false)
  {
    RecordedExactly(w.core, SeenBy(w, e), e.name, TaskOf(w, e).def, Some(TaskOf(w, e).pc.connection));
  }

  /** The retry record is gone, and health is announced exactly when there was one. */
  ghost predicate HealthRestored(w: World, e: Event)
    requires e.Run? && Enabled(w, e)
  {
    && RunPiece(w, e).core == w.core.(retry := w.core.retry - {e.name})
    && PcAfter(w, e) == if e.name in w.core.retry then RestoringHealth else Done
  }

  lemma RefreshRestoresHealth(w: World, e: Event)
    requires Runs(w, e) && Refreshes(w, e) && !IsStale(w, e) && e.outcome == RefreshEnded(Refreshed)
    ensures HealthRestored(w, e)
  {
    assert e.name !in w.core.retry ==> w.core.retry - {e.name} == w.core.retry;
  }

  /** The refresh was superseded, or failed after its connection was replaced or lost. */
  predicate WasSuperseded(w: World, e: Event)
    requires e.Run? && Enabled(w, e)
  {
    Refreshes(w, e) && e.outcome.RefreshEnded?
    && (e.outcome.refresh.Superseded? || (e.outcome.refresh.RefreshFailed? && !StillThere(w, e)))
  }

  /** What then counts is the connection the manager now has. */
  lemma SupersededFollowsTheManager(w: World, e: Event)
    requires Runs(w, e) && WasSuperseded(w, e) && !IsStale(w, e) && e.name in w.conns
    ensures var current, core := w.conns[e.name], w.core;
      match w.status(current)
      case Connected =>
        if current == TaskOf(w, e).pc.connection then HealthRestored(w, e)
        else PcAfter(w, e) == Publishing(current) && RunPiece(w, e).core == core.(pending := core.pending + {e.name})
      case NeedsAuth =>
        && PcAfter(w, e) == NotifyingAuth
        && RunPiece(w, e).core == core.(pending := core.pending - {e.name}, retry := core.retry - {e.name})
      case Closed => true
  {
    assert e.name !in w.core.retry ==> w.core.retry - {e.name} == w.core.retry;
  }

  /** With no connected one the check starts over once, as a queued one would, and then gives up. */
  lemma SupersededStartsOverOnce(w: World, e: Event)
    requires Runs(w, e) && WasSuperseded(w, e) && !IsStale(w, e)
    requires e.name in w.conns ==> w.status(w.conns[e.name]) == Closed
    ensures !TaskOf(w, e).pc.again ==> Untouched(w, e, Done)
    ensures TaskOf(w, e).pc.again ==>
      && PcAfter(w, e) == (if TaskOf(w, e).def.disabled || !Due(w, e.name) || e.authPending then Done else Connecting)
      && RunPiece(w, e).core.pending == w.core.pending
  {
    var t, seen := TaskOf(w, e), SeenBy(w, e);
    UnconnectedStartsOver(w.core, seen, e.name, t.def, t.pc.connection, t.pc.again);
    assert Resume(w.core, seen, e.name, t.def, t.pc, e.outcome)
      == HandleSuperseded(w.core, seen, e.name, t.def, t.pc.connection, t.pc.again);
  }

  lemma UnconnectedStartsOver(core: Core, seen: Seen, n: Name, def: Definition, stale: ConnId, again: bool)
    requires Lookup(core.keepAlive, n) == Some(def) && !core.stopped && !seen.aborted
    requires n in seen.conns ==> seen.status(seen.conns[n]) == Closed
    ensures var (core', pc') := HandleSuperseded(core, seen, n, def, stale, again);
      if !again then core' == core && pc' == Done
      else
        && core'.pending == core.pending
        && var idle := def.disabled || !ShouldAttempt(core, seen, n, Lookup(seen.conns, n)).1 || seen.authPending;
           pc' == if idle then Done else Connecting
  {
  }

  /** A stale check touches nothing after a refresh. */
  lemma StaleRefreshEnds(w: World, e: Event)
    requires Runs(w, e) && Refreshes(w, e) && IsStale(w, e) && e.outcome.RefreshEnded?
    requires e.outcome.refresh == RefreshFailed(true) ==> !StillThere(w, e)
    ensures Untouched(w, e, Done)
  {
  }

  // ----- After a publication -----

  /** One that throws is recorded while its definition is registered, and stays pending. */
  lemma FailedPublicationIsRecorded(w: World, e: Event)
    requires Runs(w, e) && TaskOf(w, e).pc.Publishing? && !IsStale(w, e) && e.outcome.Threw?
    ensures FailureOnRecord(w, e, Some(TaskOf(w, e).pc.published), !e.transient)
  {
    RecordedExactly(w.core, SeenBy(w, e), e.name, TaskOf(w, e).def, Some(TaskOf(w, e).pc.published));
  }

  /** One that goes through clears the name's records, fenced or not. */
  lemma PublicationClears(w: World, e: Event)
    requires e.Run? && Enabled(w, e) && TaskOf(w, e).pc.Publishing? && !e.outcome.Threw?
    ensures PcAfter(w, e) == Done
    ensures RunPiece(w, e).core == w.core.(pending := w.core.pending - {e.name}, retry := w.core.retry - {e.name})
  {
  }

  // ----- Once the manager has stopped -----

  /** No check contacts a server, records anything or publishes once the manager or its caller has stopped. */
  lemma StoppedChecksEnd(w: World, e: Event)
    requires e.Run? && Enabled(w, e) && (w.core.stopped || e.aborted)
    requires TaskOf(w, e).pc.Queued? || Connects(w, e)
      || (Refreshes(w, e) && e.outcome.RefreshEnded? && e.outcome.refresh.RefreshFailed?)
      || (w.core.stopped && TaskOf(w, e).pc.Publishing? && e.outcome.Threw?)
    ensures Untouched(w, e, Done)
  {
  }

  // ----- The start of a check -----

  /** A queued check of a server that is not registered under its definition, or disabled, does nothing. */
  lemma StaleCheckEnds(w: World, e: Event)
    requires Runs(w, e) && TaskOf(w, e).pc.Queued? && (IsStale(w, e) || TaskOf(w, e).def.disabled)
    ensures Untouched(w, e, Done)
  {
  }

  /** A server that needs authorization is left alone, and its publication is no longer due. */
  lemma NeedsAuthIsLeftAlone(w: World, e: Event)
    requires Runs(w, e) && TaskOf(w, e).pc.Queued? && !IsStale(w, e) && !TaskOf(w, e).def.disabled
    requires e.name in w.conns && w.status(w.conns[e.name]) == NeedsAuth
    ensures PcAfter(w, e) == Done && RunPiece(w, e).core == w.core.(pending := w.core.pending - {e.name})
  {
  }

  /** What a check that may act does first. */
  lemma CheckStarts(w: World, e: Event)
    requires Runs(w, e) && TaskOf(w, e).pc.Queued? && !IsStale(w, e) && !TaskOf(w, e).def.disabled && Due(w, e.name)
    requires e.name in w.conns ==> w.status(w.conns[e.name]) != NeedsAuth
    ensures PcAfter(w, e) ==
      if e.name !in w.conns || w.status(w.conns[e.name]) == Closed then (if e.authPending then Done else Connecting)
      else if e.name in w.core.pending then Publishing(w.conns[e.name])
      else if TaskOf(w, e).def.http then Refreshing(w.conns[e.name], true)
      else Done
  {
  }

  /** A failure on record puts the server to rest, in every run. */
  lemma RecordedFailureRests(w: World, e: Event, conn: Option<ConnId>, reported: bool)
    requires Reachable(w) && e.Run? && Enabled(w, e) && FailureOnRecord(w, e, conn, reported)
    ensures Rests(RunPiece(w, e), e.name, RunPiece(w, e).core.retry[e.name])
  {
    FailureRests(w, e, RunPiece(w, e).core.retry[e.name]);
  }

  // ----- Registrations -----

  /** An enabled definition replaces the name's registration; a disabled one changes nothing. */
  lemma RegistersExactly(w: World, n: Name, def: Definition, m: Name)
    ensures var w' := Step(w, Mark(n, def));
      && Lookup(w'.core.keepAlive, m) == (if m == n && !def.disabled then Some(def) else Lookup(w.core.keepAlive, m))
      && w'.core.retry == w.core.retry && w'.core.pending == w.core.pending
  {
  }

  /** Disposal forgets the name's registration and both its records, and nothing of any other name. */
  lemma UnregistersExactly(w: World, n: Name, m: Name)
    ensures var core, core' := w.core, Step(w, Unregister(n)).core;
      && Lookup(core'.keepAlive, m) == (if m == n then None else Lookup(core.keepAlive, m))
      && Lookup(core'.retry, m) == (if m == n then None else Lookup(core.retry, m))
      && (m in core'.pending <==> m != n && m in core.pending)
  {
  }

  // ----- Passes -----

  /** A pass starts when none is current and nobody has stopped, and queues a check of every registration. */
  lemma PassStartsExactly(w: World, aborted: bool)
    requires SingleFlight(w)
    ensures var w' := Step(w, Converge(aborted));
      if w.core.stopped || aborted || w.active.Some? then w' == w
      else
        && w'.active == Some(w.nextPass) && w'.nextPass == w.nextPass + 1 && w.nextPass in w'.passes
        && w'.passes[w.nextPass].Keys == w.core.keepAlive.Keys
        && (forall n | n in w.core.keepAlive ::
              w'.passes[w.nextPass][n].def == w.core.keepAlive[n] && w'.passes[w.nextPass][n].pc == Queued)
        && w'.passes - {w.nextPass} == w.passes
  {
    assert w.nextPass !in w.passes;
  }

  /** A pass whose checks are done ends, and makes way for the next one when it was the current one. */
  lemma PassEndsExactly(w: World, p: nat)
    requires p in w.passes && forall n | n in w.passes[p] :: w.passes[p][n].pc == Done
    ensures var w' := Step(w, EndPass(p));
      p !in w'.passes && w'.active == (if w.active == Some(p) then None else w.active) && w'.core == w.core
  {
  }

  /** A health check converges, then closes idle servers, and ends early once the manager or its caller has stopped. */
  lemma HealthCheckProceeds(w: World, aborted: bool)
    ensures !w.core.stopped && !aborted && w.health.NoHealthCheck? ==>
      var w' := Step(w, HealthTick(aborted)); w'.active.Some? && w'.health == Converging(w'.active)
    ensures w.core.stopped || aborted || !w.health.NoHealthCheck? ==> Step(w, HealthTick(aborted)) == w
    ensures Enabled(w, HealthConverged(aborted)) ==>
      Step(w, HealthConverged(aborted)).health == if w.core.stopped || aborted then NoHealthCheck else ClosingIdle
    ensures w.health.ClosingIdle? ==> Step(w, HealthDone).health.NoHealthCheck?
  {
  }

  // ----- Shutdown -----

  lemma ShutdownBegins(w: World)
    requires w.phase.Running?
    ensures Step(w, Shutdown).phase.AwaitingHealth? && Step(w, Shutdown).core == w.core.(stopped := true)
  {
  }

  /** Once the health check and the current pass have ended, shutdown clears the records, closes all and ends. */
  lemma ShutdownCompletes(w: World)
    requires w.phase.AwaitingHealth? && w.health.NoHealthCheck? && Ended(w, w.active)
    ensures var w1 := Step(w, ShutdownContinues);
      var w2 := Step(w1, ShutdownContinues);
      && w2.closeAlls == w.closeAlls + 1 && w2.phase.ClosingAll?
      && w2.active.None? && w2.core == w.core.(retry := map[], pending := {})
      && Step(w2, ShutdownContinues).phase.ShutDown?
  {
    ShutdownWaits(w);
    ShutdownClears(w.(phase := AwaitingConvergence(w.active)));
  }

  lemma ShutdownWaits(w: World)
    requires w.phase.AwaitingHealth? && w.health.NoHealthCheck?
    ensures Step(w, ShutdownContinues) == w.(phase := AwaitingConvergence(w.active))
  {
  }

  lemma ShutdownClears(w: World)
    requires w.phase.AwaitingConvergence? && Ended(w, w.phase.pass)
    ensures var w' := Step(w, ShutdownContinues);
      && w'.closeAlls == w.closeAlls + 1 && w'.phase.ClosingAll?
      && w'.active.None? && w'.core == w.core.(retry := map[], pending := {})
      && Step(w', ShutdownContinues).phase.ShutDown?
  {
  }
}
