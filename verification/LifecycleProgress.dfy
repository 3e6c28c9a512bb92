/**
  What failures, successes and pending publications lead to over whole runs of the keep-alive
  manager, and that every check comes to an end.
*/
module LifecycleProgress {
  import opened Common
  import opened Lifecycle
  import opened LifecycleRuns

  // ----- After a failure -----

  function StatusOf(w: World, conn: Option<ConnId>): Option<Status> {
    if conn.None? then None else Some(w.status(conn.value))
  }

  /** The server's connection and that connection's status are what they were when the failure was recorded. */
  predicate Unmoved(w: World, n: Name, r: Retry) {
    Lookup(w.conns, n) == r.connection && StatusOf(w, r.connection) == r.status
  }

  predicate Due(w: World, n: Name) {
    n in w.core.retry ==> !Unmoved(w, n, w.core.retry[n]) || w.now >= w.core.retry[n].nextAttemptAt
  }

  /** Failure r of n is on record, its delay has not passed, and no check of n has got past its start. */
  ghost predicate Rests(w: World, n: Name, r: Retry) {
    && Lookup(w.core.retry, n) == Some(r) && w.now < r.nextAttemptAt
    && (Live(w, n).Some? ==> Live(w, n).value.pc.Queued?)
  }

  lemma ApplyRests(w: World, p: nat, n: Name, seen: Seen, outcome: Outcome, core': Core, pc': Pc)
    requires SingleFlight(w) && MayLeave(w, p, n, seen, outcome, core', pc')
    requires n in core'.retry && Lookup(core'.retry, n) != Lookup(w.core.retry, n)
    ensures var w' := Apply(w, p, n, core', Advance(w.passes[p][n], pc', outcome));
      Rests(w', n, core'.retry[n]) && core'.retry[n].nextAttemptAt == w.now + Delay(core'.retry[n].attempts)
  {
    DelayShape(core'.retry[n].attempts);
  }

  /** A failure that a piece records puts the server to rest for its delay. */
  lemma FailureRests(w: World, e: Event, r: Retry)
    requires Reachable(w) && e.Run? && Enabled(w, e)
    requires Lookup(RunPiece(w, e).core.retry, e.name) == Some(r) && Lookup(w.core.retry, e.name) != Some(r)
    ensures Rests(RunPiece(w, e), e.name, r) && r.attempts > 0 && r.nextAttemptAt == w.now + Delay(r.attempts)
  {
    ReachableInv(w);
    var core', pc' := PieceLeaves(w, e);
    ApplyRests(w, e.pass, e.name, SeenBy(w, e), e.outcome, core', pc');
  }

  lemma PieceLeaves(w: World, e: Event) returns (core': Core, pc': Pc)
    requires e.Run? && Enabled(w, e)
    ensures MayLeave(w, e.pass, e.name, SeenBy(w, e), e.outcome, core', pc')
    ensures RunPiece(w, e) == Apply(w, e.pass, e.name, core', Advance(w.passes[e.pass][e.name], pc', e.outcome))
  {
    var t, seen := w.passes[e.pass][e.name], SeenBy(w, e);
    ResumeKeeps(w.core, seen, e.name, t.def, t.pc, e.outcome);
    var result := Resume(w.core, seen, e.name, t.def, t.pc, e.outcome);
    core', pc' := result.0, result.1;
  }

  /** A step after which n need not rest any longer: disposal, shutdown, or a check that finds the server moved. */
  predicate Disturbs(w: World, e: Event, n: Name, r: Retry) {
    match e
    case Unregister(m) => m == n
    case ShutdownContinues => true
    case Run(_, m, _, _, _, _) => m == n && !Unmoved(w, n, r)
    case _ => false
  }

  /** A check of a resting server ends at its start and changes no retry record. */
  lemma RestingPiece(core: Core, seen: Seen, n: Name, def: Definition, again: bool)
    requires n in core.retry && seen.now < core.retry[n].nextAttemptAt
    requires Lookup(seen.conns, n) == core.retry[n].connection
      && seen.StatusOf(core.retry[n].connection) == core.retry[n].status
    ensures Check(core, seen, n, def, again).1 == Done && Check(core, seen, n, def, again).0.retry == core.retry
  {
  }

  lemma ApplyStaysAtRest(w: World, p: nat, n: Name, core': Core, t': Task, r: Retry)
    requires Rests(w, n, r) && p in w.passes && w.active == Some(p) && core'.retry == w.core.retry && t'.pc == Done
    ensures Rests(Apply(w, p, n, core', t'), n, r)
  {
  }

  lemma RunRests(w: World, e: Event, n: Name, r: Retry)
    requires Inv(w) && Rests(w, n, r) && e.Run? && Enabled(w, e) && !Disturbs(w, e, n, r)
    ensures Rests(RunPiece(w, e), n, r)
  {
    var t, seen := w.passes[e.pass][e.name], SeenBy(w, e);
    assert w.active == Some(e.pass) && Live(w, e.name) == Some(t);
    var (core', pc') := Resume(w.core, seen, e.name, t.def, t.pc, e.outcome);
    if e.name == n {
      RestingPiece(w.core, seen, n, t.def, true);
      ApplyStaysAtRest(w, e.pass, n, core', Advance(t, pc', e.outcome), r);
    } else {
      ResumeKeeps(w.core, seen, e.name, t.def, t.pc, e.outcome);
      ApplyKeepsOthers(w, e.pass, e.name, seen, e.outcome, core', pc', n);
    }
  }

  // ----- Steps that run no piece -----

  /** What they may do to one name: its records stay or go, and at most a queued check of it appears. */
  ghost predicate Outside(w: World, w': World, n: Name) {
    && w'.now >= w.now
    && (Lookup(w'.core.retry, n) == Lookup(w.core.retry, n) || n !in w'.core.retry)
    && (Lookup(w'.streak, n) == Lookup(w.streak, n) || n !in w'.streak)
    && (Live(w', n) == Live(w, n) || Live(w', n).None? || Live(w', n).value.pc.Queued?)
  }

  lemma RegistrationIsOutside(w: World, m: Name, def: Definition, n: Name)
    ensures Outside(w, Registered(w, m, def), n) && Registered(w, m, def).core.retry == w.core.retry
    ensures Outside(w, Unregistered(w, m), n)
    ensures m != n ==> Lookup(Unregistered(w, m).core.retry, n) == Lookup(w.core.retry, n)
  {
  }

  lemma ConvergenceIsOutside(w: World, aborted: bool, n: Name)
    ensures Outside(w, EnsureConverged(w, aborted), n) && EnsureConverged(w, aborted).core == w.core
  {
  }

  lemma HealthCheckIsOutside(w: World, aborted: bool, n: Name)
    ensures Outside(w, HealthCheckStarted(w, aborted), n) && HealthCheckStarted(w, aborted).core == w.core
  {
    ConvergenceIsOutside(w, aborted, n);
    var w1, w2 := EnsureConverged(w, aborted), HealthCheckStarted(w, aborted);
    if !(w.core.stopped || aborted || !w.health.NoHealthCheck?) {
      assert w2 == w1.(health := Converging(w1.active));
      HealthIsUnseen(w1, Converging(w1.active), n);
    }
  }

  lemma HealthIsUnseen(w: World, health: Health, n: Name)
    ensures Live(w.(health := health), n) == Live(w, n)
  {
  }

  lemma PassEndIsOutside(w: World, p: nat, n: Name)
    ensures Outside(w, PassEnded(w, p), n) && PassEnded(w, p).core == w.core
  {
  }

  lemma PhaseIsUnseen(w: World, phase: Phase, n: Name)
    ensures Outside(w, w.(phase := phase), n)
  {
  }

  lemma ClosingIsOutside(w: World, n: Name)
    requires w.phase.AwaitingConvergence?
    ensures Outside(w, ShutdownResumed(w), n)
  {
    assert ShutdownResumed(w).active.None? && ShutdownResumed(w).streak == map[];
  }

  lemma ShutdownIsOutside(w: World, n: Name)
    ensures Outside(w, ShutdownResumed(w), n)
  {
    match w.phase {
      case AwaitingConvergence(_) => ClosingIsOutside(w, n);
      case AwaitingHealth => PhaseIsUnseen(w, AwaitingConvergence(w.active), n);
      case ClosingAll => PhaseIsUnseen(w, ShutDown, n);
      case Running =>
      case ShutDown =>
    }
  }

  lemma OtherStepIsOutside(w: World, e: Event, n: Name)
    requires !e.Run?
    ensures Outside(w, Step(w, e), n)
    ensures !(e.Unregister? && e.name == n) && !e.ShutdownContinues? ==>
      Lookup(Step(w, e).core.retry, n) == Lookup(w.core.retry, n)
  {
    match e {
      case Mark(m, def) => RegistrationIsOutside(w, m, def, n);
      case Unregister(m) => RegistrationIsOutside(w, m, Definition(0, false, false), n);
      case Converge(aborted) => ConvergenceIsOutside(w, aborted, n);
      case HealthTick(aborted) => HealthCheckIsOutside(w, aborted, n);
      case EndPass(p) => PassEndIsOutside(w, p, n);
      case ShutdownContinues => ShutdownIsOutside(w, n);
      case ManagerMoves(_, _) =>
      case Tick(_) =>
      case HealthConverged(_) =>
      case HealthDone =>
      case Abort =>
      case Shutdown =>
    }
  }

  lemma StepRests(w: World, e: Event, n: Name, r: Retry)
    requires Inv(w) && Rests(w, n, r) && !Disturbs(w, e, n, r) && Step(w, e).now < r.nextAttemptAt
    ensures Rests(Step(w, e), n, r)
  {
    if !e.Run? {
      OtherStepIsOutside(w, e, n);
    } else if Enabled(w, e) {
      RunRests(w, e, n, r);
    }
  }

  lemma TimeGrows(w: World, e: Event)
    ensures Step(w, e).now >= w.now
  {
    if !e.Run? {
      OtherStepIsOutside(w, e, "");
    }
  }

  ghost predicate Undisturbed(w: World, events: seq<Event>, n: Name, r: Retry) {
    events == [] ||
      (var before := events[..|events| - 1];
       Undisturbed(w, before, n, r) && !Disturbs(Execute(w, before), events[|events| - 1], n, r))
  }

  /**
    In every run, from a recorded failure until its delay has passed, whatever registrations,
    passes, health checks and other servers do, no check of the server gets past its start, unless
    the name is disposed of, the manager shuts down, or a check finds the connection changed.
  */
  lemma {:induction false} BackoffHolds(w: World, events: seq<Event>, n: Name, r: Retry)
    requires Inv(w) && Rests(w, n, r) && Undisturbed(w, events, n, r)
    requires Execute(w, events).now < r.nextAttemptAt
    ensures Rests(Execute(w, events), n, r)
  {
    if events != [] {
      var before, e := events[..|events| - 1], events[|events| - 1];
      var w1 := Execute(w, before);
      TimeGrows(w1, e);
      BackoffHolds(w, before, n, r);
      RunKeepsInv(w, before);
      StepRests(w1, e, n, r);
    }
  }

  /** The check of a current definition that nothing but the backoff holds back, and that has something to do. */
  predicate Ready(w: World, e: Event) {
    && e.Run? && Enabled(w, e)
    && var (t, conn) := (w.passes[e.pass][e.name], Lookup(w.conns, e.name));
      && t.pc.Queued? && !t.def.disabled && !Stale(w, e.name, t) && !w.core.stopped && !e.aborted
      && (if StatusOf(w, conn) == Some(Connected) then t.def.http || e.name in w.core.pending
          else StatusOf(w, conn) != Some(NeedsAuth) && !e.authPending)
  }

  /** Such a check contacts the server exactly when the server has moved or the delay has passed. */
  lemma AttemptsExactlyWhenDue(w: World, e: Event)
    requires Ready(w, e)
    ensures RunPiece(w, e).passes[e.pass][e.name].pc != Done <==> Due(w, e.name)
  {
  }

  lemma TickedRest(w: World, ms: nat, n: Name, r: Retry)
    requires Rests(w, n, r)
    ensures Step(w, Tick(ms)) == w.(now := w.now + ms) && Lookup(Step(w, Tick(ms)).core.retry, n) == Some(r)
  {
  }

  /**
    In every run the rest ends with the delay, to the millisecond: however long the server has been
    undisturbed, after any further time the next check of it that finds it unmoved and has
    something to do contacts it if and only if the delay has passed.
  */
  lemma BackoffEndsExactly(w: World, events: seq<Event>, n: Name, r: Retry, ms: nat, next: Event)
    requires Inv(w) && Rests(w, n, r) && Undisturbed(w, events, n, r)
    requires Execute(w, events).now < r.nextAttemptAt
    requires var w' := Step(Execute(w, events), Tick(ms)); Ready(w', next) && next.name == n && Unmoved(w', n, r)
    ensures var w' := Step(Execute(w, events), Tick(ms));
      RunPiece(w', next).passes[next.pass][n].pc != Done <==> w'.now >= r.nextAttemptAt
  {
    BackoffHolds(w, events, n, r);
    TickedRest(Execute(w, events), ms, n, r);
    AttemptsExactlyWhenDue(Step(Execute(w, events), Tick(ms)), next);
  }

  // ----- After a success -----

  /** A publication or a refresh that goes through, or an authorization notice. */
  predicate Succeeds(w: World, e: Event) {
    && e.Run? && Enabled(w, e)
    && var t := w.passes[e.pass][e.name];
      || (t.pc.Publishing? && !e.outcome.Threw?)
      || (t.pc.Refreshing? && e.outcome == RefreshEnded(Refreshed) && !Stale(w, e.name, t))
      || Resume(w.core, SeenBy(w, e), e.name, t.def, t.pc, e.outcome).1.NotifyingAuth?
  }

  lemma SuccessfulPiece(core: Core, seen: Seen, n: Name, def: Definition, pc: Pc, outcome: Outcome)
    requires pc != Done
    requires (pc.Publishing? && !outcome.Threw?)
      || (pc.Refreshing? && outcome == RefreshEnded(Refreshed) && Lookup(core.keepAlive, n) == Some(def))
      || Resume(core, seen, n, def, pc, outcome).1.NotifyingAuth?
    ensures n !in Resume(core, seen, n, def, pc, outcome).0.retry
  {
  }

  lemma ApplyForgets(w: World, p: nat, n: Name, core': Core, t': Task)
    requires p in w.passes && n !in core'.retry
    ensures n !in Apply(w, p, n, core', t').core.retry && n !in Apply(w, p, n, core', t').streak
  {
  }

  lemma SuccessClears(w: World, e: Event)
    requires Succeeds(w, e)
    ensures e.name !in RunPiece(w, e).core.retry && e.name !in RunPiece(w, e).streak
  {
    var t, seen := w.passes[e.pass][e.name], SeenBy(w, e);
    SuccessfulPiece(w.core, seen, e.name, t.def, t.pc, e.outcome);
    var (core', pc') := Resume(w.core, seen, e.name, t.def, t.pc, e.outcome);
    ApplyForgets(w, e.pass, e.name, core', Advance(t, pc', e.outcome));
  }

  /** Every failure counted for n happened at time t or later. */
  ghost predicate CountedSince(w: World, n: Name, t: nat) {
    t <= w.now && (n in w.streak ==> w.streak[n] != [] && w.streak[n][0] >= t)
  }

  lemma ApplyCountsSince(w: World, p: nat, m: Name, core': Core, t': Task, n: Name, t: nat)
    requires p in w.passes && w.streak.Keys == w.core.retry.Keys && CountedSince(w, n, t)
    ensures CountedSince(Apply(w, p, m, core', t'), n, t)
  {
    var streak' := ExtendStreaks(w, core');
    if n in streak' {
      var before := if n in w.core.retry && n in w.streak then w.streak[n] else [];
      assert streak'[n] == before || streak'[n] == before + [w.now];
    }
  }

  lemma StepCountsSince(w: World, e: Event, n: Name, t: nat)
    requires Inv(w) && CountedSince(w, n, t)
    ensures CountedSince(Step(w, e), n, t)
  {
    if !e.Run? {
      OtherStepIsOutside(w, e, n);
    } else if Enabled(w, e) {
      var task := w.passes[e.pass][e.name];
      var (core', pc') := Resume(w.core, SeenBy(w, e), e.name, task.def, task.pc, e.outcome);
      ApplyCountsSince(w, e.pass, e.name, core', Advance(task, pc', e.outcome), n, t);
    }
  }

  lemma {:induction false} RunCountsSince(w: World, events: seq<Event>, n: Name, t: nat)
    requires Inv(w) && CountedSince(w, n, t)
    ensures CountedSince(Execute(w, events), n, t)
  {
    if events != [] {
      RunKeepsInv(w, events[..|events| - 1]);
      RunCountsSince(w, events[..|events| - 1], n, t);
      StepCountsSince(Execute(w, events[..|events| - 1]), events[|events| - 1], n, t);
    }
  }

  /** In every run the failures a backoff counts all came after the server's last success: the delays start over. */
  lemma SuccessRestartsTheBackoff(w: World, e: Event, events: seq<Event>)
    requires Reachable(w) && Succeeds(w, e)
    ensures var w', n := Execute(RunPiece(w, e), events), e.name;
      n in w'.core.retry ==>
        n in w'.streak && |w'.streak[n]| == w'.core.retry[n].attempts > 0 && w'.streak[n][0] >= w.now
  {
    ReachableInv(w);
    SuccessClears(w, e);
    PieceKeepsInv(w, e);
    RunKeepsInv(RunPiece(w, e), events);
    RunCountsSince(RunPiece(w, e), events, e.name, w.now);
    var w' := Execute(RunPiece(w, e), events);
    if e.name in w'.core.retry {
      assert StreakOk(w'.streak[e.name], w'.core.retry[e.name], w'.now);
    }
  }

  // ----- After a publication that failed -----

  /** Whether a step settles the pending publication of n. */
  predicate Settles(w: World, e: Event, n: Name) {
    match e
    case Unregister(m) => m == n
    case ShutdownContinues => true
    case Run(p, m, outcome, _, _, _) =>
      && m == n && Enabled(w, e)
      && var t := w.passes[p][n];
        || (t.pc.Publishing? && !outcome.Threw?)
        || Resume(w.core, SeenBy(w, e), n, t.def, t.pc, outcome).1.NotifyingAuth?
        || (n in w.conns && w.status(w.conns[n]) == NeedsAuth)
    case _ => false
  }

  lemma PendingPiece(core: Core, seen: Seen, n: Name, def: Definition, pc: Pc, outcome: Outcome)
    requires pc != Done && n in core.pending && n !in Resume(core, seen, n, def, pc, outcome).0.pending
    ensures (pc.Publishing? && !outcome.Threw?) || Resume(core, seen, n, def, pc, outcome).1.NotifyingAuth?
      || (n in seen.conns && seen.status(seen.conns[n]) == NeedsAuth)
  {
  }

  lemma OtherStepKeepsPending(w: World, e: Event, n: Name)
    requires !e.Run? && !(e.Unregister? && e.name == n) && !e.ShutdownContinues?
    ensures n in w.core.pending ==> n in Step(w, e).core.pending
  {
    match e {
      case Mark(m, def) => assert Registered(w, m, def).core.pending == w.core.pending;
      case Unregister(m) => assert Unregistered(w, m).core.pending == w.core.pending - {m};
      case Converge(aborted) => ConvergenceIsOutside(w, aborted, n);
      case HealthTick(aborted) => HealthCheckIsOutside(w, aborted, n);
      case EndPass(p) => PassEndIsOutside(w, p, n);
      case ManagerMoves(_, _) =>
      case Tick(_) =>
      case HealthConverged(_) =>
      case HealthDone =>
      case Abort =>
      case Shutdown =>
    }
  }

  /**
    No publication is forgotten: a pending one stays until it went through, the server turned out
    to need authorization, its name was disposed of, or the manager shut down.
  */
  lemma PendingUntilSettled(w: World, e: Event, n: Name)
    requires n in w.core.pending && n !in Step(w, e).core.pending
    ensures Settles(w, e, n)
  {
    if e.Run? {
      var t := w.passes[e.pass][e.name];
      ResumeKeeps(w.core, SeenBy(w, e), e.name, t.def, t.pc, e.outcome);
      if e.name == n {
        PendingPiece(w.core, SeenBy(w, e), n, t.def, t.pc, e.outcome);
      }
    } else if !(e.Unregister? && e.name == n) && !e.ShutdownContinues? {
      OtherStepKeepsPending(w, e, n);
    }
  }

  /** A check of a server with a pending publication publishes before it does anything else, as soon as it may. */
  lemma PendingIsPublishedFirst(w: World, e: Event)
    requires Ready(w, e) && e.name in w.core.pending
    requires e.name in w.conns && w.status(w.conns[e.name]) == Connected
    ensures RunPiece(w, e).passes[e.pass][e.name].pc == if Due(w, e.name) then Publishing(w.conns[e.name]) else Done
  {
  }

  ghost predicate Unsettled(w: World, events: seq<Event>, n: Name) {
    events == [] ||
      (var before := events[..|events| - 1];
       Unsettled(w, before, n) && !Settles(Execute(w, before), events[|events| - 1], n))
  }

  lemma {:induction false} PendingAlong(w: World, events: seq<Event>, n: Name)
    requires n in w.core.pending && Unsettled(w, events, n)
    ensures n in Execute(w, events).core.pending
  {
    if events != [] {
      var before, e := events[..|events| - 1], events[|events| - 1];
      PendingAlong(w, before, n);
      if n !in Step(Execute(w, before), e).core.pending {
        PendingUntilSettled(Execute(w, before), e, n);
      }
    }
  }

  /** A check that begins to publish has the publication on record. */
  lemma PublishingIsPending(w: World, e: Event)
    requires e.Run? && Enabled(w, e) && RunPiece(w, e).passes[e.pass][e.name].pc.Publishing?
    ensures e.name in RunPiece(w, e).core.pending
  {
    var core', pc' := PieceLeaves(w, e);
  }

  /**
    In every run, once a check has begun to publish, then however often publications fail and
    whatever else happens, until the publication is settled the next due check of the server that
    finds it connected publishes, before anything else.
  */
  lemma FailedPublicationIsRetried(w: World, begin: Event, events: seq<Event>, next: Event)
    requires begin.Run? && Enabled(w, begin) && RunPiece(w, begin).passes[begin.pass][begin.name].pc.Publishing?
    requires Unsettled(RunPiece(w, begin), events, begin.name)
    requires var w' := Execute(RunPiece(w, begin), events);
      && Ready(w', next) && next.name == begin.name && Due(w', begin.name)
      && begin.name in w'.conns && w'.status(w'.conns[begin.name]) == Connected
    ensures var w' := Execute(RunPiece(w, begin), events);
      RunPiece(w', next).passes[next.pass][next.name].pc == Publishing(w'.conns[begin.name])
  {
    PublishingIsPending(w, begin);
    PendingAlong(RunPiece(w, begin), events, begin.name);
    PendingIsPublishedFirst(Execute(RunPiece(w, begin), events), next);
  }

  // ----- Every check ends -----

  /** An upper bound on the pieces a waiting check still has to run. */
  function Remaining(pc: Pc): nat {
    match pc
    case Queued => 5
    case Refreshing(_, again) => if again then 4 else 3
    case Connecting => 2
    case Reconnecting => 2
    case Done => 0
    case _ => 1
  }

  lemma PieceDescends(core: Core, seen: Seen, n: Name, def: Definition, pc: Pc, outcome: Outcome)
    requires pc != Done
    ensures Remaining(Resume(core, seen, n, def, pc, outcome).1) < Remaining(pc)
  {
  }

  function Left(w: World, p: nat, n: Name): nat {
    if p in w.passes && n in w.passes[p] then Remaining(w.passes[p][n].pc) else 0
  }

  /** How many pieces of the check of n in pass p the events run. */
  function PiecesRun(w: World, events: seq<Event>, p: nat, n: Name): nat {
    if events == [] then 0
    else
      var before, e := events[..|events| - 1], events[|events| - 1];
      PiecesRun(w, before, p, n) + if Advances(e, p, n) && Enabled(Execute(w, before), e) then 1 else 0
  }

  predicate Advances(e: Event, p: nat, n: Name) {
    e.Run? && e.pass == p && e.name == n
  }

  lemma PieceStepDescends(w: World, e: Event, p: nat, n: Name)
    requires e.Run? && Enabled(w, e)
    ensures RunPiece(w, e).nextPass == w.nextPass
    ensures Left(RunPiece(w, e), p, n) + (if Advances(e, p, n) then 1 else 0) <= Left(w, p, n)
  {
    var t := w.passes[e.pass][e.name];
    PieceDescends(w.core, SeenBy(w, e), e.name, t.def, t.pc, e.outcome);
  }

  /** Passes that are there keep their checks; only new ones appear and finished ones go. */
  predicate KeepsPasses(w: World, w': World, p: nat) {
    w'.nextPass >= w.nextPass && (p in w'.passes ==> p in w.passes && w'.passes[p] == w.passes[p])
  }

  lemma ConvergeKeepsPasses(w: World, aborted: bool, p: nat)
    requires p < w.nextPass
    ensures KeepsPasses(w, EnsureConverged(w, aborted), p)
    ensures KeepsPasses(w, HealthCheckStarted(w, aborted), p)
  {
  }

  lemma RegistrationKeepsPasses(w: World, n: Name, def: Definition)
    ensures Registered(w, n, def).passes == w.passes && Registered(w, n, def).nextPass == w.nextPass
    ensures Unregistered(w, n).passes == w.passes && Unregistered(w, n).nextPass == w.nextPass
  {
  }

  lemma ShutdownKeepsPasses(w: World)
    ensures ShutdownResumed(w).passes == w.passes && ShutdownResumed(w).nextPass == w.nextPass
  {
    match w.phase {
      case Running =>
      case AwaitingHealth =>
      case AwaitingConvergence(_) =>
      case ClosingAll =>
      case ShutDown =>
    }
  }

  lemma OtherStepKeepsPasses(w: World, e: Event, p: nat)
    requires p < w.nextPass && !e.Run?
    ensures KeepsPasses(w, Step(w, e), p)
  {
    match e {
      case Mark(n, def) => RegistrationKeepsPasses(w, n, def);
      case Unregister(n) => RegistrationKeepsPasses(w, n, Definition(0, false, false));
      case Converge(aborted) => ConvergeKeepsPasses(w, aborted, p);
      case HealthTick(aborted) => ConvergeKeepsPasses(w, aborted, p);
      case ShutdownContinues => ShutdownKeepsPasses(w);
      case _ =>
    }
  }

  lemma StepDescends(w: World, e: Event, p: nat, n: Name)
    requires p < w.nextPass
    ensures p < Step(w, e).nextPass
    ensures Left(Step(w, e), p, n) + (if Advances(e, p, n) && Enabled(w, e) then 1 else 0) <= Left(w, p, n)
  {
    if e.Run? {
      if Enabled(w, e) {
        PieceStepDescends(w, e, p, n);
      }
    } else {
      OtherStepKeepsPasses(w, e, p);
    }
  }

  /**
    However a superseded connection restarts it and whatever the environment answers, a check runs
    at most five pieces, so every pass whose awaited calls return comes to an end.
  */
  lemma {:induction false} EveryCheckEnds(w: World, events: seq<Event>, p: nat, n: Name)
    requires p < w.nextPass
    ensures p < Execute(w, events).nextPass
    ensures PiecesRun(w, events, p, n) + Left(Execute(w, events), p, n) <= Left(w, p, n) <= 5
  {
    if events != [] {
      EveryCheckEnds(w, events[..|events| - 1], p, n);
      StepDescends(Execute(w, events[..|events| - 1]), events[|events| - 1], p, n);
    }
  }
}
