/**
  Every interleaving of the keep-alive manager's pieces with registrations, disposals,
  same-name replacements, the server manager's own changes, time, and shutdown.
*/
module LifecycleRuns {
  import opened Common
  import opened Lifecycle

  /** One server's check within a pass.  stamp and own are bookkeeping of the proof. */
  datatype Task = Task(def: Definition, stamp: nat, pc: Pc, own: set<ConnId>)

  type Pass = map<Name, Task>

  /** Who last made a retry or pending record, and under which registration of the name. */
  datatype Tag = Tag(owner: Definition, epoch: nat)

  datatype Health = NoHealthCheck | Converging(pass: Option<nat>) | ClosingIdle

  datatype Phase = Running | AwaitingHealth | AwaitingConvergence(pass: Option<nat>) | ClosingAll | ShutDown

  datatype World = World(
    core: Core,
    conns: map<Name, ConnId>,
    status: ConnId -> Status,
    now: nat,
    passes: map<nat, Pass>,
    active: Option<nat>,
    nextPass: nat,
    health: Health,
    phase: Phase,
    closeAlls: nat,
    // observers
    epoch: nat,
    registered: map<Name, nat>,
    retryTag: map<Name, Tag>,
    pendingTag: map<Name, Tag>,
    streak: map<Name, seq<nat>>)

  datatype Event =
    | Mark(name: Name, def: Definition)
    | Unregister(name: Name)
    | ManagerMoves(conns: map<Name, ConnId>, status: ConnId -> Status)
    | Tick(ms: nat)
    | Converge(aborted: bool)
    | Run(pass: nat, name: Name, outcome: Outcome, aborted: bool, authPending: bool, transient: bool)
    | EndPass(pass: nat)
    | HealthTick(aborted: bool)
    | HealthConverged(aborted: bool)
    | HealthDone
    | Abort
    | Shutdown
    | ShutdownContinues

  predicate AllDone(pass: Pass) {
    forall n | n in pass :: pass[n].pc == Done
  }

  predicate Ended(w: World, pass: Option<nat>) {
    pass.None? || pass.value !in w.passes || AllDone(w.passes[pass.value])
  }

  /** The unfinished check of a name in the current pass. */
  function Live(w: World, n: Name): Option<Task> {
    if w.active.Some? && w.active.value in w.passes && n in w.passes[w.active.value]
      && w.passes[w.active.value][n].pc != Done
    then Some(w.passes[w.active.value][n]) else None
  }

  predicate Enabled(w: World, e: Event) {
    match e
    case Run(p, n, _, _, _, _) => p in w.passes && n in w.passes[p] && w.passes[p][n].pc != Done
    case EndPass(p) => p in w.passes && AllDone(w.passes[p])
    case HealthConverged(_) => w.health.Converging? && Ended(w, w.health.pass)
    case HealthDone => w.health.ClosingIdle?
    case ShutdownContinues =>
      (match w.phase
       case Running => false
       case AwaitingHealth => w.health.NoHealthCheck?
       case AwaitingConvergence(p) => Ended(w, p)
       case ClosingAll => true
       case ShutDown => false)
    case _ => true
  }

  /** ensureConverged: starts a pass unless stopped, aborted, or one is current. */
  function EnsureConverged(w: World, aborted: bool): World {
    var start := PassToStart(w.core, w.active, aborted);
    if start.None? then w
    else
      var pass := map n | n in start.value ::
        Task(start.value[n], if n in w.registered then w.registered[n] else 0, Queued, {});
      w.(passes := w.passes[w.nextPass := pass], active := Some(w.nextPass), nextPass := w.nextPass + 1)
  }

  function RetagRetry(w: World, core': Core, tag: Tag): map<Name, Tag> {
    map n | n in core'.retry ::
      if Lookup(w.core.retry, n) == Some(core'.retry[n]) && n in w.retryTag then w.retryTag[n] else tag
  }

  /** A pending record belongs to the check that last entered its publication. */
  function RetagPending(w: World, core': Core, tag: Tag, publishing: set<Name>): map<Name, Tag> {
    map n | n in core'.pending ::
      if n in w.core.pending && n in w.pendingTag && n !in publishing then w.pendingTag[n] else tag
  }

  /** A new or changed retry record is a failure recorded now. */
  function ExtendStreaks(w: World, core': Core): map<Name, seq<nat>> {
    map n | n in core'.retry ::
      var before := if n in w.core.retry && n in w.streak then w.streak[n] else [];
      if Lookup(w.core.retry, n) == Some(core'.retry[n]) then before else before + [w.now]
  }

  function SeenBy(w: World, e: Event): Seen
    requires e.Run?
  {
    Seen(w.conns, w.status, w.now, e.aborted, e.authPending, e.transient)
  }

  /** The world after a piece of the check t of n in pass p has left the fields core' and the check t'. */
  function Apply(w: World, p: nat, n: Name, core': Core, t': Task): World
    requires p in w.passes
  {
    var tag := Tag(t'.def, if n in w.registered then w.registered[n] else 0);
    w.(
      core := core',
      passes := w.passes[p := w.passes[p][n := t']],
      retryTag := RetagRetry(w, core', tag),
      pendingTag := RetagPending(w, core', tag, if t'.pc.Publishing? then {n} else {}),
      streak := ExtendStreaks(w, core'))
  }

  /** The check after one piece: connections its own connect or reconnect returned are noted. */
  function Advance(t: Task, pc': Pc, outcome: Outcome): Task {
    var own := if (t.pc.Connecting? || t.pc.Reconnecting?) && outcome.Returned? then {outcome.connection} else {};
    t.(pc := pc', own := t.own + own)
  }

  function RunPiece(w: World, e: Event): World
    requires e.Run? && Enabled(w, e)
  {
    var t := w.passes[e.pass][e.name];
    var (core', pc') := Resume(w.core, SeenBy(w, e), e.name, t.def, t.pc, e.outcome);
    Apply(w, e.pass, e.name, core', Advance(t, pc', e.outcome))
  }

  function Registered(w: World, n: Name, def: Definition): World {
    if def.disabled then w
    else w.(
      core := w.core.(keepAlive := w.core.keepAlive[n := def]),
      epoch := w.epoch + 1,
      registered := w.registered[n := w.epoch + 1])
  }

  function Unregistered(w: World, n: Name): World {
    w.(
      core := Core(w.core.keepAlive - {n}, w.core.retry - {n}, w.core.pending - {n}, w.core.stopped),
      registered := w.registered - {n},
      retryTag := w.retryTag - {n},
      pendingTag := w.pendingTag - {n},
      streak := w.streak - {n})
  }

  function PassEnded(w: World, p: nat): World {
    w.(passes := w.passes - {p}, active := if w.active == Some(p) then None else w.active)
  }

  /** The timer's callback: checkConnections up to its first await. */
  function HealthCheckStarted(w: World, aborted: bool): World {
    if w.core.stopped || aborted || !w.health.NoHealthCheck? then w
    else var w' := EnsureConverged(w, aborted); w'.(health := Converging(w'.active))
  }

  /** shutdownOnce from one await to the next. */
  function ShutdownResumed(w: World): World {
    match w.phase
    case Running => w
    case AwaitingHealth => w.(phase := AwaitingConvergence(w.active))
    case AwaitingConvergence(_) => w.(
      core := Cleared(w.core),
      active := None,
      phase := ClosingAll,
      closeAlls := w.closeAlls + 1,
      retryTag := map[],
      pendingTag := map[],
      streak := map[])
    case ClosingAll => w.(phase := ShutDown)
    case ShutDown => w
  }

  function Step(w: World, e: Event): World {
    if !Enabled(w, e) then w
    else
      match e
      case Mark(n, def) => Registered(w, n, def)
      case Unregister(n) => Unregistered(w, n)
      case ManagerMoves(conns, status) => w.(conns := conns, status := status)
      case Tick(ms) => w.(now := w.now + ms)
      case Converge(aborted) => EnsureConverged(w, aborted)
      case Run(_, _, _, _, _, _) => RunPiece(w, e)
      case EndPass(p) => PassEnded(w, p)
      case HealthTick(aborted) => HealthCheckStarted(w, aborted)
      case HealthConverged(aborted) => w.(health := if w.core.stopped || aborted then NoHealthCheck else ClosingIdle)
      case HealthDone => w.(health := NoHealthCheck)
      case Abort => w.(core := w.core.(stopped := true))
      case Shutdown => if w.phase.Running? then w.(core := w.core.(stopped := true), phase := AwaitingHealth) else w
      case ShutdownContinues => ShutdownResumed(w)
  }

  function Start(conns: map<Name, ConnId>, status: ConnId -> Status, now: nat): World {
    World(Core(map[], map[], {}, false), conns, status, now, map[], None, 0, NoHealthCheck, Running, 0,
      0, map[], map[], map[], map[])
  }

  function Execute(w: World, events: seq<Event>): World {
    if events == [] then w else Step(Execute(w, events[..|events| - 1]), events[|events| - 1])
  }

  // ----- What one piece of a check can do -----

  ghost predicate Recorded(core: Core, seen: Seen, n: Name, core': Core) {
    && n in core'.retry
    && core'.retry[n].attempts == (if n in core.retry then core.retry[n].attempts else 0) + 1
    && core'.retry[n].nextAttemptAt == seen.now + Delay(core'.retry[n].attempts)
  }

  ghost predicate PieceKeeps(
      core: Core, seen: Seen, n: Name, def: Definition, pc: Pc, outcome: Outcome, core': Core, pc': Pc)
  {
    var current := Lookup(core.keepAlive, n) == Some(def);
    && core'.keepAlive == core.keepAlive && core'.stopped == core.stopped
    && (forall m | m != n ::
          Lookup(core'.retry, m) == Lookup(core.retry, m) && (m in core'.pending <==> m in core.pending))
    && !pc'.Queued?
    && (n in core'.pending && n !in core.pending ==> current)
    && (pc'.Publishing? ==> current && n in core'.pending)
    && (n in core'.retry && Lookup(core'.retry, n) != Lookup(core.retry, n) ==>
          current && pc' == Done && !pc.Queued? && Recorded(core, seen, n, core'))
    && (pc'.Closing? ==> !current && Lookup(seen.conns, n) == Some(pc'.closed))
    && (pc'.Closing? ==> (pc.Connecting? || pc.Reconnecting?) && outcome == Returned(pc'.closed))
    && (pc.Queued? && pc' != Done && n in core'.retry ==> seen.now >= core'.retry[n].nextAttemptAt)
  }

  lemma CheckKeeps(core: Core, seen: Seen, n: Name, def: Definition, again: bool, pc: Pc, outcome: Outcome)
    ensures var (core', pc') := Check(core, seen, n, def, again);
      PieceKeeps(core, seen, n, def, pc, outcome, core', pc')
  {
  }

  lemma RecordKeeps(core: Core, seen: Seen, n: Name, def: Definition, conn: Option<ConnId>, pc: Pc, outcome: Outcome)
    requires !pc.Queued?
    ensures PieceKeeps(core, seen, n, def, pc, outcome, RecordRetry(core, seen, n, def, conn).0, Done)
  {
  }

  lemma ReportKeeps(core: Core, seen: Seen, n: Name, def: Definition, conn: Option<ConnId>, pc: Pc, outcome: Outcome)
    requires !pc.Queued?
    ensures PieceKeeps(core, seen, n, def, pc, outcome, ReportFailure(core, seen, n, def, conn), Done)
  {
    RecordKeeps(core, seen, n, def, conn, pc, outcome);
    var (core1, recorded) := RecordRetry(core, seen, n, def, conn);
    var core2 := ReportFailure(core, seen, n, def, conn);
    if recorded && !seen.transient {
      assert core2 == core1.(retry := core1.retry[n := core1.retry[n].(warningReported := true)]);
      forall m | m != n ensures Lookup(core2.retry, m) == Lookup(core1.retry, m) {}
    }
  }

  lemma ConnectKeeps(core: Core, seen: Seen, n: Name, def: Definition, answer: Option<ConnId>, pc: Pc, outcome: Outcome)
    requires pc.Connecting? || pc.Reconnecting?
    requires answer.Some? ==> outcome == Returned(answer.value)
    ensures var (core', pc') := AfterConnect(core, seen, n, def, answer);
      PieceKeeps(core, seen, n, def, pc, outcome, core', pc')
  {
    ReportKeeps(core, seen, n, def, Lookup(seen.conns, n), pc, outcome);
    ReportKeeps(core, seen, n, def, answer, pc, outcome);
  }

  lemma RestoreKeeps(core: Core, seen: Seen, n: Name, def: Definition, pc: Pc, outcome: Outcome)
    requires !pc.Queued?
    ensures PieceKeeps(core, seen, n, def, pc, outcome, RestoreHealth(core, n).0, RestoreHealth(core, n).1)
  {
  }

  /** Publishing or notifying for the registered definition. */
  lemma BeginKeeps(core: Core, seen: Seen, n: Name, def: Definition, conn: ConnId, pc: Pc, outcome: Outcome)
    requires !pc.Queued? && Lookup(core.keepAlive, n) == Some(def)
    ensures var (core', pc') := BeginPublish(core, seen, n, def, conn);
      PieceKeeps(core, seen, n, def, pc, outcome, core', pc')
    ensures var (core', pc') := BeginNotify(core, seen, n, def, conn);
      PieceKeeps(core, seen, n, def, pc, outcome, core', pc')
  {
  }

  lemma SupersededKeeps(
      core: Core, seen: Seen, n: Name, def: Definition, stale: ConnId, again: bool, pc: Pc, outcome: Outcome)
    ensures var (core', pc') := HandleSuperseded(core, seen, n, def, stale, again);
      !pc.Queued? ==> PieceKeeps(core, seen, n, def, pc, outcome, core', pc')
  {
    var current := Lookup(seen.conns, n);
    if !pc.Queued? && Lookup(core.keepAlive, n) == Some(def) {
      RestoreKeeps(core, seen, n, def, pc, outcome);
      if current.Some? {
        BeginKeeps(core, seen, n, def, current.value, pc, outcome);
      }
      CheckKeeps(core, seen, n, def, false, pc, outcome);
    }
  }

  lemma RefreshKeeps(core: Core, seen: Seen, n: Name, def: Definition, pc: Pc, refresh: Refresh, outcome: Outcome)
    requires pc.Refreshing?
    ensures var (core', pc') := AfterRefresh(core, seen, n, def, pc.connection, pc.again, refresh);
      PieceKeeps(core, seen, n, def, pc, outcome, core', pc')
  {
    SupersededKeeps(core, seen, n, def, pc.connection, pc.again, pc, outcome);
    ReportKeeps(core, seen, n, def, Some(pc.connection), pc, outcome);
    RecordKeeps(core, seen, n, def, Some(pc.connection), pc, outcome);
  }

  lemma ResumeKeeps(core: Core, seen: Seen, n: Name, def: Definition, pc: Pc, outcome: Outcome)
    requires pc != Done
    ensures var (core', pc') := Resume(core, seen, n, def, pc, outcome);
      PieceKeeps(core, seen, n, def, pc, outcome, core', pc')
  {
    match pc {
      case Queued => CheckKeeps(core, seen, n, def, true, pc, outcome);
      case Refreshing(_, _) =>
        RefreshKeeps(core, seen, n, def, pc, RefreshOf(outcome), outcome);
      case Publishing(conn) => ReportKeeps(core, seen, n, def, Some(conn), pc, outcome);
      case Connecting =>
        ConnectKeeps(core, seen, n, def, Connection(outcome), pc, outcome);
      case Reconnecting =>
        ConnectKeeps(core, seen, n, def, Connection(outcome), pc, outcome);
      case _ =>
    }
  }

  // ----- The invariant of every run -----

  /** Convergence is single-flight: an unfinished check belongs to the current pass. */
  ghost predicate SingleFlight(w: World) {
    && (forall p | p in w.passes :: p < w.nextPass && (w.active == Some(p) || AllDone(w.passes[p])))
    && (w.active.Some? ==> w.active.value < w.nextPass)
  }

  /** Records exist only for registered names, under the current or an older registration. */
  ghost predicate TagsOk(w: World) {
    && w.registered.Keys == w.core.keepAlive.Keys
    && (forall n | n in w.registered :: w.registered[n] <= w.epoch)
    && w.retryTag.Keys == w.core.retry.Keys && w.pendingTag.Keys == w.core.pending
    && (forall n | n in w.retryTag :: TagOk(w.core.keepAlive, w.registered, n, w.retryTag[n]))
    && (forall n | n in w.pendingTag :: TagOk(w.core.keepAlive, w.registered, n, w.pendingTag[n]))
  }

  ghost predicate TagOk(keepAlive: map<Name, Definition>, registered: map<Name, nat>, n: Name, tag: Tag) {
    n in registered && n in keepAlive && tag.epoch <= registered[n]
      && (tag.epoch == registered[n] ==> tag.owner == keepAlive[n])
  }

  /** A check started before the current registration met no record made since, except its own definition's. */
  ghost predicate TaskOk(w: World, n: Name, t: Task) {
    && t.stamp <= w.epoch
    && (n in w.registered && n in w.core.keepAlive ==>
          t.stamp <= w.registered[n] && (t.stamp == w.registered[n] ==> w.core.keepAlive[n] == t.def))
    && (n in w.retryTag && w.retryTag[n].epoch > t.stamp ==> w.retryTag[n].owner == t.def)
    && (n in w.pendingTag && w.pendingTag[n].epoch > t.stamp ==> w.pendingTag[n].owner == t.def)
    && (!t.pc.Queued? && n in w.core.retry ==> w.now >= w.core.retry[n].nextAttemptAt)
  }

  ghost predicate TasksOk(w: World) {
    forall n | Live(w, n).Some? :: TaskOk(w, n, Live(w, n).value)
  }

  /** The recorded failures of a name since its record was last cleared, spaced by the growing delays. */
  ghost predicate Paced(times: seq<nat>) {
    forall k | 0 < k < |times| :: SpacedAt(times, k)
  }

  predicate SpacedAt(times: seq<nat>, k: nat)
    requires 0 < k < |times|
  {
    times[k] >= times[k - 1] + Delay(k)
  }

  ghost predicate StreakOk(times: seq<nat>, retry: Retry, now: nat) {
    && |times| == retry.attempts > 0
    && times[|times| - 1] <= now
    && retry.nextAttemptAt == times[|times| - 1] + Delay(retry.attempts)
    && Paced(times)
  }

  ghost predicate StreaksOk(w: World) {
    && w.streak.Keys == w.core.retry.Keys
    && forall n | n in w.core.retry && n in w.streak :: StreakOk(w.streak[n], w.core.retry[n], w.now)
  }

  ghost predicate Quiescence(w: World) {
    && (!w.phase.Running? ==> w.core.stopped)
    && w.closeAlls == (if w.phase.ClosingAll? || w.phase.ShutDown? then 1 else 0)
    && (w.phase.AwaitingConvergence? || w.phase.ClosingAll? || w.phase.ShutDown? ==> w.health.NoHealthCheck?)
    && (w.phase.AwaitingConvergence? ==> w.active.None? || w.active == w.phase.pass)
    && (w.phase.ClosingAll? || w.phase.ShutDown? ==> forall p | p in w.passes :: AllDone(w.passes[p]))
  }

  ghost predicate Inv(w: World) {
    SingleFlight(w) && TagsOk(w) && TasksOk(w) && StreaksOk(w) && Quiescence(w)
  }

  // ----- One piece keeps it -----

  /** A piece of the check t of n, run now, may leave core' and pc'. */
  ghost predicate MayLeave(w: World, p: nat, n: Name, seen: Seen, outcome: Outcome, core': Core, pc': Pc) {
    && p in w.passes && n in w.passes[p] && w.passes[p][n].pc != Done
    && seen.conns == w.conns && seen.now == w.now
    && PieceKeeps(w.core, seen, n, w.passes[p][n].def, w.passes[p][n].pc, outcome, core', pc')
  }

  lemma ApplyKeepsOthers(w: World, p: nat, n: Name, seen: Seen, outcome: Outcome, core': Core, pc': Pc, m: Name)
    requires SingleFlight(w) && MayLeave(w, p, n, seen, outcome, core', pc') && m != n
    requires w.retryTag.Keys == w.streak.Keys == w.core.retry.Keys && w.pendingTag.Keys == w.core.pending
    ensures var w' := Apply(w, p, n, core', Advance(w.passes[p][n], pc', outcome));
      && Live(w', m) == Live(w, m)
      && Lookup(w'.core.retry, m) == Lookup(w.core.retry, m)
      && Lookup(w'.retryTag, m) == Lookup(w.retryTag, m)
      && Lookup(w'.pendingTag, m) == Lookup(w.pendingTag, m)
      && Lookup(w'.streak, m) == Lookup(w.streak, m)
  {
    assert Lookup(core'.retry, m) == Lookup(w.core.retry, m);
    assert m in core'.pending <==> m in w.core.pending;
  }

  /** The retry record of n itself, after a piece of a check of n. */
  lemma ApplyRetryTag(w: World, p: nat, n: Name, seen: Seen, outcome: Outcome, core': Core, pc': Pc)
    requires TagsOk(w) && MayLeave(w, p, n, seen, outcome, core', pc') && n in core'.retry
    ensures var tag := Tag(w.passes[p][n].def, if n in w.registered then w.registered[n] else 0);
      TagOk(core'.keepAlive, w.registered, n, RetagRetry(w, core', tag)[n])
  {
    if Lookup(w.core.retry, n) == Some(core'.retry[n]) {
      assert TagOk(w.core.keepAlive, w.registered, n, w.retryTag[n]);
    }
  }

  /** Its pending record. */
  lemma ApplyPendingTag(
      w: World, p: nat, n: Name, seen: Seen, outcome: Outcome, core': Core, pc': Pc, publishing: set<Name>)
    requires TagsOk(w) && MayLeave(w, p, n, seen, outcome, core', pc') && n in core'.pending
    requires n in publishing ==> pc'.Publishing?
    ensures var tag := Tag(w.passes[p][n].def, if n in w.registered then w.registered[n] else 0);
      TagOk(core'.keepAlive, w.registered, n, RetagPending(w, core', tag, publishing)[n])
  {
    if n in w.core.pending {
      assert TagOk(w.core.keepAlive, w.registered, n, w.pendingTag[n]);
    }
  }

  lemma ApplyKeepsTags(w: World, p: nat, n: Name, seen: Seen, outcome: Outcome, core': Core, pc': Pc)
    requires SingleFlight(w) && TagsOk(w) && w.streak.Keys == w.core.retry.Keys
    requires MayLeave(w, p, n, seen, outcome, core', pc')
    ensures TagsOk(Apply(w, p, n, core', Advance(w.passes[p][n], pc', outcome)))
  {
    var w' := Apply(w, p, n, core', Advance(w.passes[p][n], pc', outcome));
    assert w'.retryTag.Keys == core'.retry.Keys && w'.pendingTag.Keys == core'.pending;
    if n in core'.retry {
      ApplyRetryTag(w, p, n, seen, outcome, core', pc');
    }
    if n in core'.pending {
      ApplyPendingTag(w, p, n, seen, outcome, core', pc', if pc'.Publishing? then {n} else {});
    }
    forall m | m in w'.retryTag && m != n ensures TagOk(w'.core.keepAlive, w'.registered, m, w'.retryTag[m]) {
      ApplyKeepsOthers(w, p, n, seen, outcome, core', pc', m);
      assert TagOk(w.core.keepAlive, w.registered, m, w.retryTag[m]);
    }
    forall m | m in w'.pendingTag && m != n ensures TagOk(w'.core.keepAlive, w'.registered, m, w'.pendingTag[m]) {
      ApplyKeepsOthers(w, p, n, seen, outcome, core', pc', m);
      assert TagOk(w.core.keepAlive, w.registered, m, w.pendingTag[m]);
    }
  }

  /** The check of n itself, after one of its pieces. */
  lemma ApplyTaskOwn(w: World, p: nat, n: Name, seen: Seen, outcome: Outcome, core': Core, pc': Pc)
    requires TagsOk(w) && MayLeave(w, p, n, seen, outcome, core', pc') && TaskOk(w, n, w.passes[p][n])
    ensures var t' := Advance(w.passes[p][n], pc', outcome);
      pc' != Done ==> TaskOk(Apply(w, p, n, core', t'), n, t')
  {
    var t' := Advance(w.passes[p][n], pc', outcome);
    var w' := Apply(w, p, n, core', t');
    assert n in core'.retry && pc' != Done ==> Lookup(core'.retry, n) == Lookup(w.core.retry, n);
  }

  lemma ApplyKeepsTasks(w: World, p: nat, n: Name, seen: Seen, outcome: Outcome, core': Core, pc': Pc)
    requires SingleFlight(w) && TagsOk(w) && TasksOk(w) && w.streak.Keys == w.core.retry.Keys
    requires MayLeave(w, p, n, seen, outcome, core', pc')
    ensures TasksOk(Apply(w, p, n, core', Advance(w.passes[p][n], pc', outcome)))
  {
    var t := w.passes[p][n];
    var w' := Apply(w, p, n, core', Advance(t, pc', outcome));
    assert Live(w, n) == Some(t) && TaskOk(w, n, t);
    ApplyTaskOwn(w, p, n, seen, outcome, core', pc');
    forall m | Live(w', m).Some? && m != n ensures TaskOk(w', m, Live(w', m).value) {
      ApplyKeepsOthers(w, p, n, seen, outcome, core', pc', m);
      assert TaskOk(w, m, Live(w, m).value);
    }
  }

  lemma ApplyKeepsStreaks(w: World, p: nat, n: Name, seen: Seen, outcome: Outcome, core': Core, pc': Pc)
    requires SingleFlight(w) && TasksOk(w) && StreaksOk(w) && MayLeave(w, p, n, seen, outcome, core', pc')
    ensures StreaksOk(Apply(w, p, n, core', Advance(w.passes[p][n], pc', outcome)))
  {
    var t := w.passes[p][n];
    var streak' := ExtendStreaks(w, core');
    assert Live(w, n) == Some(t) && TaskOk(w, n, t);
    assert streak'.Keys == core'.retry.Keys;
    forall m | m in core'.retry ensures StreakOk(streak'[m], core'.retry[m], w.now) {
      assert m != n ==> Lookup(core'.retry, m) == Lookup(w.core.retry, m);
      StreakKept(w, m, seen, core');
    }
  }

  lemma StreakKept(w: World, n: Name, seen: Seen, core': Core)
    requires StreaksOk(w) && seen.now == w.now && n in core'.retry
    requires Lookup(core'.retry, n) != Lookup(w.core.retry, n) ==>
      Recorded(w.core, seen, n, core') && (n in w.core.retry ==> w.now >= w.core.retry[n].nextAttemptAt)
    ensures StreakOk(ExtendStreaks(w, core')[n], core'.retry[n], w.now)
  {
    if n in w.core.retry {
      assert StreakOk(w.streak[n], w.core.retry[n], w.now);
    }
    if Lookup(core'.retry, n) != Lookup(w.core.retry, n) {
      var times := if n in w.core.retry then w.streak[n] else [];
      assert ExtendStreaks(w, core')[n] == times + [w.now];
      StreakExtended(times, if n in w.core.retry then w.core.retry[n].nextAttemptAt else 0, core'.retry[n], w.now);
    }
  }

  lemma StreakExtended(times: seq<nat>, dueAt: nat, retry: Retry, now: nat)
    requires Paced(times) && (times != [] ==> dueAt == times[|times| - 1] + Delay(|times|) && now >= dueAt)
    requires retry.attempts == |times| + 1 && retry.nextAttemptAt == now + Delay(retry.attempts)
    ensures StreakOk(times + [now], retry, now)
  {
    ExtendPaced(times, now);
  }

  lemma ExtendPaced(times: seq<nat>, now: nat)
    requires Paced(times) && (times != [] ==> now >= times[|times| - 1] + Delay(|times|))
    ensures Paced(times + [now])
  {
    forall k | 0 < k < |times + [now]| ensures SpacedAt(times + [now], k) {
      assert k < |times| ==> SpacedAt(times, k);
    }
  }

  lemma ApplyKeepsPasses(w: World, p: nat, n: Name, seen: Seen, outcome: Outcome, core': Core, pc': Pc)
    requires SingleFlight(w) && Quiescence(w) && MayLeave(w, p, n, seen, outcome, core', pc')
    ensures var w' := Apply(w, p, n, core', Advance(w.passes[p][n], pc', outcome));
      SingleFlight(w') && Quiescence(w')
  {
    var w' := Apply(w, p, n, core', Advance(w.passes[p][n], pc', outcome));
    assert w.active == Some(p);
    forall q | q in w'.passes ensures q < w'.nextPass && (w'.active == Some(q) || AllDone(w'.passes[q])) {
      assert q in w.passes;
    }
  }

  lemma PieceKeepsInv(w: World, e: Event)
    requires Inv(w) && e.Run? && Enabled(w, e)
    ensures Inv(RunPiece(w, e))
  {
    var t, seen := w.passes[e.pass][e.name], SeenBy(w, e);
    ResumeKeeps(w.core, seen, e.name, t.def, t.pc, e.outcome);
    var (core', pc') := Resume(w.core, seen, e.name, t.def, t.pc, e.outcome);
    ApplyKeepsPasses(w, e.pass, e.name, seen, e.outcome, core', pc');
    ApplyKeepsTags(w, e.pass, e.name, seen, e.outcome, core', pc');
    ApplyKeepsTasks(w, e.pass, e.name, seen, e.outcome, core', pc');
    ApplyKeepsStreaks(w, e.pass, e.name, seen, e.outcome, core', pc');
  }

  // ----- Every other step keeps it -----

  lemma MarkKeepsInv(w: World, n: Name, def: Definition)
    requires Inv(w)
    ensures Inv(Registered(w, n, def))
  {
    var w' := Registered(w, n, def);
    forall m ensures Live(w', m) == Live(w, m) {}
    forall m | m in w'.retryTag ensures TagOk(w'.core.keepAlive, w'.registered, m, w'.retryTag[m]) {
      assert TagOk(w.core.keepAlive, w.registered, m, w.retryTag[m]);
    }
    forall m | m in w'.pendingTag ensures TagOk(w'.core.keepAlive, w'.registered, m, w'.pendingTag[m]) {
      assert TagOk(w.core.keepAlive, w.registered, m, w.pendingTag[m]);
    }
    forall m | Live(w', m).Some? ensures TaskOk(w', m, Live(w', m).value) {
      assert TaskOk(w, m, Live(w, m).value);
    }
  }

  lemma UnregisterKeepsInv(w: World, n: Name)
    requires Inv(w)
    ensures Inv(Unregistered(w, n))
  {
    var w' := Unregistered(w, n);
    forall m ensures Live(w', m) == Live(w, m) {}
    forall m | m in w'.retryTag ensures TagOk(w'.core.keepAlive, w'.registered, m, w'.retryTag[m]) {
      assert TagOk(w.core.keepAlive, w.registered, m, w.retryTag[m]);
    }
    forall m | m in w'.pendingTag ensures TagOk(w'.core.keepAlive, w'.registered, m, w'.pendingTag[m]) {
      assert TagOk(w.core.keepAlive, w.registered, m, w.pendingTag[m]);
    }
    forall m | Live(w', m).Some? ensures TaskOk(w', m, Live(w', m).value) {
      assert TaskOk(w, m, Live(w, m).value);
    }
  }

  lemma ConvergeKeepsInv(w: World, aborted: bool)
    requires Inv(w)
    ensures Inv(EnsureConverged(w, aborted))
  {
    var w' := EnsureConverged(w, aborted);
    if w' != w {
      forall n | Live(w', n).Some? ensures TaskOk(w', n, Live(w', n).value) {
        assert Live(w', n).value == Task(w.core.keepAlive[n], w.registered[n], Queued, {});
      }
    }
  }

  lemma EndPassKeepsInv(w: World, p: nat)
    requires Inv(w) && Enabled(w, EndPass(p))
    ensures Inv(PassEnded(w, p))
  {
    var w' := PassEnded(w, p);
    forall n | Live(w', n).Some? ensures TaskOk(w', n, Live(w', n).value) {
      assert Live(w, n) == Live(w', n);
      assert TaskOk(w, n, Live(w, n).value);
    }
  }

  /** A step that leaves records, registrations and checks alone and does not turn time back. */
  lemma FrameKeepsInv(w: World, w': World)
    requires Inv(w) && SingleFlight(w') && Quiescence(w') && w'.now >= w.now
    requires w'.core == w.core.(stopped := w'.core.stopped)
    requires w'.passes == w.passes && w'.active == w.active && w'.epoch == w.epoch && w'.registered == w.registered
    requires w'.retryTag == w.retryTag && w'.pendingTag == w.pendingTag && w'.streak == w.streak
    ensures Inv(w')
  {
    forall n | Live(w', n).Some? ensures TaskOk(w', n, Live(w', n).value) {
      assert Live(w, n) == Live(w', n);
      assert TaskOk(w, n, Live(w, n).value);
    }
  }

  lemma ClosingKeepsInv(w: World)
    requires Inv(w) && w.phase.AwaitingConvergence? && Ended(w, w.phase.pass)
    ensures Inv(ShutdownResumed(w))
  {
    var w' := ShutdownResumed(w);
    forall p | p in w.passes ensures AllDone(w.passes[p]) {
      assert w.active == Some(p) || AllDone(w.passes[p]);
    }
    assert forall n :: Live(w', n) == None;
    assert SingleFlight(w') && TagsOk(w') && StreaksOk(w') && Quiescence(w');
  }

  lemma EnvironmentKeepsInv(w: World, conns: map<Name, ConnId>, status: ConnId -> Status, ms: nat)
    requires Inv(w)
    ensures Inv(w.(conns := conns, status := status))
    ensures Inv(w.(now := w.now + ms))
    ensures Inv(w.(core := w.core.(stopped := true)))
  {
    FrameKeepsInv(w, w.(conns := conns, status := status));
    FrameKeepsInv(w, w.(now := w.now + ms));
    FrameKeepsInv(w, w.(core := w.core.(stopped := true)));
  }

  lemma HealthWaitKeepsInv(w: World, health: Health)
    requires Inv(w) && (w.health.Converging? || health.NoHealthCheck?)
    ensures Inv(w.(health := health))
  {
    FrameKeepsInv(w, w.(health := health));
  }

  lemma StoppingKeepsInv(w: World)
    requires Inv(w) && w.phase.Running?
    ensures Inv(w.(core := w.core.(stopped := true), phase := AwaitingHealth))
  {
    FrameKeepsInv(w, w.(core := w.core.(stopped := true), phase := AwaitingHealth));
  }

  lemma AwaitingKeepsInv(w: World)
    requires Inv(w) && w.phase.AwaitingHealth? && w.health.NoHealthCheck?
    ensures Inv(w.(phase := AwaitingConvergence(w.active)))
  {
    FrameKeepsInv(w, w.(phase := AwaitingConvergence(w.active)));
  }

  lemma ClosedKeepsInv(w: World)
    requires Inv(w) && w.phase.ClosingAll?
    ensures Inv(w.(phase := ShutDown))
  {
    FrameKeepsInv(w, w.(phase := ShutDown));
  }

  lemma ShutdownKeepsInv(w: World)
    requires Inv(w) && Enabled(w, ShutdownContinues)
    ensures Inv(ShutdownResumed(w))
  {
    match w.phase {
      case AwaitingHealth => AwaitingKeepsInv(w);
      case AwaitingConvergence(_) => ClosingKeepsInv(w);
      case ClosingAll => ClosedKeepsInv(w);
      case _ =>
    }
  }

  lemma StepKeepsInv(w: World, e: Event)
    requires Inv(w)
    ensures Inv(Step(w, e))
  {
    if Enabled(w, e) {
      match e {
        case Mark(n, def) => MarkKeepsInv(w, n, def);
        case Unregister(n) => UnregisterKeepsInv(w, n);
        case ManagerMoves(conns, status) => EnvironmentKeepsInv(w, conns, status, 0);
        case Tick(ms) => EnvironmentKeepsInv(w, w.conns, w.status, ms);
        case Converge(aborted) => ConvergeKeepsInv(w, aborted);
        case Run(_, _, _, _, _, _) => PieceKeepsInv(w, e);
        case EndPass(p) => EndPassKeepsInv(w, p);
        case HealthTick(aborted) => HealthKeepsInv(w, aborted);
        case HealthConverged(aborted) =>
          HealthWaitKeepsInv(w, if w.core.stopped || aborted then NoHealthCheck else ClosingIdle);
        case HealthDone => HealthWaitKeepsInv(w, NoHealthCheck);
        case Abort => EnvironmentKeepsInv(w, w.conns, w.status, 0);
        case Shutdown =>
          if w.phase.Running? {
            StoppingKeepsInv(w);
          }
        case ShutdownContinues => ShutdownKeepsInv(w);
      }
    }
  }

  lemma HealthKeepsInv(w: World, aborted: bool)
    requires Inv(w)
    ensures Inv(HealthCheckStarted(w, aborted))
  {
    ConvergeKeepsInv(w, aborted);
    if !(w.core.stopped || aborted || !w.health.NoHealthCheck?) {
      FrameKeepsInv(EnsureConverged(w, aborted), HealthCheckStarted(w, aborted));
    }
  }

  lemma {:induction false} RunKeepsInv(w: World, events: seq<Event>)
    requires Inv(w)
    ensures Inv(Execute(w, events))
  {
    if events != [] {
      RunKeepsInv(w, events[..|events| - 1]);
      StepKeepsInv(Execute(w, events[..|events| - 1]), events[|events| - 1]);
    }
  }

  /** A world some run reaches from a newly built manager. */
  ghost predicate Reachable(w: World) {
    exists conns, status, now, events :: w == Execute(Start(conns, status, now), events)
  }

  lemma ReachableInv(w: World)
    requires Reachable(w)
    ensures Inv(w)
  {
    var conns, status, now, events :| w == Execute(Start(conns, status, now), events);
    RunKeepsInv(Start(conns, status, now), events);
  }

  // ----- Main results -----

  /** The registration of n is not the one this check was started for. */
  predicate Stale(w: World, n: Name, t: Task) {
    Lookup(w.core.keepAlive, n) != Some(t.def)
  }

  /**
    In every interleaving, a check started for a definition that is no longer registered adds
    and changes no retry or pending record, touches no other name, and what it removes was last
    made, or last taken up for publication, under an older registration: while it is alive the
    new registration has no records of its own.
  */
  lemma StaleCheckIsHarmless(w: World, e: Event)
    requires Reachable(w) && e.Run? && Enabled(w, e) && Stale(w, e.name, w.passes[e.pass][e.name])
    ensures var w' := Step(w, e);
      && w'.core.keepAlive == w.core.keepAlive
      && (forall m | m in w'.core.retry :: m in w.core.retry && w'.core.retry[m] == w.core.retry[m])
      && w'.core.pending <= w.core.pending
      && (forall m | m != e.name ::
            Lookup(w'.core.retry, m) == Lookup(w.core.retry, m) && (m in w'.core.pending <==> m in w.core.pending))
    ensures w.retryTag.Keys == w.core.retry.Keys && w.pendingTag.Keys == w.core.pending
    ensures e.name in w.registered && e.name in w.retryTag ==> w.retryTag[e.name].epoch < w.registered[e.name]
    ensures e.name in w.registered && e.name in w.pendingTag ==> w.pendingTag[e.name].epoch < w.registered[e.name]
  {
    ReachableInv(w);
    var t, n, seen := w.passes[e.pass][e.name], e.name, SeenBy(w, e);
    ResumeKeeps(w.core, seen, n, t.def, t.pc, e.outcome);
    var (core', pc') := Resume(w.core, seen, n, t.def, t.pc, e.outcome);
    assert w.active == Some(e.pass) && Live(w, n) == Some(t);
    assert TaskOk(w, n, t);
    StalePieceOnlyRemoves(w.core, seen, n, t.def, t.pc, e.outcome, core', pc');
    assert n in w.retryTag ==> TagOk(w.core.keepAlive, w.registered, n, w.retryTag[n]);
    assert n in w.pendingTag ==> TagOk(w.core.keepAlive, w.registered, n, w.pendingTag[n]);
  }

  lemma StalePieceOnlyRemoves(
      core: Core, seen: Seen, n: Name, def: Definition, pc: Pc, outcome: Outcome, core': Core, pc': Pc)
    requires PieceKeeps(core, seen, n, def, pc, outcome, core', pc') && Lookup(core.keepAlive, n) != Some(def)
    ensures forall m | m in core'.retry :: m in core.retry && core'.retry[m] == core.retry[m]
    ensures core'.pending <= core.pending
  {
    forall m | m in core'.retry ensures m in core.retry && core'.retry[m] == core.retry[m] {
      assert m != n ==> Lookup(core'.retry, m) == Lookup(core.retry, m);
    }
  }

  /** A check closes a connection only when it is stale, and only one its own connect or reconnect returned. */
  lemma ClosesOnlyItsOwn(w: World, e: Event)
    requires e.Run? && Enabled(w, e) && Step(w, e).passes[e.pass][e.name].pc.Closing?
    ensures var t' := Step(w, e).passes[e.pass][e.name];
      && Stale(w, e.name, t')
      && t'.pc.closed in t'.own
      && Lookup(w.conns, e.name) == Some(t'.pc.closed)
  {
    var t := w.passes[e.pass][e.name];
    ResumeKeeps(w.core, SeenBy(w, e), e.name, t.def, t.pc, e.outcome);
  }

  /**
    The unfenced deletions after the publish callback rest on single flight: with two unfinished
    checks of one name, a stale one removes the pending record of the current registration.
  */
  lemma SingleFlightIsNeeded() returns (w: World, e: Event)
    ensures TagsOk(w) && StreaksOk(w) && Quiescence(w) && !SingleFlight(w)
    ensures e.Run? && Enabled(w, e) && Stale(w, e.name, w.passes[e.pass][e.name])
    ensures e.name in w.pendingTag && w.pendingTag[e.name].epoch == w.registered[e.name]
    ensures e.name !in Step(w, e).core.pending
  {
    var old1, new1, n := Definition(1, false, true), Definition(2, false, true), "s";
    var core := Core(map[n := new1], map[], {n}, false);
    var stale, current := map[n := Task(old1, 1, Publishing(7), {7})], map[n := Task(new1, 2, Publishing(8), {8})];
    w := World(
      core, map[n := 8], _ => Connected, 0, map[0 := stale, 1 := current], Some(1), 2, NoHealthCheck, Running, 0,
      2, map[n := 2], map[], map[n := Tag(new1, 2)], map[]);
    e := Run(0, n, Finished, false, false, false);
    assert stale[n].pc == Publishing(7);
    assert !AllDone(w.passes[0]);
    assert EndPublish(core, SeenBy(w, e), n, old1, 7, false).pending == {};
  }

  // ----- Retry pacing -----

  function DelaySum(k: nat): nat {
    if k == 0 then 0 else DelaySum(k - 1) + Delay(k)
  }

  lemma {:induction false} PacedSpan(times: seq<nat>, k: nat)
    requires Paced(times) && k < |times|
    ensures times[k] >= times[0] + DelaySum(k)
  {
    if k > 0 {
      PacedSpan(times, k - 1);
      assert SpacedAt(times, k);
    }
  }

  /**
    In every run, the failures recorded for a name since its retry record was last cleared are
    as many as its attempts, and the k-th one comes at least the sum of the delays before it
    after the first; the next attempt is due one more delay after the last.
  */
  lemma FailuresArePaced(w: World, n: Name)
    requires Reachable(w) && n in w.core.retry
    ensures n in w.streak && |w.streak[n]| == w.core.retry[n].attempts > 0
    ensures forall k | 0 <= k < |w.streak[n]| :: w.streak[n][k] >= w.streak[n][0] + DelaySum(k)
    ensures w.core.retry[n].nextAttemptAt >= w.streak[n][0] + DelaySum(w.core.retry[n].attempts)
  {
    ReachableInv(w);
    var times := w.streak[n];
    assert StreakOk(times, w.core.retry[n], w.now);
    forall k | 0 <= k < |times| ensures times[k] >= times[0] + DelaySum(k) {
      PacedSpan(times, k);
    }
  }

  lemma {:induction false} Pow2Grows(j: nat, k: nat)
    requires j <= k
    ensures 1 <= Pow2(j) <= Pow2(k)
    decreases k
  {
    if j < k {
      Pow2Grows(j, k - 1);
    } else if j > 0 {
      Pow2Grows(j - 1, k - 1);
    }
  }

  /** The delays start at 30 s, never shrink, never pass 300 s and stay there from the fifth failure on. */
  lemma DelayShape(k: nat)
    requires k > 0
    ensures 30_000 <= Delay(k) <= Delay(k + 1) <= 300_000
    ensures Delay(k) == 300_000 <==> k >= 5
    ensures k <= 4 ==> Delay(k) == 30_000 * Pow2(k - 1)
  {
    assert Pow2(3) == 8 && Pow2(4) == 16;
    var e := if k - 1 <= 10 then k - 1 else 10;
    if k >= 5 {
      Pow2Grows(4, e);
      Pow2Grows(4, if k <= 10 then k else 10);
    } else {
      Pow2Grows(0, k - 1);
      Pow2Grows(k - 1, 3);
      Pow2Grows(k - 1, k);
    }
  }

  // ----- Shutdown -----

  /**
    From the moment shutdown begins no convergence pass starts; closeAll runs at most once,
    however many callers ask; and when it has run every pass ever started has ended and no
    health check is running.
  */
  lemma ShutdownIsQuiescent(w: World, events: seq<Event>)
    requires Reachable(w) && !w.phase.Running?
    ensures var w' := Execute(w, events);
      && w'.nextPass == w.nextPass
      && w'.closeAlls <= 1
      && (w'.closeAlls == 1 ==>
            w'.health.NoHealthCheck? && w'.core.stopped && forall p | p in w'.passes :: AllDone(w'.passes[p]))
  {
    ReachableInv(w);
    RunKeepsInv(w, events);
    NoPassStarts(w, events);
  }

  lemma StepStartsNoPass(w: World, e: Event)
    requires !w.phase.Running? && w.core.stopped
    ensures !Step(w, e).phase.Running? && Step(w, e).nextPass == w.nextPass
  {
    if Enabled(w, e) {
      match e {
        case Mark(n, def) => assert Registered(w, n, def).nextPass == w.nextPass;
        case Run(_, _, _, _, _, _) => assert RunPiece(w, e).nextPass == w.nextPass;
        case HealthTick(aborted) => assert HealthCheckStarted(w, aborted) == w;
        case ShutdownContinues => assert ShutdownResumed(w).nextPass == w.nextPass;
        case _ =>
      }
    }
  }

  lemma {:induction false} NoPassStarts(w: World, events: seq<Event>)
    requires Inv(w) && !w.phase.Running?
    ensures !Execute(w, events).phase.Running? && Execute(w, events).nextPass == w.nextPass
  {
    if events != [] {
      var before := Execute(w, events[..|events| - 1]);
      NoPassStarts(w, events[..|events| - 1]);
      assert Quiescence(before) by {
        RunKeepsInv(w, events[..|events| - 1]);
      }
      StepStartsNoPass(before, events[|events| - 1]);
    }
  }
}
