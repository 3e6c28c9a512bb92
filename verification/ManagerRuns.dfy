/**
  The keep-alive manager's class, driven through any events by its own methods, goes through
  exactly the states that the lemmas about runs speak of.
*/
module ManagerRuns {
  import opened Common
  import opened Lifecycle
  import opened LifecycleRuns

  /** The manager holds the fields of the world; the world keeps what lies outside it. */
  ghost predicate Holds(manager: McpLifecycleManager, w: World)
    reads manager
  {
    manager.View() == w.core && manager.activeConvergence == w.active
      && (manager.shutdownStarted <==> !w.phase.Running?)
  }

  method RunPieceOn(manager: McpLifecycleManager, w: World, e: Event)
    requires Holds(manager, w) && e.Run? && Enabled(w, e)
    modifies manager
    ensures Holds(manager, RunPiece(w, e))
  {
    var t := w.passes[e.pass][e.name];
    var _ := manager.ResumeCheck(SeenBy(w, e), e.name, t.def, t.pc, e.outcome);
  }

  method ConvergeOn(manager: McpLifecycleManager, w: World, aborted: bool)
    requires Holds(manager, w)
    modifies manager
    ensures Holds(manager, EnsureConverged(w, aborted))
  {
    var _ := manager.EnsureConverged(w.nextPass, aborted);
  }

  method HealthCheckOn(manager: McpLifecycleManager, w: World, aborted: bool)
    requires Holds(manager, w)
    modifies manager
    ensures Holds(manager, HealthCheckStarted(w, aborted))
  {
    if !manager.stopped && !aborted && w.health.NoHealthCheck? {
      ConvergeOn(manager, w, aborted);
    }
  }

  method ShutdownOn(manager: McpLifecycleManager, w: World)
    requires Holds(manager, w)
    modifies manager
    ensures Holds(manager, ShutdownResumed(w))
  {
    match w.phase
    case AwaitingConvergence(_) =>
      manager.ClearForShutdown();
    case Running =>
    case AwaitingHealth =>
    case ClosingAll =>
    case ShutDown =>
  }

  method StepOn(manager: McpLifecycleManager, w: World, e: Event)
    requires Holds(manager, w)
    modifies manager
    ensures Holds(manager, Step(w, e))
  {
    if !Enabled(w, e) {
      return;
    }
    match e
    case Mark(n, def) =>
      manager.MarkKeepAlive(n, def);
    case Unregister(n) =>
      manager.UnregisterServer(n);
    case Converge(aborted) =>
      ConvergeOn(manager, w, aborted);
    case Run(_, _, _, _, _, _) =>
      RunPieceOn(manager, w, e);
    case EndPass(p) =>
      manager.ConvergenceEnded(p);
    case HealthTick(aborted) =>
      HealthCheckOn(manager, w, aborted);
    case Abort =>
      manager.Stop();
    case Shutdown =>
      var _ := manager.GracefulShutdown();
    case ShutdownContinues =>
      ShutdownOn(manager, w);
    case _ =>
  }

  /** Every run of a manager object is a run of the model. */
  method RunManager(
    manager: McpLifecycleManager, conns: map<Name, ConnId>, status: ConnId -> Status, now: nat, events: seq<Event>)
    returns (w: World)
    requires Holds(manager, Start(conns, status, now))
    modifies manager
    ensures w == Execute(Start(conns, status, now), events) && Holds(manager, w)
  {
    w := Start(conns, status, now);
    for i := 0 to |events|
      invariant w == Execute(Start(conns, status, now), events[..i]) && Holds(manager, w)
    {
      assert events[..i + 1][..i] == events[..i];
      StepOn(manager, w, events[i]);
      w := Step(w, events[i]);
    }
    assert events[..|events|] == events;
  }
}
