/**
  The adapter's class, driven through any events by its own methods, goes through exactly the
  states that the lemmas about runs speak of.
*/
module AdapterRuns {
  import opened Common
  import opened RuntimePublication
  import opened RuntimeRuns

  /** The state handed to shutdownState by one piece, if any. */
  function Handed(w: World, handed: Option<StateId>): multiset<StateId> {
    if handed.Some? then w.handed + multiset{handed.value} else w.handed
  }

  method SessionOn(adapter: McpAdapter, w: World, e: Event) returns (handed: Option<StateId>)
    requires adapter.View() == w.f && Enabled(w, e)
    requires e.Start? || e.StartContinues? || e.Shutdown? || e.FirstOperation? || e.Retry? || e.LoadTimeStart?
    modifies adapter
    ensures adapter.View() == Step(w, e).f && Handed(w, handed) == Step(w, e).handed
  {
    handed := None;
    match e
    case Start =>
      handed := adapter.OnSessionStart();
    case StartContinues(g, o, defer) =>
      adapter.SessionStartContinues(g, o, defer);
    case Shutdown =>
      handed := adapter.OnSessionShutdown();
    case FirstOperation =>
      adapter.EnsureRuntime();
    case Retry =>
      adapter.StartGatewayRetryInitialization();
    case LoadTimeStart =>
      adapter.StartLoadTimeInitialization();
  }

  method StartupOn(adapter: McpAdapter, w: World, e: Event)
    requires adapter.View() == w.f && Enabled(w, e)
    requires e.Loaded? || e.Called? || e.Resolved? || e.OrphanResolved?
    modifies adapter
    ensures adapter.View() == Step(w, e).f && w.handed == Step(w, e).handed
  {
    match e
    case Loaded(i, loaded) =>
      adapter.RuntimeModulesLoaded(i, loaded);
    case Called(i) =>
      adapter.InitializeMcpReturned(i);
    case Resolved(i, ok) =>
      adapter.InitializeMcpSettled(i, ok);
    case OrphanResolved(i) =>
      adapter.DroppedCallSettled(i);
  }

  method SettlingOn(adapter: McpAdapter, w: World, e: Event) returns (handed: Option<StateId>)
    requires adapter.View() == w.f && Enabled(w, e)
    requires e.Continued? || e.Finalized? || e.Cleaned? || e.Failed?
    modifies adapter
    ensures adapter.View() == Step(w, e).f && Handed(w, handed) == Step(w, e).handed
  {
    handed := None;
    match e
    case Continued(i) =>
      handed := adapter.InitializationProduced(i);
    case Finalized(i, threw) =>
      handed := adapter.FinalizationEnded(i, threw);
    case Cleaned(i) =>
      adapter.StateShutDown(i);
    case Failed(i) =>
      adapter.InitializationRejected(i);
  }

  /** Every run of an adapter object is a run of the model, down to what it hands to shutdownState. */
  method RunAdapter(adapter: McpAdapter, events: seq<Event>) returns (handed: multiset<StateId>)
    requires adapter.View() == Run([]).f
    modifies adapter
    ensures adapter.View() == Run(events).f && handed == Run(events).handed
  {
    handed := multiset{};
    var w := Run([]);
    for i := 0 to |events|
      invariant w == Run(events[..i]) && adapter.View() == w.f && handed == w.handed
    {
      assert events[..i + 1][..i] == events[..i];
      var e := events[i];
      var one: Option<StateId> := None;
      if Enabled(w, e) {
        if e.Loaded? || e.Called? || e.Resolved? || e.OrphanResolved? {
          StartupOn(adapter, w, e);
        } else if e.Continued? || e.Finalized? || e.Cleaned? || e.Failed? {
          one := SettlingOn(adapter, w, e);
        } else {
          one := SessionOn(adapter, w, e);
        }
      }
      handed := Handed(w, one);
      w := Step(w, e);
    }
    assert events[..|events|] == events;
  }
}
