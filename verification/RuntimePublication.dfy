/**
  Runtime publication (adapter/index.ts): which initialisation may publish its state,
  and who shuts a state down.  Handlers and promise reactions are cut at their awaits;
  owners, promises and states are numbered in the order they are made.
*/
module RuntimePublication {
  import opened Common

  type OwnerId = nat
  type InitId = nat
  type StateId = nat

  /** How far the promise of one startInitialization call has come. */
  datatype Phase =
    | Loading
    | Calling
    | Initializing
    | Produced(made: StateId)
    | Finalizing(final: StateId)
    | CleaningUp(stale: StateId, finalized: bool)
    | Fulfilled(published: StateId)
    | Rejected(finalized: bool)
    | Reported

  /** What becomes of initializeMcp's own promise when the caller stopped waiting for it. */
  datatype Orphan = NoOrphan | OrphanRunning | OrphanMade(orphan: StateId)

  datatype Init = Init(owner: OwnerId, generation: nat, phase: Phase, orphan: Orphan)

  /** The closure variables, the owners' abort flags and the promises in flight. */
  datatype Fields = Fields(
    generation: nat,
    state: Option<StateId>,
    owner: Option<OwnerId>,
    initPromise: Option<InitId>,
    stopped: set<OwnerId>,
    owners: nat,
    states: nat,
    inits: seq<Init>)

  predicate Active(f: Fields, o: OwnerId) {
    o !in f.stopped
  }

  function SetPhase(f: Fields, i: InitId, phase: Phase): Fields
    requires i < |f.inits|
  {
    f.(inits := f.inits[i := f.inits[i].(phase := phase)])
  }

  // ----- Starting an initialisation -----

  function StartInitialization(f: Fields, o: OwnerId): Fields {
    f.(inits := f.inits + [Init(o, f.generation, Loading, NoOrphan)], initPromise := Some(|f.inits|))
  }

  /** startGatewayRetryInitialization, under its caller's test. */
  function GatewayRetry(f: Fields): Fields {
    if f.state.Some? || f.initPromise.Some? then f
    else StartInitialization(
      f.(generation := f.generation + 1, owner := Some(f.owners), owners := f.owners + 1, state := None), f.owners)
  }

  function EnsureSessionRuntime(f: Fields): Fields {
    if f.state.Some? || f.initPromise.Some? then f
    else
      var reuse := f.owner.Some? && Active(f, f.owner.value);
      var o := if reuse then f.owner.value else f.owners;
      var f1 := f.(
        owner := Some(o),
        owners := if reuse then f.owners else f.owners + 1,
        generation := if f.generation > 0 then f.generation else f.generation + 1);
      StartInitialization(f1, o)
  }

  function LoadTime(f: Fields): Fields {
    if f.generation != 0 || f.state.Some? || f.initPromise.Some? then f
    else StartInitialization(
      f.(generation := f.generation + 1, owner := Some(f.owners), owners := f.owners + 1), f.owners)
  }

  // ----- Session handlers: their synchronous part also answers which state it hands to shutdownState -----

  function StopCurrent(f: Fields): set<OwnerId> {
    if f.owner.Some? then f.stopped + {f.owner.value} else f.stopped
  }

  function SessionStart(f: Fields): (Fields, Option<StateId>) {
    (f.(generation := f.generation + 1, state := None, initPromise := None, stopped := StopCurrent(f),
       owner := Some(f.owners), owners := f.owners + 1),
     f.state)
  }

  /** The rest of session_start, after the previous runtime's cleanup. */
  function SessionContinues(f: Fields, generation: nat, o: OwnerId, deferRuntime: bool): Fields {
    if generation != f.generation || !Active(f, o) then f
    else if f.state.Some? || f.initPromise.Some? || deferRuntime then f
    else StartInitialization(f, o)
  }

  function SessionShutdown(f: Fields): (Fields, Option<StateId>) {
    var f' := f.(
      generation := f.generation + 1, state := None, initPromise := None, stopped := StopCurrent(f), owner := None);
    (f', f.state)
  }

  // ----- An initialisation's own pieces -----

  /** The runtime guard captured when the initialisation began, with no state published. */
  predicate StartGuard(f: Fields, i: InitId)
    requires i < |f.inits|
  {
    var init := f.inits[i];
    Active(f, init.owner) && f.generation == init.generation && f.owner == Some(init.owner) && f.state.None?
  }

  function ModulesLoaded(f: Fields, i: InitId, loaded: bool): Fields
    requires i < |f.inits|
  {
    SetPhase(f, i, if loaded && StartGuard(f, i) then Calling else Rejected(false))
  }

  /** initializeMcp has returned its promise; the guard is asserted once more. */
  function CallReturned(f: Fields, i: InitId): Fields
    requires i < |f.inits|
  {
    if StartGuard(f, i) then SetPhase(f, i, Initializing)
    else f.(inits := f.inits[i := f.inits[i].(phase := Rejected(false), orphan := OrphanRunning)])
  }

  function Resolve(f: Fields, i: InitId, ok: bool): Fields
    requires i < |f.inits|
  {
    if ok then SetPhase(f, i, Produced(f.states)).(states := f.states + 1) else SetPhase(f, i, Rejected(false))
  }

  function OrphanResolves(f: Fields, i: InitId): Fields
    requires i < |f.inits|
  {
    f.(inits := f.inits[i := f.inits[i].(orphan := OrphanMade(f.states))], states := f.states + 1)
  }

  /** The reaction to initializeMcp's result: publish, or hand a stale state to shutdownState. */
  function Continue(f: Fields, i: InitId): (Fields, Option<StateId>)
    requires i < |f.inits| && f.inits[i].phase.Produced?
  {
    var init := f.inits[i];
    var s := init.phase.made;
    if !Active(f, init.owner) || init.generation != f.generation || f.initPromise != Some(i) then
      (SetPhase(f, i, CleaningUp(s, false)), Some(s))
    else (SetPhase(f, i, Finalizing(s)).(state := Some(s)), None)
  }

  predicate FinalGuard(f: Fields, i: InitId)
    requires i < |f.inits| && f.inits[i].phase.Finalizing?
  {
    var init := f.inits[i];
    && Active(f, init.owner) && init.generation == f.generation && f.owner == Some(init.owner)
    && f.state == Some(init.phase.final) && f.initPromise == Some(i)
  }

  /** The end of finalization: success, or the catch block. */
  function FinalizeEnds(f: Fields, i: InitId, threw: bool): (Fields, Option<StateId>)
    requires i < |f.inits| && f.inits[i].phase.Finalizing?
  {
    var init := f.inits[i];
    var s := init.phase.final;
    if !threw && FinalGuard(f, i) then (SetPhase(f, i, Fulfilled(s)).(initPromise := None), None)
    else
      var f1 := f.(state := if f.state == Some(s) then None else f.state);
      var unreplaced := init.generation == f.generation && f.owner == Some(init.owner);
      if unreplaced then (SetPhase(f1, i, CleaningUp(s, true)), Some(s))
      else (SetPhase(f1, i, Rejected(true)), None)
  }

  /** shutdownState, awaited by the stale or failed initialisation, has stopped the state's owner. */
  function CleanedUp(f: Fields, i: InitId): Fields
    requires i < |f.inits| && f.inits[i].phase.CleaningUp?
  {
    SetPhase(f, i, Rejected(f.inits[i].phase.finalized)).(stopped := f.stopped + {f.inits[i].owner})
  }

  /** The rejection handler of startInitialization. */
  function ReportFailure(f: Fields, i: InitId): Fields
    requires i < |f.inits|
  {
    var init, f1 := f.inits[i], SetPhase(f, i, Reported);
    if !Active(f, init.owner) || init.generation != f.generation || f.initPromise != Some(i) then f1
    else if f.state.Some? then f1.(initPromise := None)
    else f1.(initPromise := None, stopped := f.stopped + {init.owner})
  }

  // ----- The adapter as the program updates it -----

  class McpAdapter {
    var lifecycleGeneration: nat
    var state: Option<StateId>
    var currentOwner: Option<OwnerId>
    var initPromise: Option<InitId>
    var stoppedOwners: set<OwnerId>
    var owners: nat
    var states: nat
    var inits: seq<Init>

    ghost function View(): Fields
      reads this
    {
      Fields(lifecycleGeneration, state, currentOwner, initPromise, stoppedOwners, owners, states, inits)
    }

    constructor ()
      ensures View() == Fields(0, None, None, None, {}, 0, 0, [])
    {
      lifecycleGeneration, state, currentOwner, initPromise := 0, None, None, None;
      stoppedOwners, owners, states, inits := {}, 0, 0, [];
    }

    method CreateOwner() returns (o: OwnerId)
      modifies `owners
      ensures o == old(owners) && owners == old(owners) + 1
    {
      o, owners := owners, owners + 1;
    }

    method Begin(o: OwnerId)
      modifies `inits, `initPromise
      ensures View() == StartInitialization(old(View()), o)
    {
      initPromise := Some(|inits|);
      inits := inits + [Init(o, lifecycleGeneration, Loading, NoOrphan)];
    }

    method StartGatewayRetryInitialization()
      modifies this
      ensures View() == GatewayRetry(old(View()))
    {
      if state.Some? || initPromise.Some? {
        return;
      }
      lifecycleGeneration := lifecycleGeneration + 1;
      var owner := CreateOwner();
      currentOwner, state := Some(owner), None;
      Begin(owner);
    }

    method StartLoadTimeInitialization()
      modifies this
      ensures View() == LoadTime(old(View()))
    {
      if lifecycleGeneration != 0 || state.Some? || initPromise.Some? {
        return;
      }
      lifecycleGeneration := lifecycleGeneration + 1;
      var owner := CreateOwner();
      currentOwner := Some(owner);
      Begin(owner);
    }

    method EnsureRuntime()
      modifies this
      ensures View() == EnsureSessionRuntime(old(View()))
    {
      if state.Some? || initPromise.Some? {
        return;
      }
      var owner: OwnerId;
      if currentOwner.Some? && currentOwner.value !in stoppedOwners {
        owner := currentOwner.value;
      } else {
        owner := CreateOwner();
        currentOwner := Some(owner);
      }
      if lifecycleGeneration == 0 {
        lifecycleGeneration := lifecycleGeneration + 1;
      }
      Begin(owner);
    }

    method OnSessionStart() returns (previousState: Option<StateId>)
      modifies this
      ensures (View(), previousState) == SessionStart(old(View()))
    {
      lifecycleGeneration := lifecycleGeneration + 1;
      previousState := state;
      var previousOwner := currentOwner;
      var owner := CreateOwner();
      currentOwner, state, initPromise := Some(owner), None, None;
      if previousOwner.Some? {
        stoppedOwners := stoppedOwners + {previousOwner.value};
      }
    }

    method SessionStartContinues(generation: nat, owner: OwnerId, deferRuntime: bool)
      modifies this
      ensures View() == SessionContinues(old(View()), generation, owner, deferRuntime)
    {
      if generation != lifecycleGeneration || owner in stoppedOwners {
        return;
      }
      if state.Some? {
        return;
      }
      if initPromise.None? && !deferRuntime {
        Begin(owner);
      }
    }

    method OnSessionShutdown() returns (currentState: Option<StateId>)
      modifies this
      ensures (View(), currentState) == SessionShutdown(old(View()))
    {
      lifecycleGeneration := lifecycleGeneration + 1;
      currentState := state;
      if currentOwner.Some? {
        stoppedOwners := stoppedOwners + {currentOwner.value};
      }
      currentOwner, state, initPromise := None, None, None;
    }

    method SetPhaseOf(i: InitId, phase: Phase)
      requires i < |inits|
      modifies `inits
      ensures View() == SetPhase(old(View()), i, phase)
    {
      inits := inits[i := inits[i].(phase := phase)];
    }

    /** assertRuntimeGuard on the guard captured at the start of an initialisation. */
    method GuardHolds(i: InitId) returns (holds: bool)
      requires i < |inits|
      ensures holds == StartGuard(View(), i)
    {
      var init := inits[i];
      holds := init.owner !in stoppedOwners && lifecycleGeneration == init.generation
        && currentOwner == Some(init.owner) && state.None?;
    }

    method RuntimeModulesLoaded(i: InitId, loaded: bool)
      requires i < |inits|
      modifies `inits
      ensures View() == ModulesLoaded(old(View()), i, loaded)
    {
      var holds := GuardHolds(i);
      SetPhaseOf(i, if loaded && holds then Calling else Rejected(false));
    }

    method InitializeMcpReturned(i: InitId)
      requires i < |inits|
      modifies `inits
      ensures View() == CallReturned(old(View()), i)
    {
      var holds := GuardHolds(i);
      if holds {
        SetPhaseOf(i, Initializing);
      } else {
        inits := inits[i := inits[i].(phase := Rejected(false), orphan := OrphanRunning)];
      }
    }

    method InitializeMcpSettled(i: InitId, ok: bool)
      requires i < |inits|
      modifies `inits, `states
      ensures View() == Resolve(old(View()), i, ok)
    {
      SetPhaseOf(i, if ok then Produced(states) else Rejected(false));
      if ok {
        states := states + 1;
      }
    }

    method DroppedCallSettled(i: InitId)
      requires i < |inits|
      modifies `inits, `states
      ensures View() == OrphanResolves(old(View()), i)
    {
      inits := inits[i := inits[i].(orphan := OrphanMade(states))];
      states := states + 1;
    }

    /** shutdownState has stopped the owner of the state that initialisation i handed over. */
    method StateShutDown(i: InitId)
      requires i < |inits| && inits[i].phase.CleaningUp?
      modifies `inits, `stoppedOwners
      ensures View() == CleanedUp(old(View()), i)
    {
      stoppedOwners := stoppedOwners + {inits[i].owner};
      SetPhaseOf(i, Rejected(inits[i].phase.finalized));
    }

    /** The reaction up to the start of finalization; a stale state goes to shutdownState. */
    method InitializationProduced(i: InitId) returns (handed: Option<StateId>)
      requires i < |inits| && inits[i].phase.Produced?
      modifies this
      ensures (View(), handed) == Continue(old(View()), i)
    {
      var init := inits[i];
      var nextState := init.phase.made;
      if init.owner in stoppedOwners || init.generation != lifecycleGeneration || initPromise != Some(i) {
        inits := inits[i := init.(phase := CleaningUp(nextState, false))];
        return Some(nextState);
      }
      inits := inits[i := init.(phase := Finalizing(nextState))];
      state := Some(nextState);
      return None;
    }

    method FinalizationEnded(i: InitId, threw: bool) returns (handed: Option<StateId>)
      requires i < |inits| && inits[i].phase.Finalizing?
      modifies this
      ensures (View(), handed) == FinalizeEnds(old(View()), i, threw)
    {
      var init := inits[i];
      var nextState := init.phase.final;
      if !threw && init.owner !in stoppedOwners && init.generation == lifecycleGeneration
        && currentOwner == Some(init.owner) && state == Some(nextState) && initPromise == Some(i)
      {
        initPromise := None;
        inits := inits[i := init.(phase := Fulfilled(nextState))];
        return None;
      }
      if state == Some(nextState) {
        state := None;
      }
      if init.generation == lifecycleGeneration && currentOwner == Some(init.owner) {
        inits := inits[i := init.(phase := CleaningUp(nextState, true))];
        return Some(nextState);
      }
      inits := inits[i := init.(phase := Rejected(true))];
      return None;
    }

    method InitializationRejected(i: InitId)
      requires i < |inits|
      modifies this
      ensures View() == ReportFailure(old(View()), i)
    {
      var init := inits[i];
      inits := inits[i := init.(phase := Reported)];
      if init.owner in stoppedOwners || init.generation != lifecycleGeneration {
        return;
      }
      if initPromise != Some(i) {
        return;
      }
      initPromise := None;
      if state.Some? {
        return;
      }
      stoppedOwners := stoppedOwners + {init.owner};
    }
  }
}
