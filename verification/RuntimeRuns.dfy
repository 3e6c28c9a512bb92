/**
  Every interleaving of session_start, session_shutdown, first operations, gateway
  retries and the pieces of any number of initialisations.
*/
module RuntimeRuns {
  import opened Common
  import opened RuntimePublication

  /** waiting: session_start handlers that still wait for the previous runtime's cleanup. */
  datatype World = World(f: Fields, waiting: set<(nat, OwnerId)>, handed: multiset<StateId>)

  datatype Event =
    | Start
    | StartContinues(generation: nat, owner: OwnerId, deferRuntime: bool)
    | Shutdown
    | FirstOperation
    | Retry
    | LoadTimeStart
    | Loaded(init: InitId, loaded: bool)
    | Called(init: InitId)
    | Resolved(init: InitId, ok: bool)
    | OrphanResolved(init: InitId)
    | Continued(init: InitId)
    | Finalized(init: InitId, threw: bool)
    | Cleaned(init: InitId)
    | Failed(init: InitId)

  predicate Enabled(w: World, e: Event) {
    match e
    case StartContinues(g, o, _) => (g, o) in w.waiting
    case Loaded(i, _) => i < |w.f.inits| && w.f.inits[i].phase.Loading?
    case Called(i) => i < |w.f.inits| && w.f.inits[i].phase.Calling?
    case Resolved(i, _) => i < |w.f.inits| && w.f.inits[i].phase.Initializing?
    case OrphanResolved(i) => i < |w.f.inits| && w.f.inits[i].orphan.OrphanRunning?
    case Continued(i) => i < |w.f.inits| && w.f.inits[i].phase.Produced?
    case Finalized(i, _) => i < |w.f.inits| && w.f.inits[i].phase.Finalizing?
    case Cleaned(i) => i < |w.f.inits| && w.f.inits[i].phase.CleaningUp?
    case Failed(i) => i < |w.f.inits| && w.f.inits[i].phase.Rejected?
    case Start => true
    case Shutdown => true
    case FirstOperation => true
    case Retry => true
    case LoadTimeStart => true
  }

  /** The world after a piece that leaves fields f and hands a state to shutdownState. */
  function Handing(w: World, result: (Fields, Option<StateId>)): World {
    w.(f := result.0, handed := if result.1.Some? then w.handed + multiset{result.1.value} else w.handed)
  }

  function Step(w: World, e: Event): World {
    if !Enabled(w, e) then w
    else
      match e
      case Start =>
        var w' := Handing(w, SessionStart(w.f));
        w'.(waiting := w.waiting + {(w'.f.generation, w.f.owners)})
      case StartContinues(g, o, d) => w.(f := SessionContinues(w.f, g, o, d), waiting := w.waiting - {(g, o)})
      case Shutdown => Handing(w, SessionShutdown(w.f))
      case FirstOperation => w.(f := EnsureSessionRuntime(w.f))
      case Retry => w.(f := GatewayRetry(w.f))
      case LoadTimeStart => w.(f := LoadTime(w.f))
      case Loaded(i, loaded) => w.(f := ModulesLoaded(w.f, i, loaded))
      case Called(i) => w.(f := CallReturned(w.f, i))
      case Resolved(i, ok) => w.(f := Resolve(w.f, i, ok))
      case OrphanResolved(i) => w.(f := OrphanResolves(w.f, i))
      case Continued(i) => Handing(w, Continue(w.f, i))
      case Finalized(i, threw) => Handing(w, FinalizeEnds(w.f, i, threw))
      case Cleaned(i) => w.(f := CleanedUp(w.f, i))
      case Failed(i) => w.(f := ReportFailure(w.f, i))
  }

  function Run(events: seq<Event>): World {
    if events == [] then World(Fields(0, None, None, None, {}, 0, 0, []), {}, multiset{})
    else Step(Run(events[..|events| - 1]), events[|events| - 1])
  }

  // ----- The invariant -----

  /** The state an initialisation's promise carries. */
  function StateOf(init: Init): Option<StateId> {
    match init.phase
    case Produced(s) => Some(s)
    case Finalizing(s) => Some(s)
    case CleaningUp(s, _) => Some(s)
    case Fulfilled(s) => Some(s)
    case _ => None
  }

  predicate Carries(init: Init, s: StateId) {
    StateOf(init) == Some(s) || init.orphan == OrphanMade(s)
  }

  /** Every initialisation has an owner of its own, a past or present generation, and its own states. */
  ghost predicate InitsOk(f: Fields) {
    && (f.generation == 0 ==> f.owner.None? && f.inits == [])
    && (forall i | 0 <= i < |f.inits| :: f.inits[i].owner < f.owners && f.inits[i].generation <= f.generation)
    && (forall i, j | 0 <= i < j < |f.inits| :: f.inits[i].owner != f.inits[j].owner)
    && (forall o | o in f.stopped :: o < f.owners)
    && (f.owner.Some? ==> f.owner.value < f.owners)
    && (forall i | 0 <= i < |f.inits| && !f.inits[i].orphan.NoOrphan? ::
          f.inits[i].phase.Rejected? || f.inits[i].phase.Reported?)
    && (forall i, s: StateId | 0 <= i < |f.inits| && Carries(f.inits[i], s) :: s < f.states)
    && (forall i, j, s: StateId |
          0 <= i < |f.inits| && 0 <= j < |f.inits| && Carries(f.inits[i], s) && Carries(f.inits[j], s) :: i == j)
  }

  /** The runtime an initialisation was started for is still the current one. */
  predicate IsCurrent(f: Fields, init: Init) {
    f.owner == Some(init.owner) && Active(f, init.owner) && f.generation == init.generation
  }

  /** initPromise against the owner and the generation. */
  ghost predicate CurrentOk(f: Fields) {
    && (f.initPromise.Some? ==> f.initPromise.value < |f.inits| && PromiseOk(f, f.inits[f.initPromise.value]))
    && (forall i | 0 <= i < |f.inits| && f.owner == Some(f.inits[i].owner) && Active(f, f.inits[i].owner) ::
          OwnedOk(f, i))
  }

  /** The init behind initPromise: its owner is stopped only once a failed finalization has been cleaned up. */
  predicate PromiseOk(f: Fields, init: Init) {
    && f.owner == Some(init.owner) && f.generation == init.generation
    && !init.phase.Fulfilled?
    && (init.phase.CleaningUp? ==> init.phase.finalized)
    && (init.phase.Rejected? ==> (init.phase.finalized <==> !Active(f, init.owner)))
    && (init.phase.Reported? ==> !Active(f, init.owner))
    && (!init.phase.CleaningUp? && !init.phase.Rejected? && !init.phase.Reported? ==> Active(f, init.owner))
  }

  predicate OwnedOk(f: Fields, i: InitId)
    requires i < |f.inits|
  {
    f.inits[i].generation == f.generation
    && (f.initPromise == Some(i) || (f.inits[i].phase.Fulfilled? && f.state == Some(f.inits[i].phase.published)))
  }

  predicate PublishedBy(f: Fields, i: InitId) {
    && i < |f.inits| && IsCurrent(f, f.inits[i]) && f.state.Some? && StateOf(f.inits[i]) == f.state
    && (if f.inits[i].phase.Finalizing? then f.initPromise == Some(i)
          else f.inits[i].phase.Fulfilled? && f.initPromise.None?)
  }

  ghost predicate PublishedOk(f: Fields) {
    && (f.state.Some? ==> exists i: InitId :: PublishedBy(f, i))
    && (forall i | 0 <= i < |f.inits| && f.inits[i].phase.Finalizing? && f.inits[i].generation == f.generation ::
          PublishedBy(f, i))
  }

  ghost predicate FieldsOk(f: Fields) {
    InitsOk(f) && CurrentOk(f) && PublishedOk(f)
  }

  /** A waiting session_start of the current generation still holds the current owner, unless it was stopped. */
  predicate WaitingOk(f: Fields, g: nat, o: OwnerId) {
    0 < g <= f.generation && o < f.owners && (g == f.generation && Active(f, o) ==> f.owner == Some(o))
  }

  /** Published, not yet looked at, or orphaned: nobody may have shut this state down. */
  ghost predicate Held(f: Fields, s: StateId) {
    f.state == Some(s) || Pending(f, s) || Orphaned(f, s)
  }

  ghost predicate Pending(f: Fields, s: StateId) {
    exists i :: 0 <= i < |f.inits| && f.inits[i].phase == Produced(s)
  }

  ghost predicate Orphaned(f: Fields, s: StateId) {
    exists i :: 0 <= i < |f.inits| && f.inits[i].orphan == OrphanMade(s)
  }

  ghost predicate AccountsOk(w: World) {
    forall s: StateId :: w.handed[s] == if s < w.f.states && !Held(w.f, s) then 1 else 0
  }

  ghost predicate Inv(w: World) {
    && FieldsOk(w.f)
    && (forall g, o | (g, o) in w.waiting :: WaitingOk(w.f, g, o))
    && AccountsOk(w)
  }

  // ----- Field level: each piece keeps FieldsOk -----

  /** No initialisation has this current and active owner yet: it would be the promise's or the published one. */
  lemma OwnerIsFree(f: Fields, o: OwnerId)
    requires CurrentOk(f) && f.state.None? && f.initPromise.None? && f.owner == Some(o) && Active(f, o)
    ensures forall i | 0 <= i < |f.inits| :: f.inits[i].owner != o
  {
    forall i | 0 <= i < |f.inits| ensures f.inits[i].owner != o {
      assert f.inits[i].owner == o ==> OwnedOk(f, i);
    }
  }

  lemma BeginKeepsInits(f: Fields, o: OwnerId)
    requires InitsOk(f) && f.generation > 0 && f.owner == Some(o)
    requires forall i | 0 <= i < |f.inits| :: f.inits[i].owner != o
    ensures InitsOk(StartInitialization(f, o))
  {
    var f' := StartInitialization(f, o);
    assert forall i | 0 <= i < |f.inits| :: f'.inits[i] == f.inits[i];
    assert forall s: StateId :: !Carries(f'.inits[|f.inits|], s);
  }

  lemma BeginKeeps(f: Fields, o: OwnerId)
    requires FieldsOk(f) && f.state.None? && f.initPromise.None? && f.generation > 0
    requires f.owner == Some(o) && Active(f, o)
    ensures FieldsOk(StartInitialization(f, o))
  {
    OwnerIsFree(f, o);
    BeginKeepsInits(f, o);
    var f' := StartInitialization(f, o);
    assert forall i | 0 <= i < |f.inits| :: f'.inits[i] == f.inits[i];
    assert CurrentOk(f') by {
      assert forall i | 0 <= i < |f'.inits| && f'.owner == Some(f'.inits[i].owner) :: i == |f.inits|;
    }
  }

  /** A new owner becomes current with nothing published and no promise. */
  lemma ReplaceKeeps(f: Fields, f': Fields)
    requires FieldsOk(f) && f'.inits == f.inits && f'.states == f.states
    requires f'.state.None? && f'.initPromise.None? && f'.generation == f.generation + 1
    requires f'.stopped == f.stopped || (f.owner.Some? && f'.stopped == f.stopped + {f.owner.value})
    requires (f'.owner.None? && f'.owners == f.owners) || (f'.owner == Some(f.owners) && f'.owners == f.owners + 1)
    ensures FieldsOk(f') && (f'.owner.Some? ==> Active(f', f'.owner.value))
  {
  }

  lemma EnsureKeeps(f: Fields)
    requires FieldsOk(f)
    ensures FieldsOk(EnsureSessionRuntime(f))
  {
    if f.state.None? && f.initPromise.None? {
      var reuse := f.owner.Some? && Active(f, f.owner.value);
      var o := if reuse then f.owner.value else f.owners;
      var f1 := f.(
        owner := Some(o),
        owners := if reuse then f.owners else f.owners + 1,
        generation := if f.generation > 0 then f.generation else f.generation + 1);
      assert FieldsOk(f1);
      BeginKeeps(f1, o);
    }
  }

  /** The fields with a new owner of a new generation. */
  function NewOwner(f: Fields): Fields {
    f.(generation := f.generation + 1, owner := Some(f.owners), owners := f.owners + 1)
  }

  /** The fields when such an owner starts an initialisation at once. */
  function FreshStart(f: Fields): Fields {
    StartInitialization(NewOwner(f), f.owners)
  }

  lemma NewOwnerKeeps(f: Fields)
    requires FieldsOk(f) && f.state.None? && f.initPromise.None?
    ensures FieldsOk(NewOwner(f)) && Active(NewOwner(f), f.owners)
  {
    ReplaceKeeps(f, NewOwner(f));
  }

  lemma FreshStartKeeps(f: Fields)
    requires FieldsOk(f) && f.state.None? && f.initPromise.None?
    ensures FieldsOk(FreshStart(f))
  {
    NewOwnerKeeps(f);
    BeginKeeps(NewOwner(f), f.owners);
  }

  /** A gateway retry and the load-time start are such starts, or change nothing. */
  lemma StartsFresh(f: Fields)
    ensures GatewayRetry(f) == f || (f.state.None? && f.initPromise.None? && GatewayRetry(f) == FreshStart(f))
    ensures LoadTime(f) == f || (f.state.None? && f.initPromise.None? && LoadTime(f) == FreshStart(f))
  {
  }

  lemma RetryKeeps(f: Fields)
    requires FieldsOk(f)
    ensures FieldsOk(GatewayRetry(f)) && FieldsOk(LoadTime(f))
  {
    StartsFresh(f);
    if f.state.None? && f.initPromise.None? {
      FreshStartKeeps(f);
    }
  }

  lemma SessionKeeps(f: Fields)
    requires FieldsOk(f)
    ensures FieldsOk(SessionStart(f).0) && FieldsOk(SessionShutdown(f).0)
  {
    ReplaceKeeps(f, SessionStart(f).0);
    ReplaceKeeps(f, SessionShutdown(f).0);
  }

  // ----- An initialisation's own pieces -----

  /** f' is f with initialisation i changed to init', which carries only i's old states or a new one. */
  ghost predicate Moves(f: Fields, f': Fields, i: InitId, init': Init) {
    && i < |f.inits| && f'.inits == f.inits[i := init']
    && init'.owner == f.inits[i].owner && init'.generation == f.inits[i].generation
    && f'.generation == f.generation && f'.owner == f.owner && f'.owners == f.owners && f'.states >= f.states
    && (f'.stopped == f.stopped || f'.stopped == f.stopped + {init'.owner})
    && (!init'.orphan.NoOrphan? ==> init'.phase.Rejected? || init'.phase.Reported?)
    && (forall s: StateId | Carries(init', s) :: Carries(f.inits[i], s) || f.states <= s < f'.states)
  }

  lemma MovesKeepsInits(f: Fields, f': Fields, i: InitId, init': Init)
    requires InitsOk(f) && Moves(f, f', i, init')
    ensures InitsOk(f')
  {
  }

  /** A step of an unpublished initialisation that stays unpublished and stops no owner. */
  lemma QuietMoveKeeps(f: Fields, f': Fields, i: InitId, init': Init)
    requires FieldsOk(f) && Moves(f, f', i, init')
    requires f'.stopped == f.stopped && f'.state == f.state && f'.initPromise == f.initPromise
    requires !f.inits[i].phase.Finalizing? && !f.inits[i].phase.Fulfilled?
    requires !init'.phase.Finalizing? && !init'.phase.Fulfilled?
    requires f.initPromise == Some(i) ==> PromiseOk(f', init')
    ensures FieldsOk(f')
  {
    MovesKeepsInits(f, f', i, init');
    forall j | 0 <= j < |f'.inits| && f'.owner == Some(f'.inits[j].owner) && Active(f', f'.inits[j].owner)
      ensures OwnedOk(f', j)
    {
      assert OwnedOk(f, j);
    }
    if f.state.Some? {
      var j: InitId :| PublishedBy(f, j);
      assert PublishedBy(f', j);
    }
    forall j | 0 <= j < |f'.inits| && f'.inits[j].phase.Finalizing? && f'.inits[j].generation == f'.generation
      ensures PublishedBy(f', j)
    {
      assert PublishedBy(f, j);
    }
  }

  /** Nothing is published while the current initialisation has not finalized. */
  lemma NothingPublishedYet(f: Fields, i: InitId)
    requires FieldsOk(f) && f.initPromise == Some(i) && !f.inits[i].phase.Finalizing?
    ensures f.state.None?
  {
    assert f.state.Some? ==> exists j: InitId :: PublishedBy(f, j);
  }

  /** Until it settles, an initialisation's start guard holds exactly while it is the current promise. */
  lemma GuardMeansCurrent(f: Fields, i: InitId)
    requires FieldsOk(f) && i < |f.inits|
    requires f.inits[i].phase.Loading? || f.inits[i].phase.Calling? || f.inits[i].phase.Initializing?
    ensures StartGuard(f, i) <==> f.initPromise == Some(i)
  {
    if f.initPromise == Some(i) {
      NothingPublishedYet(f, i);
    }
    if StartGuard(f, i) {
      assert OwnedOk(f, i);
    }
  }

  lemma LoadedKeeps(f: Fields, i: InitId, loaded: bool)
    requires FieldsOk(f) && i < |f.inits| && f.inits[i].phase.Loading?
    ensures FieldsOk(ModulesLoaded(f, i, loaded))
  {
    GuardMeansCurrent(f, i);
    var f' := ModulesLoaded(f, i, loaded);
    QuietMoveKeeps(f, f', i, f'.inits[i]);
  }

  lemma CalledKeeps(f: Fields, i: InitId)
    requires FieldsOk(f) && i < |f.inits| && f.inits[i].phase.Calling?
    ensures FieldsOk(CallReturned(f, i))
  {
    GuardMeansCurrent(f, i);
    var f' := CallReturned(f, i);
    QuietMoveKeeps(f, f', i, f'.inits[i]);
  }

  lemma ResolvedKeeps(f: Fields, i: InitId, ok: bool)
    requires FieldsOk(f) && i < |f.inits| && f.inits[i].phase.Initializing?
    ensures FieldsOk(Resolve(f, i, ok))
  {
    var f' := Resolve(f, i, ok);
    QuietMoveKeeps(f, f', i, f'.inits[i]);
  }

  lemma OrphanKeeps(f: Fields, i: InitId)
    requires FieldsOk(f) && i < |f.inits| && f.inits[i].orphan.OrphanRunning?
    ensures FieldsOk(OrphanResolves(f, i))
  {
    var f' := OrphanResolves(f, i);
    QuietMoveKeeps(f, f', i, f'.inits[i]);
  }

  /** A produced state is published exactly by the current promise's initialisation. */
  lemma ContinueKeeps(f: Fields, i: InitId)
    requires FieldsOk(f) && i < |f.inits| && f.inits[i].phase.Produced?
    ensures FieldsOk(Continue(f, i).0)
    ensures Continue(f, i).1 == if f.initPromise == Some(i) then None else Some(f.inits[i].phase.made)
    ensures f.initPromise == Some(i) ==> f.state.None?
  {
    var f' := Continue(f, i).0;
    if f.initPromise == Some(i) {
      NothingPublishedYet(f, i);
      MovesKeepsInits(f, f', i, f'.inits[i]);
      assert PublishedBy(f', i);
      forall j | 0 <= j < |f'.inits| && f'.owner == Some(f'.inits[j].owner) && Active(f', f'.inits[j].owner)
        ensures OwnedOk(f', j)
      {
        assert OwnedOk(f, j);
      }
      forall j | 0 <= j < |f'.inits| && f'.inits[j].phase.Finalizing? && f'.inits[j].generation == f'.generation
        ensures PublishedBy(f', j)
      {
      }
    } else {
      QuietMoveKeeps(f, f', i, f'.inits[i]);
    }
  }

  /** A state in finalization is the published one exactly while its generation is current. */
  lemma FinalizingIsPublished(f: Fields, i: InitId)
    requires FieldsOk(f) && i < |f.inits| && f.inits[i].phase.Finalizing?
    ensures f.inits[i].generation == f.generation <==> f.state == Some(f.inits[i].phase.final)
    ensures f.inits[i].generation == f.generation ==> PublishedBy(f, i)
  {
    if f.inits[i].generation == f.generation {
      assert PublishedBy(f, i);
    } else if f.state.Some? {
      var j: InitId :| PublishedBy(f, j);
      assert Carries(f.inits[j], f.state.value) && Carries(f.inits[i], f.inits[i].phase.final);
      assert j != i;
    }
  }

  lemma FinalizeKeepsOwned(f: Fields, i: InitId, threw: bool)
    requires FieldsOk(f) && i < |f.inits| && f.inits[i].phase.Finalizing?
    ensures InitsOk(FinalizeEnds(f, i, threw).0) && CurrentOk(FinalizeEnds(f, i, threw).0)
  {
    var f' := FinalizeEnds(f, i, threw).0;
    FinalizingIsPublished(f, i);
    MovesKeepsInits(f, f', i, f'.inits[i]);
    forall j | 0 <= j < |f'.inits| && f'.owner == Some(f'.inits[j].owner) && Active(f', f'.inits[j].owner)
      ensures OwnedOk(f', j)
    {
      assert OwnedOk(f, j);
    }
  }

  lemma FinalizeKeepsPublished(f: Fields, i: InitId, threw: bool)
    requires FieldsOk(f) && i < |f.inits| && f.inits[i].phase.Finalizing?
    ensures PublishedOk(FinalizeEnds(f, i, threw).0)
  {
    var f' := FinalizeEnds(f, i, threw).0;
    FinalizingIsPublished(f, i);
    if f.inits[i].generation == f.generation {
      assert !threw ==> PublishedBy(f', i);
    } else if f.state.Some? {
      var j: InitId :| PublishedBy(f, j);
      assert PublishedBy(f', j);
    }
    forall j | 0 <= j < |f'.inits| && f'.inits[j].phase.Finalizing? && f'.inits[j].generation == f'.generation
      ensures PublishedBy(f', j)
    {
      assert PublishedBy(f, j);
    }
  }

  lemma FinalizeKeeps(f: Fields, i: InitId, threw: bool)
    requires FieldsOk(f) && i < |f.inits| && f.inits[i].phase.Finalizing?
    ensures FieldsOk(FinalizeEnds(f, i, threw).0)
    ensures FinalizeEnds(f, i, threw).1 ==
      if threw && f.inits[i].generation == f.generation then Some(f.inits[i].phase.final) else None
    ensures f.inits[i].generation == f.generation <==> f.state == Some(f.inits[i].phase.final)
  {
    FinalizingIsPublished(f, i);
    FinalizeKeepsOwned(f, i, threw);
    FinalizeKeepsPublished(f, i, threw);
  }

  lemma CleanedKeeps(f: Fields, i: InitId)
    requires FieldsOk(f) && i < |f.inits| && f.inits[i].phase.CleaningUp?
    ensures FieldsOk(CleanedUp(f, i))
  {
    var f' := CleanedUp(f, i);
    MovesKeepsInits(f, f', i, f'.inits[i]);
    StoppingKeeps(f, f', i);
  }

  lemma FailedKeeps(f: Fields, i: InitId)
    requires FieldsOk(f) && i < |f.inits| && f.inits[i].phase.Rejected?
    ensures FieldsOk(ReportFailure(f, i))
  {
    var f' := ReportFailure(f, i);
    if f.initPromise == Some(i) {
      NothingPublishedYet(f, i);
    }
    MovesKeepsInits(f, f', i, f'.inits[i]);
    StoppingKeeps(f, f', i);
  }

  /** A failed initialisation settles, and its owner may be stopped: no other initialisation shares it. */
  lemma StoppingKeeps(f: Fields, f': Fields, i: InitId)
    requires FieldsOk(f) && InitsOk(f') && i < |f.inits| == |f'.inits| && Moves(f, f', i, f'.inits[i])
    requires f.inits[i].phase.CleaningUp? || f.inits[i].phase.Rejected?
    requires f'.inits[i].phase.Rejected? || f'.inits[i].phase.Reported?
    requires f'.state == f.state
    requires f'.initPromise == f.initPromise
      || (f.initPromise == Some(i) && f'.initPromise.None? && !Active(f', f.inits[i].owner))
    requires f'.initPromise == Some(i) ==> PromiseOk(f', f'.inits[i])
    ensures FieldsOk(f')
  {
    forall j | 0 <= j < |f'.inits| && f'.owner == Some(f'.inits[j].owner) && Active(f', f'.inits[j].owner)
      ensures OwnedOk(f', j)
    {
      assert OwnedOk(f, j);
    }
    if f.state.Some? {
      var j: InitId :| PublishedBy(f, j);
      assert PublishedBy(f', j);
    }
    forall j | 0 <= j < |f'.inits| && f'.inits[j].phase.Finalizing? && f'.inits[j].generation == f'.generation
      ensures PublishedBy(f', j)
    {
      assert PublishedBy(f, j);
    }
  }

  // ----- Who shuts a state down -----

  lemma MovePending(f: Fields, f': Fields, i: InitId, init': Init, s: StateId)
    requires InitsOk(f) && Moves(f, f', i, init')
    ensures Pending(f', s) <==> init'.phase == Produced(s) || (Pending(f, s) && f.inits[i].phase != Produced(s))
    ensures Orphaned(f', s) <==> init'.orphan == OrphanMade(s) || (Orphaned(f, s) && f.inits[i].orphan != OrphanMade(s))
  {
    MoveProduced(f, f', i, init', s);
    MoveOrphaned(f, f', i, init', s);
  }

  lemma MoveProduced(f: Fields, f': Fields, i: InitId, init': Init, s: StateId)
    requires InitsOk(f) && Moves(f, f', i, init')
    ensures Pending(f', s) <==> init'.phase == Produced(s) || (Pending(f, s) && f.inits[i].phase != Produced(s))
  {
    if init'.phase == Produced(s) {
      assert f'.inits[i].phase == Produced(s);
    }
    if Pending(f, s) && f.inits[i].phase != Produced(s) {
      var j :| 0 <= j < |f.inits| && f.inits[j].phase == Produced(s);
      assert f'.inits[j].phase == Produced(s);
    }
    if f.inits[i].phase == Produced(s) {
      assert Carries(f.inits[i], s);
      assert forall j | 0 <= j < |f.inits| && f.inits[j].phase == Produced(s) :: Carries(f.inits[j], s);
    }
  }

  lemma MoveOrphaned(f: Fields, f': Fields, i: InitId, init': Init, s: StateId)
    requires InitsOk(f) && Moves(f, f', i, init')
    ensures Orphaned(f', s) <==> init'.orphan == OrphanMade(s) || (Orphaned(f, s) && f.inits[i].orphan != OrphanMade(s))
  {
    if init'.orphan == OrphanMade(s) {
      assert f'.inits[i].orphan == OrphanMade(s);
    }
    if Orphaned(f, s) && f.inits[i].orphan != OrphanMade(s) {
      var j :| 0 <= j < |f.inits| && f.inits[j].orphan == OrphanMade(s);
      assert f'.inits[j].orphan == OrphanMade(s);
    }
    if f.inits[i].orphan == OrphanMade(s) {
      assert Carries(f.inits[i], s);
      assert forall j | 0 <= j < |f.inits| && f.inits[j].orphan == OrphanMade(s) :: Carries(f.inits[j], s);
    }
  }

  lemma BeginHeld(f: Fields, f': Fields, s: StateId)
    requires f'.state == f.state
      && (f'.inits == f.inits || (exists o, g :: f'.inits == f.inits + [Init(o, g, Loading, NoOrphan)]))
    ensures Held(f', s) <==> Held(f, s)
  {
    if Pending(f, s) {
      var j :| 0 <= j < |f.inits| && f.inits[j].phase == Produced(s);
      assert f'.inits[j].phase == Produced(s);
    }
    if Orphaned(f, s) {
      var j :| 0 <= j < |f.inits| && f.inits[j].orphan == OrphanMade(s);
      assert f'.inits[j].orphan == OrphanMade(s);
    }
  }

  /** The published state is known to exist and is held in no other way. */
  lemma PublishedIsOwn(f: Fields)
    requires FieldsOk(f) && f.state.Some?
    ensures f.state.value < f.states && !Pending(f, f.state.value) && !Orphaned(f, f.state.value)
  {
    var j: InitId :| PublishedBy(f, j);
    assert Carries(f.inits[j], f.state.value);
    assert forall i | 0 <= i < |f.inits| && f.inits[i].phase == Produced(f.state.value) ::
      Carries(f.inits[i], f.state.value);
    assert forall i | 0 <= i < |f.inits| && f.inits[i].orphan == OrphanMade(f.state.value) ::
      Carries(f.inits[i], f.state.value);
  }

  lemma StartAccounts(w: World, w': World)
    requires AccountsOk(w) && w'.handed == w.handed && w'.f.states == w.f.states
    requires w'.f.state == w.f.state
    requires w'.f.inits == w.f.inits || exists o, g :: w'.f.inits == w.f.inits + [Init(o, g, Loading, NoOrphan)]
    ensures AccountsOk(w')
  {
    forall s: StateId ensures Held(w'.f, s) <==> Held(w.f, s) {
      BeginHeld(w.f, w'.f, s);
    }
  }

  lemma SessionAccounts(w: World, result: (Fields, Option<StateId>))
    requires FieldsOk(w.f) && AccountsOk(w)
    requires result == SessionStart(w.f) || result == SessionShutdown(w.f)
    ensures AccountsOk(Handing(w, result))
  {
    if w.f.state.Some? {
      PublishedIsOwn(w.f);
    }
    forall s: StateId ensures Held(result.0, s) <==> Held(w.f, s) && w.f.state != Some(s) {
      BeginHeld(w.f.(state := None), result.0, s);
    }
  }

  /** The accounts stay right when one held state is handed over, or none, and every new state is held. */
  lemma AccountsTransfer(w: World, w': World, released: Option<StateId>)
    requires AccountsOk(w) && w.f.states <= w'.f.states
    requires w'.handed == if released.Some? then w.handed + multiset{released.value} else w.handed
    requires released.Some? ==> released.value < w.f.states && Held(w.f, released.value) && !Held(w'.f, released.value)
    requires forall s: StateId | s < w.f.states && released != Some(s) :: Held(w'.f, s) <==> Held(w.f, s)
    requires forall s: StateId | w.f.states <= s < w'.f.states :: Held(w'.f, s)
    ensures AccountsOk(w')
  {
  }

  /** A step that neither makes, publishes nor releases a state. */
  lemma QuietAccounts(w: World, f': Fields, i: InitId)
    requires FieldsOk(w.f) && AccountsOk(w) && i < |w.f.inits| == |f'.inits| && Moves(w.f, f', i, f'.inits[i])
    requires f'.state == w.f.state && f'.states == w.f.states
    requires !w.f.inits[i].phase.Produced? && !f'.inits[i].phase.Produced?
    requires !w.f.inits[i].orphan.OrphanMade? ==> !f'.inits[i].orphan.OrphanMade?
    requires w.f.inits[i].orphan.OrphanMade? ==> f'.inits[i].orphan == w.f.inits[i].orphan
    ensures AccountsOk(w.(f := f'))
  {
    forall s: StateId ensures Held(f', s) <==> Held(w.f, s) {
      MovePending(w.f, f', i, f'.inits[i], s);
    }
    AccountsTransfer(w, w.(f := f'), None);
  }

  /** A step that makes a state, as the promise's result or an orphan's. */
  lemma MakingAccounts(w: World, f': Fields, i: InitId)
    requires FieldsOk(w.f) && AccountsOk(w) && i < |w.f.inits| == |f'.inits| && Moves(w.f, f', i, f'.inits[i])
    requires f'.state == w.f.state && f'.states == w.f.states + 1
    requires !w.f.inits[i].phase.Produced? && !w.f.inits[i].orphan.OrphanMade?
    requires f'.inits[i].phase == Produced(w.f.states) || f'.inits[i].orphan == OrphanMade(w.f.states)
    ensures AccountsOk(w.(f := f'))
  {
    forall s: StateId | s <= w.f.states ensures Held(f', s) <==> Held(w.f, s) || s == w.f.states {
      MovePending(w.f, f', i, f'.inits[i], s);
      assert Carries(f'.inits[i], w.f.states);
    }
    AccountsTransfer(w, w.(f := f'), None);
  }

  lemma ContinueAccounts(w: World, i: InitId)
    requires FieldsOk(w.f) && AccountsOk(w) && i < |w.f.inits| && w.f.inits[i].phase.Produced?
    ensures AccountsOk(Handing(w, Continue(w.f, i)))
  {
    ContinueKeeps(w.f, i);
    var (f', released) := Continue(w.f, i);
    var made := w.f.inits[i].phase.made;
    assert Carries(w.f.inits[i], made);
    MadeIsNotOrphan(w.f, i);
    if w.f.state.Some? {
      PublishedIsOwn(w.f);
    }
    forall s: StateId ensures Held(f', s) <==> Held(w.f, s) && released != Some(s) {
      MovePending(w.f, f', i, f'.inits[i], s);
    }
    AccountsTransfer(w, Handing(w, Continue(w.f, i)), released);
  }

  /** A state made by an initialisation's own promise is no orphan. */
  lemma MadeIsNotOrphan(f: Fields, i: InitId)
    requires InitsOk(f) && i < |f.inits| && f.inits[i].phase.Produced?
    ensures !Orphaned(f, f.inits[i].phase.made)
  {
    var s := f.inits[i].phase.made;
    assert Carries(f.inits[i], s);
    assert forall j | 0 <= j < |f.inits| && f.inits[j].orphan == OrphanMade(s) :: Carries(f.inits[j], s);
  }

  lemma FinalizeAccounts(w: World, i: InitId, threw: bool)
    requires FieldsOk(w.f) && AccountsOk(w) && i < |w.f.inits| && w.f.inits[i].phase.Finalizing?
    ensures AccountsOk(Handing(w, FinalizeEnds(w.f, i, threw)))
  {
    FinalizeKeeps(w.f, i, threw);
    var (f', released) := FinalizeEnds(w.f, i, threw);
    if w.f.state.Some? {
      PublishedIsOwn(w.f);
    }
    forall s: StateId ensures Held(f', s) <==> Held(w.f, s) && released != Some(s) {
      MovePending(w.f, f', i, f'.inits[i], s);
    }
    AccountsTransfer(w, Handing(w, FinalizeEnds(w.f, i, threw)), released);
  }

  // ----- Every run -----

  /** A step that keeps a waiting handler's owner current, or ends its generation or its owner. */
  lemma WaitingHolds(f: Fields, f': Fields, g: nat, o: OwnerId)
    requires WaitingOk(f, g, o) && f.generation <= f'.generation && f.owners <= f'.owners && f.stopped <= f'.stopped
    requires f.generation == f'.generation && Active(f', o) && f.owner == Some(o) ==> f'.owner == Some(o)
    ensures WaitingOk(f', g, o)
  {
  }

  lemma WaitingKeeps(w: World, e: Event)
    requires Inv(w)
    ensures forall g, o | (g, o) in Step(w, e).waiting :: WaitingOk(Step(w, e).f, g, o)
  {
    var f' := Step(w, e).f;
    StepMovesOn(w, e);
    forall g, o | (g, o) in Step(w, e).waiting ensures WaitingOk(f', g, o) {
      if (g, o) in w.waiting {
        WaitingHolds(w.f, f', g, o);
      }
    }
  }

  /** Generations, owners and stops only accumulate, and an active current owner stays within its generation. */
  lemma StepMovesOn(w: World, e: Event)
    ensures var f, f' := w.f, Step(w, e).f;
      && f.generation <= f'.generation && f.owners <= f'.owners && f.stopped <= f'.stopped
      && (f.generation == f'.generation && f.owner.Some? && Active(f', f.owner.value) ==> f'.owner == f.owner)
  {
  }

  lemma SessionStepKeeps(w: World, e: Event)
    requires Inv(w) && Enabled(w, e)
    requires e.Start? || e.StartContinues? || e.Shutdown? || e.FirstOperation? || e.Retry? || e.LoadTimeStart?
    ensures FieldsOk(Step(w, e).f) && AccountsOk(Step(w, e))
  {
    match e {
      case Start =>
        SessionKeeps(w.f);
        SessionAccounts(w, SessionStart(w.f));
      case Shutdown =>
        SessionKeeps(w.f);
        SessionAccounts(w, SessionShutdown(w.f));
      case StartContinues(g, o, d) =>
        assert WaitingOk(w.f, g, o);
        if SessionContinues(w.f, g, o, d) != w.f {
          BeginKeeps(w.f, o);
        }
        StartAccounts(w, Step(w, e));
      case FirstOperation =>
        EnsureKeeps(w.f);
        StartAccounts(w, Step(w, e));
      case _ =>
        RetryKeeps(w.f);
        StartAccounts(w, Step(w, e));
    }
  }

  lemma LoadingStepKeeps(w: World, e: Event)
    requires FieldsOk(w.f) && AccountsOk(w) && Enabled(w, e) && (e.Loaded? || e.Called?)
    ensures FieldsOk(Step(w, e).f) && AccountsOk(Step(w, e))
  {
    if e.Loaded? {
      LoadedKeeps(w.f, e.init, e.loaded);
    } else {
      CalledKeeps(w.f, e.init);
    }
    QuietAccounts(w, Step(w, e).f, e.init);
  }

  lemma MakingStepKeeps(w: World, e: Event)
    requires FieldsOk(w.f) && AccountsOk(w) && Enabled(w, e) && (e.Resolved? || e.OrphanResolved?)
    ensures FieldsOk(Step(w, e).f) && AccountsOk(Step(w, e))
  {
    if e.Resolved? {
      ResolvedKeeps(w.f, e.init, e.ok);
    } else {
      OrphanKeeps(w.f, e.init);
    }
    if e.Resolved? && !e.ok {
      QuietAccounts(w, Step(w, e).f, e.init);
    } else {
      MakingAccounts(w, Step(w, e).f, e.init);
    }
  }

  lemma PublishingStepKeeps(w: World, e: Event)
    requires FieldsOk(w.f) && AccountsOk(w) && Enabled(w, e) && (e.Continued? || e.Finalized?)
    ensures FieldsOk(Step(w, e).f) && AccountsOk(Step(w, e))
  {
    if e.Continued? {
      ContinueKeeps(w.f, e.init);
      ContinueAccounts(w, e.init);
    } else {
      FinalizeKeeps(w.f, e.init, e.threw);
      FinalizeAccounts(w, e.init, e.threw);
    }
  }

  lemma CleanedStepKeeps(w: World, i: InitId)
    requires FieldsOk(w.f) && AccountsOk(w) && Enabled(w, Cleaned(i))
    ensures FieldsOk(CleanedUp(w.f, i)) && AccountsOk(w.(f := CleanedUp(w.f, i)))
  {
    CleanedKeeps(w.f, i);
    QuietAccounts(w, CleanedUp(w.f, i), i);
  }

  lemma FailedStepKeeps(w: World, i: InitId)
    requires FieldsOk(w.f) && AccountsOk(w) && Enabled(w, Failed(i))
    ensures FieldsOk(ReportFailure(w.f, i)) && AccountsOk(w.(f := ReportFailure(w.f, i)))
  {
    FailedKeeps(w.f, i);
    QuietAccounts(w, ReportFailure(w.f, i), i);
  }

  lemma StepKeepsInv(w: World, e: Event)
    requires Inv(w)
    ensures Inv(Step(w, e))
  {
    WaitingKeeps(w, e);
    if Enabled(w, e) {
      if e.Start? || e.StartContinues? || e.Shutdown? || e.FirstOperation? || e.Retry? || e.LoadTimeStart? {
        SessionStepKeeps(w, e);
      } else if e.Loaded? || e.Called? {
        LoadingStepKeeps(w, e);
      } else if e.Resolved? || e.OrphanResolved? {
        MakingStepKeeps(w, e);
      } else if e.Continued? || e.Finalized? {
        PublishingStepKeeps(w, e);
      } else {
        if e.Cleaned? {
          CleanedStepKeeps(w, e.init);
        } else {
          FailedStepKeeps(w, e.init);
        }
      }
    }
  }

  lemma {:induction false} RunKeepsInv(events: seq<Event>)
    ensures Inv(Run(events))
  {
    if events != [] {
      RunKeepsInv(events[..|events| - 1]);
      StepKeepsInv(Run(events[..|events| - 1]), events[|events| - 1]);
    }
  }

  // ----- Main results -----

  /**
    In every interleaving a published state was made by an initialisation of the current owner,
    which is active, and of the current generation; and nobody has been told to shut it down.
  */
  lemma PublishedStateIsCurrent(events: seq<Event>)
    requires Run(events).f.state.Some?
    ensures var w := Run(events);
      && w.handed[w.f.state.value] == 0
      && exists i: InitId :: i < |w.f.inits| && IsCurrent(w.f, w.f.inits[i]) && StateOf(w.f.inits[i]) == w.f.state
  {
    RunKeepsInv(events);
    var f := Run(events).f;
    var i: InitId :| PublishedBy(f, i);
    PublishedIsOwn(f);
  }

  /** At most one unfinished initialisation belongs to the current runtime, and it is initPromise. */
  lemma OneInitializationIsCurrent(events: seq<Event>, i: InitId)
    requires i < |Run(events).f.inits| && IsCurrent(Run(events).f, Run(events).f.inits[i])
    requires !Run(events).f.inits[i].phase.Fulfilled?
    ensures Run(events).f.initPromise == Some(i)
  {
    RunKeepsInv(events);
    assert OwnedOk(Run(events).f, i);
  }

  /**
    Every state initializeMcp ever produced is published, waits for its promise's reaction, was
    orphaned, or was handed to shutdownState; it is handed over exactly once in the last case and
    never in the others.
  */
  lemma EveryStateHasOneFate(events: seq<Event>, s: StateId)
    requires s < Run(events).f.states
    ensures var w := Run(events);
      w.handed[s] == if w.f.state == Some(s) || Pending(w.f, s) || Orphaned(w.f, s) then 0 else 1
    ensures var f := Run(events).f;
      !(f.state == Some(s) && Pending(f, s)) && !(f.state == Some(s) && Orphaned(f, s))
        && !(Pending(f, s) && Orphaned(f, s))
  {
    RunKeepsInv(events);
    var w := Run(events);
    assert Held(w.f, s) <==> w.f.state == Some(s) || Pending(w.f, s) || Orphaned(w.f, s);
    if w.f.state == Some(s) {
      PublishedIsOwn(w.f);
    }
    if Pending(w.f, s) {
      var i :| 0 <= i < |w.f.inits| && w.f.inits[i].phase == Produced(s);
      MadeIsNotOrphan(w.f, i);
    }
  }

  /** The result of initialisation i's call of initializeMcp has been, or will be, dropped. */
  predicate Dropped(w: World, i: InitId) {
    i < |w.f.inits| && !w.f.inits[i].orphan.NoOrphan?
  }

  /** The step returns from i's call of initializeMcp when i is no longer the current initialisation. */
  predicate DropsResult(w: World, e: Event, i: InitId) {
    e == Called(i) && Enabled(w, e) && w.f.initPromise != Some(i)
  }

  /** Event k returns from i's call of initializeMcp after the runtime was replaced. */
  predicate ReplacedDuringCall(events: seq<Event>, k: nat, i: InitId) {
    k < |events| && DropsResult(Run(events[..k]), events[k], i)
  }

  /** A session event or a new initialisation drops no result. */
  lemma SessionStepDropsNothing(w: World, e: Event, i: InitId)
    requires e.Start? || e.StartContinues? || e.Shutdown? || e.FirstOperation? || e.Retry? || e.LoadTimeStart?
    ensures Dropped(Step(w, e), i) <==> Dropped(w, i)
  {
  }

  /** Nor does a piece of an initialisation after its call has returned, or before. */
  lemma PieceDropsNothing(w: World, e: Event, i: InitId)
    requires e.Loaded? || e.Resolved? || e.OrphanResolved?
    ensures Dropped(Step(w, e), i) <==> Dropped(w, i)
  {
  }

  lemma SettlingDropsNothing(w: World, e: Event, i: InitId)
    requires e.Continued? || e.Finalized? || e.Cleaned? || e.Failed?
    ensures Dropped(Step(w, e), i) <==> Dropped(w, i)
  {
  }

  /** No other step than the return from a replaced runtime's call drops a result, and none takes one up again. */
  lemma OrphanStartsOnly(w: World, e: Event, i: InitId)
    requires Inv(w)
    ensures Dropped(Step(w, e), i) <==>
      Dropped(w, i) || DropsResult(w, e, i)
  {
    if e.Called? {
      if Enabled(w, e) {
        GuardMeansCurrent(w.f, e.init);
      }
    } else if e.Loaded? || e.Resolved? || e.OrphanResolved? {
      PieceDropsNothing(w, e, i);
    } else if e.Continued? || e.Finalized? || e.Cleaned? || e.Failed? {
      SettlingDropsNothing(w, e, i);
    } else {
      SessionStepDropsNothing(w, e, i);
    }
  }

  lemma ReplacedIn(events: seq<Event>, k: nat, i: InitId)
    requires events != []
    ensures var before, last := events[..|events| - 1], |events| - 1;
      ReplacedDuringCall(events, k, i) <==>
        if k == last then DropsResult(Run(before), events[last], i) else ReplacedDuringCall(before, k, i)
  {
    var before, last := events[..|events| - 1], |events| - 1;
    if k < last {
      assert before[..k] == events[..k] && before[k] == events[k];
    }
  }

  /**
    In every run, the result of an initialisation's call of initializeMcp is dropped if and only if
    the runtime was replaced while that call was under way.
  */
  lemma {:induction false} OrphanedExactlyWhenReplacedDuringCall(events: seq<Event>, i: InitId)
    ensures Dropped(Run(events), i) <==> exists k :: ReplacedDuringCall(events, k, i)
  {
    if events != [] {
      var before, last := events[..|events| - 1], |events| - 1;
      OrphanedExactlyWhenReplacedDuringCall(before, i);
      RunKeepsInv(before);
      OrphanStartsOnly(Run(before), events[last], i);
      if k: nat :| ReplacedDuringCall(before, k, i) {
        ReplacedIn(events, k, i);
      }
      if k: nat :| ReplacedDuringCall(events, k, i) {
        ReplacedIn(events, k, i);
      }
      ReplacedIn(events, last, i);
    }
  }

  /** The state such a call makes is never published and never handed to shutdownState. */
  lemma DroppedStateIsNobodys(events: seq<Event>, i: InitId, s: StateId)
    requires Dropped(Run(events), i) && Run(events).f.inits[i].orphan == OrphanMade(s)
    ensures Run(events).handed[s] == 0 && Run(events).f.state != Some(s) && !Pending(Run(events).f, s)
  {
    RunKeepsInv(events);
    assert Orphaned(Run(events).f, s) && Carries(Run(events).f.inits[i], s);
    EveryStateHasOneFate(events, s);
  }

  /** Such a run: the session starts while a first operation's initialisation calls initializeMcp. */
  lemma OrphanCanHappen() returns (events: seq<Event>)
    ensures Orphaned(Run(events).f, 0) && Run(events).handed[0] == 0 && Run(events).f.state != Some(0)
  {
    events := RunToCalling();
    RunStep(events, Start);
    events := events + [Start];
    RunStep(events, Called(0));
    events := events + [Called(0)];
    RunStep(events, OrphanResolved(0));
    events := events + [OrphanResolved(0)];
    assert Run(events).f.inits[0].orphan == OrphanMade(0);
  }

  /**
    A produced state is published by its promise's reaction exactly when that promise is still
    initPromise; otherwise it is handed to shutdownState there and then.
  */
  lemma PublishedExactlyWhenCurrent(events: seq<Event>, i: InitId)
    requires Enabled(Run(events), Continued(i))
    ensures var w, w' := Run(events), Step(Run(events), Continued(i));
      var s := w.f.inits[i].phase.made;
      if w.f.initPromise == Some(i) then w.f.state.None? && w'.f.state == Some(s) && w'.handed == w.handed
      else w'.f.state == w.f.state && w'.handed == w.handed + multiset{s}
  {
    RunKeepsInv(events);
    ContinueKeeps(Run(events).f, i);
  }

  // ----- Retrying after a failure -----

  /**
    When a current initialisation has failed, its rejection handler frees initPromise for a retry
    exactly when the failure came before finalization: a failed finalization has already stopped
    the owner, and the handler then returns early.
  */
  lemma RetryFreedExactlyBeforeFinalization(events: seq<Event>, i: InitId)
    requires Enabled(Run(events), Failed(i)) && Run(events).f.initPromise == Some(i)
    ensures var w := Run(events);
      Step(w, Failed(i)).f.initPromise.None? <==> !w.f.inits[i].phase.finalized
    ensures Step(Run(events), Failed(i)).f.state.None?
  {
    RunKeepsInv(events);
    NothingPublishedYet(Run(events).f, i);
  }

  /** The fields of a runtime whose only initialisation, the current one, is in the given phase. */
  function OnlyInit(phase: Phase, stopped: set<OwnerId>, states: nat, state: Option<StateId>): Fields {
    Fields(1, state, Some(0), Some(0), stopped, 1, states, [Init(0, 1, phase, NoOrphan)])
  }

  lemma RunStep(events: seq<Event>, e: Event)
    ensures Run(events + [e]) == Step(Run(events), e)
  {
    assert (events + [e])[..|events|] == events;
  }

  /** A first operation starts an initialisation, whose modules load. */
  lemma RunToCalling() returns (events: seq<Event>)
    ensures events == [FirstOperation, Loaded(0, true)]
    ensures Run(events) == World(OnlyInit(Calling, {}, 0, None), {}, multiset{})
  {
    assert [] + [FirstOperation] == [FirstOperation];
    RunStep([], FirstOperation);
    RunStep([FirstOperation], Loaded(0, true));
    events := [FirstOperation] + [Loaded(0, true)];
  }

  lemma RunToProduced() returns (events: seq<Event>)
    ensures Run(events) == World(OnlyInit(Produced(0), {}, 1, None), {}, multiset{})
  {
    events := RunToCalling();
    RunStep(events, Called(0));
    events := events + [Called(0)];
    RunStep(events, Resolved(0, true));
    events := events + [Resolved(0, true)];
  }

  /** Such a run: a first operation's initialisation loads, produces its state, and its finalization throws. */
  lemma FinalizationCanFail() returns (events: seq<Event>)
    ensures Enabled(Run(events), Failed(0)) && Run(events).f.initPromise == Some(0)
      && Run(events).f.inits[0].phase.finalized
  {
    events := RunToProduced();
    RunStep(events, Continued(0));
    events := events + [Continued(0)];
    assert Run(events).f == OnlyInit(Finalizing(0), {}, 1, Some(0));
    RunStep(events, Finalized(0, true));
    events := events + [Finalized(0, true)];
    assert Run(events).f == OnlyInit(CleaningUp(0, true), {}, 1, None);
    RunStep(events, Cleaned(0));
    events := events + [Cleaned(0)];
    assert Run(events).f == OnlyInit(Rejected(true), {0}, 1, None);
  }

  /** A settled failure of finalization still holds initPromise. */
  predicate Stuck(w: World, i: InitId) {
    && w.f.initPromise == Some(i) && i < |w.f.inits|
    && (w.f.inits[i].phase == Rejected(true) || w.f.inits[i].phase.Reported?)
  }

  /**
    From there on, until the next session_start or session_shutdown, nothing is published and no
    initialisation is started, whatever operations, retries and reactions come.
  */
  lemma {:induction false} StuckUntilNextSession(w: World, i: InitId, events: seq<Event>)
    requires Inv(w) && Stuck(w, i)
    requires forall e | e in events :: !e.Start? && !e.Shutdown?
    ensures var w' := Resume(w, events); Inv(w') && Stuck(w', i) && w'.f.state.None? && |w'.f.inits| == |w.f.inits|
  {
    NothingPublishedYet(w.f, i);
    if events != [] {
      var before, e := events[..|events| - 1], events[|events| - 1];
      StuckUntilNextSession(w, i, before);
      var w1 := Resume(w, before);
      StepKeepsInv(w1, e);
      StuckStep(w1, i, e);
      NothingPublishedYet(Step(w1, e).f, i);
    }
  }

  lemma StuckStep(w: World, i: InitId, e: Event)
    requires Inv(w) && Stuck(w, i) && w.f.state.None? && !e.Start? && !e.Shutdown?
    ensures Stuck(Step(w, e), i) && |Step(w, e).f.inits| == |w.f.inits|
  {
    if e.Continued? && Enabled(w, e) {
      ContinueKeeps(w.f, e.init);
    }
  }

  /** A run continued from a given world. */
  function Resume(w: World, events: seq<Event>): World {
    if events == [] then w else Step(Resume(w, events[..|events| - 1]), events[|events| - 1])
  }
}
