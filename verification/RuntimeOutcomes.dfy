/**
  What every session event and every piece of an initialisation must bring about: who starts one,
  and that one which nothing disturbs is published, or fails and makes way for a retry.
*/
module RuntimeOutcomes {
  import opened Common
  import opened RuntimePublication
  import opened RuntimeRuns

  // ----- Starting -----

  /** The step asks for a runtime: an undeferred session start, a first operation, a retry, the load-time start. */
  predicate Asks(w: World, e: Event) {
    match e
    case StartContinues(g, o, deferRuntime) =>
      !deferRuntime && (g, o) in w.waiting && g == w.f.generation && o !in w.f.stopped
    case FirstOperation => true
    case Retry => true
    case LoadTimeStart => w.f.generation == 0
    case _ => false
  }

  predicate Idle(f: Fields) {
    f.state.None? && f.initPromise.None?
  }

  /** The one new initialisation is the promise, and belongs to the current owner and generation. */
  ghost predicate StartedOne(f: Fields, f': Fields) {
    && |f'.inits| == |f.inits| + 1 && f'.inits[..|f.inits|] == f.inits
    && f'.initPromise == Some(|f.inits|) && f'.state.None?
    && f'.inits[|f.inits|].phase == Loading && f'.inits[|f.inits|].orphan == NoOrphan
    && IsCurrent(f', f'.inits[|f.inits|])
  }

  /**
    In every run, after such a step there is a state or a promise of one: what was there before, and
    otherwise the promise of exactly one new initialisation, which is current.
  */
  lemma AskingStarts(events: seq<Event>, e: Event)
    requires Asks(Run(events), e)
    ensures var f, f' := Run(events).f, Step(Run(events), e).f;
      if Idle(f) then StartedOne(f, f') else f' == f
  {
    RunKeepsInv(events);
    var w := Run(events);
    if e.StartContinues? {
      assert WaitingOk(w.f, e.generation, e.owner);
    }
    AskedStarts(w, e);
  }

  lemma AskedStarts(w: World, e: Event)
    requires FieldsOk(w.f) && Asks(w, e) && (e.StartContinues? ==> w.f.owner == Some(e.owner))
    ensures var f, f' := w.f, Step(w, e).f;
      if Idle(f) then StartedOne(f, f') else f' == f
  {
    assert (w.f.inits + [Init(0, 0, Loading, NoOrphan)])[..|w.f.inits|] == w.f.inits;
    match e {
      case StartContinues(_, o, _) => assert Idle(w.f) ==> Step(w, e).f == StartInitialization(w.f, o);
      case FirstOperation => FirstOperationStarts(w.f);
      case Retry => FreshStartStarts(w.f);
      case LoadTimeStart => FreshStartStarts(w.f);
      case _ =>
    }
  }

  /** A first operation takes over the owner that is current and active, and needs a new one otherwise. */
  lemma FirstOperationStarts(f: Fields)
    requires FieldsOk(f)
    ensures if Idle(f) then StartedOne(f, EnsureSessionRuntime(f)) else EnsureSessionRuntime(f) == f
    ensures Idle(f) ==>
      EnsureSessionRuntime(f).owner == if f.owner.Some? && f.owner.value !in f.stopped then f.owner else Some(f.owners)
    ensures Idle(f) ==> EnsureSessionRuntime(f).generation == if f.generation == 0 then 1 else f.generation
  {
  }

  /** A retry and the load-time start bring a new owner and a new generation. */
  lemma FreshStartStarts(f: Fields)
    requires FieldsOk(f)
    ensures if Idle(f) then StartedOne(f, GatewayRetry(f)) else GatewayRetry(f) == f
    ensures if Idle(f) && f.generation == 0 then StartedOne(f, LoadTime(f)) else LoadTime(f) == f
    ensures Idle(f) ==> GatewayRetry(f).generation == f.generation + 1 && GatewayRetry(f).owner == Some(f.owners)
    ensures Idle(f) && f.generation == 0 ==> LoadTime(f).generation == 1 && LoadTime(f).owner == Some(f.owners)
  {
  }

  /** A session start that was overtaken, or whose runtime is deferred, starts nothing. */
  lemma OvertakenStartIsSilent(w: World, g: nat, o: OwnerId, deferRuntime: bool)
    requires g != w.f.generation || o in w.f.stopped || deferRuntime
    ensures Step(w, StartContinues(g, o, deferRuntime)).f == w.f
  {
  }

  // ----- Sessions -----

  /** A session start takes the runtime over at once: new generation, new active owner, nothing published. */
  lemma SessionStartTakesOver(events: seq<Event>)
    ensures var w, w' := Run(events), Step(Run(events), Start);
      && w'.f.generation == w.f.generation + 1
      && w'.f.owner.Some? && w'.f.owner.value !in w'.f.stopped && w'.f.owner != w.f.owner
      && (forall i | 0 <= i < |w.f.inits| :: w.f.inits[i].owner != w'.f.owner.value)
      && Idle(w'.f) && w'.f.inits == w.f.inits
      && (w.f.owner.Some? ==> w.f.owner.value in w'.f.stopped)
      && (w'.f.generation, w'.f.owner.value) in w'.waiting
      && w'.handed == if w.f.state.Some? then w.handed + multiset{w.f.state.value} else w.handed
  {
    RunKeepsInv(events);
  }

  /** A session shutdown leaves no owner, state or promise, and hands the published state over. */
  lemma SessionShutdownEmpties(events: seq<Event>)
    ensures var w, w' := Run(events), Step(Run(events), Shutdown);
      && w'.f.generation == w.f.generation + 1 && w'.f.owner.None? && Idle(w'.f) && w'.f.inits == w.f.inits
      && (w.f.owner.Some? ==> w.f.owner.value in w'.f.stopped)
      && w'.handed == if w.f.state.Some? then w.handed + multiset{w.f.state.value} else w.handed
  {
  }

  // ----- One piece after the other -----

  /** The current initialisation is in this phase, and nothing else happened to the runtime. */
  ghost predicate Reaches(
      w: World, w': World, i: InitId, phase: Phase, state: Option<StateId>, initPromise: Option<InitId>)
  {
    && i < |w.f.inits|
    && w'.f == w.f.(inits := w.f.inits[i := w.f.inits[i].(phase := phase)], state := state, initPromise := initPromise,
                    states := w'.f.states)
  }

  /** Modules that load take a current initialisation on to its call, any other ends it. */
  lemma LoadedExactly(w: World, i: InitId, loaded: bool)
    requires FieldsOk(w.f) && Enabled(w, Loaded(i, loaded))
    ensures var phase := if loaded && w.f.initPromise == Some(i) then Calling else Rejected(false);
      Reaches(w, Step(w, Loaded(i, loaded)), i, phase, w.f.state, w.f.initPromise)
  {
    GuardMeansCurrent(w.f, i);
  }

  lemma CalledExactly(w: World, i: InitId)
    requires FieldsOk(w.f) && Enabled(w, Called(i))
    ensures w.f.initPromise == Some(i) ==>
      Reaches(w, Step(w, Called(i)), i, Initializing, w.f.state, w.f.initPromise)
    ensures w.f.initPromise != Some(i) ==>
      Step(w, Called(i)).f.inits[i].phase == Rejected(false) && Dropped(Step(w, Called(i)), i)
  {
    GuardMeansCurrent(w.f, i);
  }

  /** A call that succeeds makes a new state. */
  lemma ResolvedExactly(w: World, i: InitId, ok: bool)
    requires Enabled(w, Resolved(i, ok))
    ensures var phase := if ok then Produced(w.f.states) else Rejected(false);
      Reaches(w, Step(w, Resolved(i, ok)), i, phase, w.f.state, w.f.initPromise)
    ensures Step(w, Resolved(i, ok)).f.states == w.f.states + if ok then 1 else 0
  {
  }

  lemma ContinuedExactly(w: World, i: InitId)
    requires FieldsOk(w.f) && Enabled(w, Continued(i))
    ensures var s := w.f.inits[i].phase.made;
      if w.f.initPromise == Some(i) then Reaches(w, Step(w, Continued(i)), i, Finalizing(s), Some(s), w.f.initPromise)
      else Reaches(w, Step(w, Continued(i)), i, CleaningUp(s, false), w.f.state, w.f.initPromise)
  {
    ContinueKeeps(w.f, i);
  }

  /** Finalization publishes for good, or takes its state back and hands it over, or was overtaken. */
  lemma FinalizedExactly(w: World, i: InitId, threw: bool)
    requires FieldsOk(w.f) && Enabled(w, Finalized(i, threw))
    ensures var s, w' := w.f.inits[i].phase.final, Step(w, Finalized(i, threw));
      if w.f.inits[i].generation != w.f.generation then
        Reaches(w, w', i, Rejected(true), w.f.state, w.f.initPromise) && w'.handed == w.handed
      else if threw then
        Reaches(w, w', i, CleaningUp(s, true), None, w.f.initPromise) && w'.handed == w.handed + multiset{s}
      else Reaches(w, w', i, Fulfilled(s), Some(s), None) && w'.handed == w.handed
  {
    FinalizingIsPublished(w.f, i);
  }

  /** shutdownState stops the owner of the state it was given. */
  lemma CleanedExactly(w: World, i: InitId)
    requires Enabled(w, Cleaned(i))
    ensures var f' := Step(w, Cleaned(i)).f;
      && f'.inits[i].phase == Rejected(w.f.inits[i].phase.finalized)
      && f'.stopped == w.f.stopped + {w.f.inits[i].owner}
      && f'.state == w.f.state && f'.initPromise == w.f.initPromise && f'.owner == w.f.owner
  {
  }

  /** The rejection handler of a current initialisation that failed early frees the promise and stops the owner. */
  lemma FailedExactly(w: World, i: InitId)
    requires FieldsOk(w.f) && Enabled(w, Failed(i))
    ensures var f' := Step(w, Failed(i)).f;
      if w.f.initPromise == Some(i) && !w.f.inits[i].phase.finalized then
        && Idle(f') && f'.stopped == w.f.stopped + {w.f.inits[i].owner}
      else f'.initPromise == w.f.initPromise && f'.state == w.f.state && f'.stopped == w.f.stopped
  {
    if w.f.initPromise == Some(i) {
      NothingPublishedYet(w.f, i);
    }
  }

  // ----- Whole startups -----

  lemma ResumeStep(w: World, events: seq<Event>, e: Event)
    ensures Resume(w, events + [e]) == Step(Resume(w, events), e)
  {
    assert (events + [e])[..|events|] == events;
  }

  /** The state is published for good as initialisation i's. */
  ghost predicate PublishedFor(w: World, i: InitId, s: StateId) {
    && i < |w.f.inits| && w.f.state == Some(s) && w.f.initPromise.None?
    && w.f.inits[i].phase == Fulfilled(s) && IsCurrent(w.f, w.f.inits[i])
  }

  /** An initialisation that is current and that nothing disturbs ends with its state published for good. */
  lemma UndisturbedStartIsPublished(w: World, i: InitId)
    requires Inv(w) && w.f.initPromise == Some(i) && w.f.inits[i].phase.Loading?
    ensures var w' := Resume(w, [Loaded(i, true), Called(i), Resolved(i, true), Continued(i), Finalized(i, false)]);
      PublishedFor(w', i, w.f.states) && w'.handed == w.handed
  {
    var w2 := CallGoesOut(w, i);
    var w4 := CallIsAnswered(w2, i);
    FinalizedExactly(w4, i, false);
    ResumeFive(w, Loaded(i, true), Called(i), Resolved(i, true), Continued(i), Finalized(i, false));
  }

  lemma ResumeFive(w: World, a: Event, b: Event, c: Event, d: Event, e: Event)
    ensures Resume(w, [a, b, c, d, e]) == Step(Step(Step(Step(Step(w, a), b), c), d), e)
  {
    ResumeThree(w, a, b, c);
    assert Resume(w, [a, b, c, d]) == Step(Resume(w, [a, b, c]), d) by {
      ResumeStep(w, [a, b, c], d);
      assert [a, b, c] + [d] == [a, b, c, d];
    }
    assert Resume(w, [a, b, c, d, e]) == Step(Resume(w, [a, b, c, d]), e) by {
      ResumeStep(w, [a, b, c, d], e);
      assert [a, b, c, d] + [e] == [a, b, c, d, e];
    }
  }

  lemma ResumeThree(w: World, a: Event, b: Event, c: Event)
    ensures Resume(w, [a, b, c]) == Step(Step(Step(w, a), b), c)
  {
    assert Resume(w, [a]) == Step(w, a) by {
      ResumeStep(w, [], a);
      assert [] + [a] == [a];
    }
    assert Resume(w, [a, b]) == Step(Resume(w, [a]), b) by {
      ResumeStep(w, [a], b);
      assert [a] + [b] == [a, b];
    }
    assert Resume(w, [a, b, c]) == Step(Resume(w, [a, b]), c) by {
      ResumeStep(w, [a, b], c);
      assert [a, b] + [c] == [a, b, c];
    }
  }

  lemma CallGoesOut(w: World, i: InitId) returns (w': World)
    requires Inv(w) && w.f.initPromise == Some(i) && w.f.inits[i].phase.Loading?
    ensures w' == Step(Step(w, Loaded(i, true)), Called(i))
    ensures Inv(w') && w'.f.initPromise == Some(i) && w'.f.inits[i].phase.Initializing?
    ensures w'.f.states == w.f.states && w'.handed == w.handed
  {
    var w1 := Step(w, Loaded(i, true));
    LoadedExactly(w, i, true);
    StepKeepsInv(w, Loaded(i, true));
    w' := Step(w1, Called(i));
    CalledExactly(w1, i);
    StepKeepsInv(w1, Called(i));
  }

  lemma CallIsAnswered(w: World, i: InitId) returns (w': World)
    requires Inv(w) && w.f.initPromise == Some(i) && w.f.inits[i].phase.Initializing?
    ensures w' == Step(Step(w, Resolved(i, true)), Continued(i))
    ensures Inv(w') && w'.f.initPromise == Some(i) && w'.f.inits[i].phase == Finalizing(w.f.states)
    ensures w'.f.inits[i].generation == w'.f.generation && w'.handed == w.handed
  {
    var w1 := Step(w, Resolved(i, true));
    ResolvedExactly(w, i, true);
    StepKeepsInv(w, Resolved(i, true));
    w' := Step(w1, Continued(i));
    ContinuedExactly(w1, i);
    StepKeepsInv(w1, Continued(i));
  }

  /** One that fails to load, or whose call fails, is rejected early. */
  lemma EarlyFailure(w: World, i: InitId, called: bool) returns (w': World)
    requires Inv(w) && w.f.initPromise == Some(i) && w.f.inits[i].phase == (if called then Initializing else Loading)
    ensures w' == Step(w, if called then Resolved(i, false) else Loaded(i, false))
    ensures Inv(w') && Enabled(w', Failed(i)) && w'.f.initPromise == Some(i) && !w'.f.inits[i].phase.finalized
    ensures w'.f.generation == w.f.generation && w'.f.inits[i].owner == w.f.inits[i].owner
  {
    var e := if called then Resolved(i, false) else Loaded(i, false);
    w' := Step(w, e);
    if called {
      ResolvedExactly(w, i, false);
    } else {
      LoadedExactly(w, i, false);
    }
    StepKeepsInv(w, e);
  }

  /** It then makes way: after its handler has run a retry starts anew. */
  lemma FailedStartIsRetried(w: World, i: InitId, called: bool)
    requires Inv(w) && w.f.initPromise == Some(i) && w.f.inits[i].phase == (if called then Initializing else Loading)
    ensures var w' := Step(Step(w, if called then Resolved(i, false) else Loaded(i, false)), Failed(i));
      && Idle(w'.f) && w.f.inits[i].owner in w'.f.stopped && w'.f.generation == w.f.generation
      && StartedOne(w'.f, Step(w', Retry).f) && Step(w', Retry).f.generation == w.f.generation + 1
  {
    var w1 := EarlyFailure(w, i, called);
    FailedExactly(w1, i);
    StepKeepsInv(w1, Failed(i));
    FreshStartStarts(Step(w1, Failed(i)).f);
  }
}
