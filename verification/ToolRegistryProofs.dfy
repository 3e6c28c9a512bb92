/** What every run of syncs, searches and host changes keeps of the direct-tool registry. */
module ToolRegistryProofs {
  import opened Common
  import opened ToolRegistry

  // ----- Who owns a name -----

  /** The first candidate of a free name gets it. */
  lemma {:induction false} FirstCandidateClaims(candidates: seq<ToolSpec>, i: nat)
    requires i < |candidates| && candidates[i].name !in BUILTIN_NAMES
    requires forall j | 0 <= j < i :: candidates[j].name != candidates[i].name
    ensures candidates[i] in Claims(candidates)
  {
    var before := candidates[..|candidates| - 1];
    if i < |before| {
      FirstCandidateClaims(before, i);
    } else {
      assert candidates[i].name !in Names(before);
      assert Names(Claims(before)) == Names(before) - BUILTIN_NAMES;
    }
  }

  /** No built-in tool's name is ever claimed. */
  lemma BuiltinsAreNeverClaimed(candidates: seq<ToolSpec>, spec: ToolSpec)
    requires spec in Claims(candidates)
    ensures spec.name !in {"read", "bash", "edit", "write", "grep", "find", "ls", "mcp"}
  {
    var i :| 0 <= i < |Claims(candidates)| && Claims(candidates)[i] == spec;
    assert spec.name in Names(Claims(candidates));
  }

  /** Where the name is first met among the candidates; their number when it is not. */
  function FirstAt(candidates: seq<ToolSpec>, name: ToolName): nat {
    if candidates == [] || candidates[0].name == name then 0 else 1 + FirstAt(candidates[1..], name)
  }

  lemma {:induction false} FirstAtFront(candidates: seq<ToolSpec>, more: seq<ToolSpec>, name: ToolName)
    ensures FirstAt(candidates, name) <= |candidates|
    ensures name in Names(candidates) <==> FirstAt(candidates, name) < |candidates|
    ensures FirstAt(candidates, name) < |candidates| ==> FirstAt(candidates + more, name) == FirstAt(candidates, name)
    ensures FirstAt(candidates, name) == |candidates| ==>
      FirstAt(candidates + more, name) == |candidates| + FirstAt(more, name)
  {
    if candidates == [] {
      assert candidates + more == more;
    } else {
      FirstAtFront(candidates[1..], more, name);
      assert (candidates + more)[1..] == candidates[1..] + more;
      assert candidates == [candidates[0]] + candidates[1..];
      if name in Names(candidates[1..]) {
        var i := NameHasSpec(candidates[1..], name);
        assert candidates[i + 1].name == name;
      }
      if name in Names(candidates) && candidates[0].name != name {
        var i := NameHasSpec(candidates, name);
        assert candidates[1..][i - 1].name == name;
      }
    }
  }

  /** Claims keep the order in which their names are first met. */
  lemma {:induction false} ClaimsKeepOrder(candidates: seq<ToolSpec>, i: nat, j: nat)
    requires i < j < |Claims(candidates)|
    ensures FirstAt(candidates, Claims(candidates)[i].name) < FirstAt(candidates, Claims(candidates)[j].name)
    ensures FirstAt(candidates, Claims(candidates)[j].name) < |candidates|
  {
    var front, last := candidates[..|candidates| - 1], candidates[|candidates| - 1];
    var before, n, m := Claims(front), Claims(candidates)[i].name, Claims(candidates)[j].name;
    assert candidates == front + [last];
    FirstAtFront(front, [last], n);
    FirstAtFront(front, [last], m);
    assert before[i].name in Names(before);
    if j < |before| {
      ClaimsKeepOrder(front, i, j);
    }
  }

  lemma {:induction false} AvailableMembers(specs: seq<ToolSpec>, unavailable: set<string>)
    requires UniqueNames(specs)
    ensures UniqueNames(Available(specs, unavailable))
    ensures forall spec :: spec in Available(specs, unavailable) <==> spec in specs && spec.server !in unavailable
  {
    if specs != [] {
      var before := specs[..|specs| - 1];
      AvailableMembers(before, unavailable);
      assert specs == before + [specs[|specs| - 1]];
    }
  }

  /**
    Whether servers are available never changes who owns a name: what is emitted is exactly the
    claims of the available servers, with distinct names, none of them a builtin's.
  */
  lemma AvailabilityNeverReassigns(candidates: seq<ToolSpec>, unavailable: set<string>)
    ensures var emitted := Available(Claims(candidates), unavailable);
      && UniqueNames(emitted)
      && (forall spec :: spec in emitted <==> spec in Claims(candidates) && spec.server !in unavailable)
      && (forall spec | spec in emitted :: spec.name !in BUILTIN_NAMES)
  {
    var claims := Claims(candidates);
    AvailableMembers(claims, unavailable);
    forall spec | spec in claims ensures spec.name !in BUILTIN_NAMES {
      var i :| 0 <= i < |claims| && claims[i] == spec;
      assert spec.name in Names(claims);
    }
  }

  // ----- The invariant -----

  /** The lazy set is the registered search-mode tools; only lazy tools count as search-activated. */
  ghost predicate RegistryOk(r: Registry) {
    && r.lazyTools <= r.registered.Keys
    && r.searchActivated <= r.lazyTools
    && forall n | n in r.registered :: r.registered[n].name == n && (r.registered[n].lazy <==> n in r.lazyTools)
  }

  /** After the specs so far: theirs is what is registered, the other names are as before. */
  ghost predicate Registered(r: Registry, r1: Registry, specs: seq<ToolSpec>) {
    && (forall i | 0 <= i < |specs| :: Lookup(r1.registered, specs[i].name) == Some(specs[i]))
    && r1.registered.Keys == r.registered.Keys + Names(specs)
    && (forall n | n in r.registered && n !in Names(specs) :: r1.registered[n] == r.registered[n])
  }

  /** Whether registering a spec itself switches an eager tool on. */
  predicate SwitchesOn(r: Registry, spec: ToolSpec) {
    spec.name in r.lazyTools || Reactivates(r, spec)
  }

  /** The tool is not registered yet with this fingerprint. */
  predicate Renewed(r: Registry, spec: ToolSpec) {
    spec.name !in r.registered || r.registered[spec.name] != spec
  }

  /** Whether it does so because the host does not know the tool, or it comes back after a fallback deactivation. */
  predicate Reactivates(r: Registry, spec: ToolSpec) {
    Renewed(r, spec) && (spec.name !in r.known || spec.name in r.fallbackDeactivated)
  }

  /** What registering one spec leaves, field by field. */
  ghost predicate OneRegistered(r: Registry, spec: ToolSpec, r1: Registry) {
    var n := spec.name;
    && r1.registered == r.registered[n := spec]
    && r1.lazyTools == (if spec.lazy then r.lazyTools + {n} else r.lazyTools - {n})
    && r1.searchActivated == (if !spec.lazy && n in r.lazyTools then r.searchActivated - {n} else r.searchActivated)
    && (forall m | m != n :: (m in r1.active <==> m in r.active) && (m in r1.known <==> m in r.known)
          && (m in r1.fallbackDeactivated <==> m in r.fallbackDeactivated))
    && (!spec.lazy ==> (n in r1.active <==> n in r.active || SwitchesOn(r, spec)))
    && (spec.lazy ==> (n in r1.active <==> n in r.active || (Renewed(r, spec) && n !in r.known)))
    && (n in r1.known <==> n in r.known || Renewed(r, spec))
    && (n in r1.fallbackDeactivated <==> n in r.fallbackDeactivated && !Renewed(r, spec))
  }

  /** What the registration part leaves of the name and of the others. */
  ghost predicate NewRegistered(r: Registry, spec: ToolSpec, r1: Registry) {
    var n := spec.name;
    && r1.registered == r.registered[n := spec]
    && r1.lazyTools == r.lazyTools && r1.searchActivated == r.searchActivated
    && (forall m | m != n :: (m in r1.active <==> m in r.active) && (m in r1.known <==> m in r.known)
          && (m in r1.fallbackDeactivated <==> m in r.fallbackDeactivated))
    && (!spec.lazy ==> (n in r1.active <==> n in r.active || Reactivates(r, spec)))
    && (spec.lazy ==> (n in r1.active <==> n in r.active || (Renewed(r, spec) && n !in r.known)))
    && (n in r1.known <==> n in r.known || Renewed(r, spec))
    && (n in r1.fallbackDeactivated <==> n in r.fallbackDeactivated && !Renewed(r, spec))
  }

  lemma RegisterNewEffect(r: Registry, spec: ToolSpec)
    ensures NewRegistered(r, spec, RegisterNew(r, spec))
  {
    if Lookup(r.registered, spec.name) == Some(spec) {
      assert r.registered[spec.name := spec] == r.registered;
    }
  }

  lemma SetModeEffect(r: Registry, r0: Registry, spec: ToolSpec)
    requires NewRegistered(r, spec, r0)
    ensures OneRegistered(r, spec, SetMode(r0, spec))
  {
  }

  lemma RegisterSpecEffect(r: Registry, spec: ToolSpec)
    ensures OneRegistered(r, spec, RegisterSpec(r, spec))
  {
    RegisterNewEffect(r, spec);
    SetModeEffect(r, RegisterNew(r, spec), spec);
  }

  lemma RegistryStep(r0: Registry, r1: Registry, spec: ToolSpec)
    requires RegistryOk(r0) && OneRegistered(r0, spec, r1)
    ensures RegistryOk(r1)
  {
  }

  lemma RegisteredStep(r: Registry, r0: Registry, r1: Registry, before: seq<ToolSpec>, spec: ToolSpec)
    requires Registered(r, r0, before) && r1.registered == r0.registered[spec.name := spec]
    requires UniqueNames(before + [spec])
    ensures Registered(r, r1, before + [spec])
  {
    NamesAppend(before, spec);
    var specs := before + [spec];
    forall i | 0 <= i < |specs| ensures Lookup(r1.registered, specs[i].name) == Some(specs[i]) {
      assert specs[|before|] == spec;
      assert i < |before| ==> specs[i] == before[i] && specs[i].name != specs[|before|].name;
    }
  }

  lemma {:induction false} RegisterAllKeeps(r: Registry, specs: seq<ToolSpec>)
    requires RegistryOk(r) && UniqueNames(specs)
    ensures RegistryOk(RegisterAll(r, specs)) && Registered(r, RegisterAll(r, specs), specs)
  {
    if specs != [] {
      var before, spec := specs[..|specs| - 1], specs[|specs| - 1];
      assert specs == before + [spec];
      RegisterAllKeeps(r, before);
      RegisterSpecEffect(RegisterAll(r, before), spec);
      RegistryStep(RegisterAll(r, before), RegisterAll(r, specs), spec);
      RegisteredStep(r, RegisterAll(r, before), RegisterAll(r, specs), before, spec);
    }
  }

  lemma NameHasSpec(specs: seq<ToolSpec>, n: ToolName) returns (i: nat)
    requires n in Names(specs)
    ensures i < |specs| && specs[i].name == n
  {
    i :| 0 <= i < |specs| && specs[i].name == n;
  }

  /** What is registered after a sync is the spec list, by name, in every field its fingerprint covers. */
  ghost predicate Mirrors(r: Registry, specs: seq<ToolSpec>) {
    && r.registered.Keys == Names(specs)
    && (forall i | 0 <= i < |specs| :: Lookup(r.registered, specs[i].name) == Some(specs[i]))
    && r.lazyTools == LazyNames(specs)
    && r.searchActivated <= r.lazyTools
  }

  /** The registered search-mode tools are the specs in search mode. */
  lemma LazyOfSpecs(r: Registry, specs: seq<ToolSpec>, n: ToolName)
    requires forall i | 0 <= i < |specs| :: Lookup(r.registered, specs[i].name) == Some(specs[i])
    ensures n in LazyNames(specs) <==> n in Names(specs) && n in r.registered && r.registered[n].lazy
  {
    if n in Names(specs) {
      var i := NameHasSpec(specs, n);
      assert Lookup(r.registered, specs[i].name) == Some(specs[i]);
    }
    if n in LazyNames(specs) {
      var i :| 0 <= i < |specs| && specs[i].lazy && specs[i].name == n;
      assert Lookup(r.registered, specs[i].name) == Some(specs[i]);
    }
  }

  lemma ForgetMirrors(r1: Registry, specs: seq<ToolSpec>)
    requires RegistryOk(r1) && Names(specs) <= r1.registered.Keys
    requires forall i | 0 <= i < |specs| :: Lookup(r1.registered, specs[i].name) == Some(specs[i])
    ensures var r2 := Forget(r1, r1.registered.Keys - Names(specs)); RegistryOk(r2) && Mirrors(r2, specs)
  {
    var r2 := Forget(r1, r1.registered.Keys - Names(specs));
    forall n ensures n in r2.lazyTools <==> n in LazyNames(specs) {
      LazyOfSpecs(r1, specs, n);
    }
    forall i | 0 <= i < |specs| ensures Lookup(r2.registered, specs[i].name) == Some(specs[i]) {
      assert Lookup(r1.registered, specs[i].name) == Some(specs[i]);
    }
  }

  lemma SyncMirrors(r: Registry, specs: seq<ToolSpec>, canUnregister: bool)
    requires RegistryOk(r) && UniqueNames(specs)
    ensures var r' := Sync(r, specs, canUnregister); RegistryOk(r') && Mirrors(r', specs)
  {
    RegisterAllKeeps(r, specs);
    var r1 := RegisterAll(r, specs);
    var gone := r1.registered.Keys - Names(specs);
    ForgetMirrors(r1, specs);
    RestKeepsMaps(Forget(r1, gone), gone, canUnregister);
  }

  /** Deactivating and holding tools concern only what is active, and what the host knows. */
  lemma RestKeepsMaps(r: Registry, gone: set<ToolName>, canUnregister: bool)
    ensures var r' := HoldLazy(Deactivate(r, gone, canUnregister));
      r'.registered == r.registered && r'.lazyTools == r.lazyTools && r'.searchActivated == r.searchActivated
  {
  }

  /** No lazy tool is active after a sync unless a search activated it. */
  lemma SyncHoldsLazyTools(r: Registry, specs: seq<ToolSpec>, canUnregister: bool)
    ensures var r' := Sync(r, specs, canUnregister);
      forall n | n in r'.active && n in r'.lazyTools :: n in r'.searchActivated
  {
    var r1 := RegisterAll(r, specs);
    var gone := r1.registered.Keys - Names(specs);
    var r2 := Deactivate(Forget(r1, gone), gone, canUnregister);
    WithoutMembers(r2.active, r2.lazyTools - r2.searchActivated);
  }

  // ----- Tools of other extensions -----

  lemma {:induction false} WithoutTwice(names: seq<ToolName>, drop: set<ToolName>, ours: set<ToolName>)
    requires drop <= ours
    ensures Without(Without(names, drop), ours) == Without(names, ours)
  {
    if names != [] {
      var before, last := names[..|names| - 1], names[|names| - 1];
      WithoutTwice(before, drop, ours);
      if last !in drop {
        assert (Without(before, drop) + [last])[..|Without(before, drop)|] == Without(before, drop);
      } else {
        assert Without(before, drop) + [] == Without(before, drop);
      }
    }
  }

  lemma ActivateOurs(r: Registry, name: ToolName, ours: set<ToolName>)
    requires name in ours
    ensures Without(Activate(r, name).active, ours) == Without(r.active, ours)
  {
    assert (r.active + [name])[..|r.active|] == r.active;
  }

  lemma RegisterNewOurs(r: Registry, spec: ToolSpec, ours: set<ToolName>)
    requires spec.name in ours
    ensures Without(RegisterNew(r, spec).active, ours) == Without(r.active, ours)
  {
    ActivateOurs(r, spec.name, ours);
    assert RegisterNew(r, spec).active == r.active || RegisterNew(r, spec).active == Activate(r, spec.name).active;
  }

  lemma SetModeOurs(r: Registry, spec: ToolSpec, ours: set<ToolName>)
    requires spec.name in ours
    ensures Without(SetMode(r, spec).active, ours) == Without(r.active, ours)
  {
    ActivateOurs(r, spec.name, ours);
    assert SetMode(r, spec).active == r.active || SetMode(r, spec).active == Activate(r, spec.name).active;
  }

  lemma RegisterSpecOurs(r: Registry, spec: ToolSpec, ours: set<ToolName>)
    requires spec.name in ours
    ensures Without(RegisterSpec(r, spec).active, ours) == Without(r.active, ours)
  {
    RegisterNewOurs(r, spec, ours);
    SetModeOurs(RegisterNew(r, spec), spec, ours);
  }

  lemma {:induction false} RegisterAllOurs(r: Registry, specs: seq<ToolSpec>, ours: set<ToolName>)
    requires Names(specs) <= ours
    ensures Without(RegisterAll(r, specs).active, ours) == Without(r.active, ours)
  {
    if specs != [] {
      NamesStep(specs);
      RegisterAllOurs(r, specs[..|specs| - 1], ours);
      RegisterSpecOurs(RegisterAll(r, specs[..|specs| - 1]), specs[|specs| - 1], ours);
    }
  }

  /** A sync leaves the activation of every tool that is not the adapter's own as it was, and in its order. */
  lemma SyncLeavesOthers(r: Registry, specs: seq<ToolSpec>, canUnregister: bool)
    requires RegistryOk(r) && UniqueNames(specs)
    ensures var ours := r.registered.Keys + Names(specs);
      Without(Sync(r, specs, canUnregister).active, ours) == Without(r.active, ours)
  {
    var ours := r.registered.Keys + Names(specs);
    RegisterAllKeeps(r, specs);
    RegisterAllOurs(r, specs, ours);
    var r1 := RegisterAll(r, specs);
    var gone := r1.registered.Keys - Names(specs);
    var r2 := Forget(r1, gone);
    var r3 := Deactivate(r2, gone, canUnregister);
    DeactivateActive(r2, gone, canUnregister);
    if gone != {} {
      WithoutTwice(r2.active, gone, ours);
    }
    WithoutTwice(r3.active, r3.lazyTools - r3.searchActivated, ours);
  }

  /** Deactivation leaves exactly the active tools that are not gone. */
  lemma DeactivateActive(r: Registry, gone: set<ToolName>, canUnregister: bool)
    ensures gone != {} ==> Deactivate(r, gone, canUnregister).active == Without(r.active, gone)
    ensures gone == {} ==> Deactivate(r, gone, canUnregister) == r
  {
    var unregistered := if canUnregister then gone * r.known else {};
    var kept := Without(r.active, unregistered);
    WithoutTwice(r.active, unregistered, gone);
    if |Without(kept, gone)| == |kept| {
      WithoutSameLength(kept, gone);
    }
  }

  // ----- Eager tools -----

  /** Name n is untouched: same activation, same standing with host and adapter. */
  ghost predicate SameFor(r: Registry, r1: Registry, n: ToolName) {
    && (n in r1.active <==> n in r.active) && (n in r1.known <==> n in r.known)
    && (n in r1.lazyTools <==> n in r.lazyTools) && (n in r1.fallbackDeactivated <==> n in r.fallbackDeactivated)
    && Lookup(r1.registered, n) == Lookup(r.registered, n)
  }

  lemma OneRegisteredSkips(r: Registry, spec: ToolSpec, r1: Registry, n: ToolName)
    requires OneRegistered(r, spec, r1) && n != spec.name
    ensures SameFor(r, r1, n)
  {
  }

  lemma {:induction false} RegisterAllSkips(r: Registry, specs: seq<ToolSpec>, n: ToolName)
    requires n !in Names(specs)
    ensures SameFor(r, RegisterAll(r, specs), n)
  {
    if specs != [] {
      var before, spec := specs[..|specs| - 1], specs[|specs| - 1];
      NamesStep(specs);
      RegisterAllSkips(r, before, n);
      RegisterSpecEffect(RegisterAll(r, before), spec);
      OneRegisteredSkips(RegisterAll(r, before), spec, RegisterAll(r, specs), n);
    }
  }

  lemma {:induction false} RegisterAllAt(r: Registry, specs: seq<ToolSpec>, i: nat)
    requires UniqueNames(specs) && i < |specs| && !specs[i].lazy
    ensures specs[i].name in RegisterAll(r, specs).active <==> specs[i].name in r.active || SwitchesOn(r, specs[i])
    decreases |specs|
  {
    var before, last := specs[..|specs| - 1], specs[|specs| - 1];
    RegisterSpecEffect(RegisterAll(r, before), last);
    if i < |before| {
      RegisterAllAt(r, before, i);
      OneRegisteredSkips(RegisterAll(r, before), last, RegisterAll(r, specs), specs[i].name);
    } else {
      assert last.name !in Names(before);
      RegisterAllSkips(r, before, last.name);
    }
  }

  /**
    An eager tool is active after a sync exactly when it was active before or the sync switches it
    on: it is new to the host, comes back after a fallback deactivation, or leaves search mode.
  */
  lemma EagerToolActivation(r: Registry, specs: seq<ToolSpec>, canUnregister: bool, i: nat)
    requires RegistryOk(r) && UniqueNames(specs) && i < |specs| && !specs[i].lazy
    ensures specs[i].name in Sync(r, specs, canUnregister).active
      <==> specs[i].name in r.active || SwitchesOn(r, specs[i])
  {
    RegisterAllAt(r, specs, i);
    RegisterAllKeeps(r, specs);
    var r1, n := RegisterAll(r, specs), specs[i].name;
    assert Lookup(r1.registered, n) == Some(specs[i]);
    RestLeavesEager(r1, r1.registered.Keys - Names(specs), n, canUnregister);
  }

  /** Forgetting, deactivating and holding leave an eager tool that is still registered alone. */
  lemma RestLeavesEager(r: Registry, gone: set<ToolName>, n: ToolName, canUnregister: bool)
    requires n !in gone && n !in r.lazyTools
    ensures n in HoldLazy(Deactivate(Forget(r, gone), gone, canUnregister)).active <==> n in r.active
  {
    var r2 := Forget(r, gone);
    var r3 := Deactivate(r2, gone, canUnregister);
    DeactivateActive(r2, gone, canUnregister);
    WithoutMembers(r2.active, gone);
    WithoutMembers(r3.active, r3.lazyTools - r3.searchActivated);
  }

  // ----- What a sync reports -----

  lemma {:induction false} ReportedNames(r: Registry, specs: seq<ToolSpec>, report: Report, n: ToolName)
    requires n in Reported(r, specs, report)
    ensures n in Names(specs)
  {
    NamesStep(specs);
    if n != specs[|specs| - 1].name {
      ReportedNames(r, specs[..|specs| - 1], report, n);
    }
  }

  /** A tool is reported as added, updated or not at all according to what was registered before the whole sync. */
  lemma {:induction false} ReportedExactly(r: Registry, specs: seq<ToolSpec>, report: Report, i: nat)
    requires UniqueNames(specs) && i < |specs|
    ensures specs[i].name in Reported(r, specs, report) <==>
      match report {
        case Added => specs[i].name !in r.registered
        case Updated => specs[i].name in r.registered && r.registered[specs[i].name] != specs[i]
        case Unchanged => specs[i].name in r.registered && r.registered[specs[i].name] == specs[i]
      }
  {
    var before, last := specs[..|specs| - 1], |specs| - 1;
    if i < last {
      ReportedExactly(r, before, report, i);
      assert before[i] == specs[i] && specs[last].name != specs[i].name;
    } else {
      forall j | 0 <= j < |before| ensures before[j].name != specs[i].name {
        assert before[j] == specs[j];
      }
      if specs[i].name in Reported(r, before, report) {
        ReportedNames(r, before, report, specs[i].name);
      }
      RegisterAllSkips(r, before, specs[i].name);
    }
  }

  // ----- Dropped and returning tools -----

  /** A tool that no spec has any more is inactive after the sync, on either kind of host. */
  lemma DroppedToolsAreInactive(r: Registry, specs: seq<ToolSpec>, canUnregister: bool, n: ToolName)
    requires RegistryOk(r) && UniqueNames(specs) && n in r.registered && n !in Names(specs)
    ensures n !in Sync(r, specs, canUnregister).active
  {
    RegisterAllKeeps(r, specs);
    var r1 := RegisterAll(r, specs);
    var gone := r1.registered.Keys - Names(specs);
    var r2 := Forget(r1, gone);
    var r3 := Deactivate(r2, gone, canUnregister);
    DeactivateActive(r2, gone, canUnregister);
    WithoutMembers(r2.active, gone);
    WithoutMembers(r3.active, r3.lazyTools - r3.searchActivated);
  }

  /** Deactivating an active tool leaves it so that registering it again will switch it on. */
  lemma DeactivatedReturns(r: Registry, gone: set<ToolName>, canUnregister: bool, n: ToolName)
    requires n in gone && n in r.active
    ensures var r' := Deactivate(r, gone, canUnregister); n !in r'.known || n in r'.fallbackDeactivated
  {
    var unregistered := if canUnregister then gone * r.known else {};
    var kept := Without(r.active, unregistered);
    WithoutMembers(r.active, unregistered);
    if n !in unregistered {
      WithoutMembers(kept, gone);
      if |Without(kept, gone)| == |kept| {
        WithoutSameLength(kept, gone);
      }
    }
  }

  /**
    A host that cannot unregister a tool is remembered to have it: exactly the tools it kept, and
    only when some tool was switched off or none was on.
  */
  lemma DeactivationIsRemembered(r: Registry, gone: set<ToolName>, canUnregister: bool, n: ToolName)
    requires n in gone
    ensures var r' := Deactivate(r, gone, canUnregister);
      var kept := Without(r.active, if canUnregister then gone * r.known else {});
      && (n in r'.known <==> n in r.known && !canUnregister)
      && (n in r'.fallbackDeactivated <==>
            n in r.fallbackDeactivated
            || ((n !in r.known || !canUnregister) && (kept == [] || exists g :: g in gone && g in kept)))
  {
    var kept := Without(r.active, if canUnregister then gone * r.known else {});
    WithoutMembers(kept, gone);
    if forall g | g in kept :: g !in gone {
      WithoutNone(kept, gone);
    } else if |Without(kept, gone)| == |kept| {
      WithoutSameLength(kept, gone);
    }
  }

  /** An active tool that one sync drops and the next brings back as an eager tool is active again. */
  lemma DroppedToolReturnsActive(r: Registry, without: seq<ToolSpec>, specs: seq<ToolSpec>, canUnregister: bool, i: nat)
    requires RegistryOk(r) && UniqueNames(without) && UniqueNames(specs) && i < |specs| && !specs[i].lazy
    requires specs[i].name in r.registered && specs[i].name in r.active && specs[i].name !in Names(without)
    ensures specs[i].name in Sync(Sync(r, without, canUnregister), specs, canUnregister).active
  {
    var n := specs[i].name;
    RegisterAllKeeps(r, without);
    RegisterAllSkips(r, without, n);
    SyncMirrors(r, without, canUnregister);
    var r1 := RegisterAll(r, without);
    var gone := r1.registered.Keys - Names(without);
    DeactivatedReturns(Forget(r1, gone), gone, canUnregister, n);
    EagerToolActivation(Sync(r, without, canUnregister), specs, canUnregister, i);
  }

  lemma {:induction false} RegisterAllKeepsSearched(r: Registry, specs: seq<ToolSpec>, n: ToolName)
    requires n in r.active && n in r.searchActivated && n !in Names(specs) - LazyNames(specs) && UniqueNames(specs)
    ensures n in RegisterAll(r, specs).active && n in RegisterAll(r, specs).searchActivated
  {
    if specs != [] {
      var before, last := specs[..|specs| - 1], specs[|specs| - 1];
      NamesStep(specs);
      assert n in Names(before) - LazyNames(before) ==> n in LazyNames(specs) - LazyNames(before);
      RegisterAllKeepsSearched(r, before, n);
      RegisterSpecEffect(RegisterAll(r, before), last);
    }
  }

  /** A search-mode tool that a search has activated stays active over a sync that keeps it in search mode. */
  lemma SearchedToolStaysActive(r: Registry, specs: seq<ToolSpec>, canUnregister: bool, n: ToolName)
    requires RegistryOk(r) && UniqueNames(specs) && n in LazyNames(specs)
    requires n in r.active && n in r.searchActivated
    ensures var r' := Sync(r, specs, canUnregister); n in r'.active && n in r'.searchActivated
  {
    RegisterAllKeepsSearched(r, specs, n);
    var r1 := RegisterAll(r, specs);
    var gone := r1.registered.Keys - Names(specs);
    var r2 := Forget(r1, gone);
    var r3 := Deactivate(r2, gone, canUnregister);
    assert n in Names(specs);
    DeactivateActive(r2, gone, canUnregister);
    WithoutMembers(r2.active, gone);
    WithoutMembers(r3.active, r3.lazyTools - r3.searchActivated);
  }

  // ----- Repeating a sync -----

  lemma {:induction false} WithoutNone(names: seq<ToolName>, drop: set<ToolName>)
    requires forall n | n in names :: n !in drop
    ensures Without(names, drop) == names
  {
    if names != [] {
      assert names == names[..|names| - 1] + [names[|names| - 1]];
      WithoutNone(names[..|names| - 1], drop);
    }
  }

  lemma {:induction false} RegisterAllAgain(r: Registry, all: seq<ToolSpec>, k: nat)
    requires Mirrors(r, all) && RegistryOk(r) && k <= |all|
    ensures RegisterAll(r, all[..k]) == r && Reported(r, all[..k], Added) == Reported(r, all[..k], Updated) == []
  {
    if k > 0 {
      RegisterAllAgain(r, all, k - 1);
      assert all[..k][..k - 1] == all[..k - 1];
      assert Lookup(r.registered, all[k - 1].name) == Some(all[k - 1]);
      assert all[k - 1].lazy ==> r.lazyTools + {all[k - 1].name} == r.lazyTools;
    }
  }

  lemma ForgetNothing(r: Registry, canUnregister: bool)
    requires forall n | n in r.active && n in r.lazyTools :: n in r.searchActivated
    ensures HoldLazy(Deactivate(Forget(r, {}), {}, canUnregister)) == r
  {
    assert Forget(r, {}) == r;
    WithoutNone(r.active, r.lazyTools - r.searchActivated);
  }

  /** A second sync with the same specs changes nothing: it registers no tool and deactivates none. */
  lemma SyncTwiceIsSyncOnce(r: Registry, specs: seq<ToolSpec>, canUnregister: bool)
    requires RegistryOk(r) && UniqueNames(specs)
    ensures var r' := Sync(r, specs, canUnregister);
      && Sync(r', specs, canUnregister) == r'
      && Reported(r', specs, Added) == Reported(r', specs, Updated) == []
      && RegisterAll(r', specs).registered.Keys - Names(specs) == {}
  {
    SyncMirrors(r, specs, canUnregister);
    SyncHoldsLazyTools(r, specs, canUnregister);
    var r' := Sync(r, specs, canUnregister);
    RegisterAllAgain(r', specs, |specs|);
    assert specs[..|specs|] == specs;
    ForgetNothing(r', canUnregister);
  }

  // ----- Searches -----

  lemma {:induction false} FoundMembers(r: Registry, matches: seq<Match>)
    ensures forall n | n in Found(r, matches) :: n in r.lazyTools && n in r.registered && n !in r.active
    ensures forall n | n in Found(r, matches) :: Match(r.registered[n].server, n) in matches
    ensures forall m | m in matches && Matches(r, m) :: m.tool in Found(r, matches)
    ensures Distinct(Found(r, matches))
  {
    if matches != [] {
      FoundMembers(r, matches[..|matches| - 1]);
      assert matches == matches[..|matches| - 1] + [matches[|matches| - 1]];
    }
  }

  /** A search only adds: lazy tools of the matched servers, each once, and it remembers every one it adds. */
  lemma SearchOnlyAdds(r: Registry, matches: seq<Match>)
    requires RegistryOk(r)
    ensures var r', added := Search(r, matches), Found(r, matches);
      && RegistryOk(r') && r'.registered == r.registered && r'.lazyTools == r.lazyTools
      && r'.active == r.active + added && Distinct(added)
      && (forall n | n in added :: n in r.lazyTools && n !in r.active)
      && (forall n | n in added :: Match(r.registered[n].server, n) in matches)
      && (forall m | m in matches && m.tool in r.lazyTools && r.registered[m.tool].server == m.server ::
            m.tool in r'.active)
      && (forall n :: n in r'.searchActivated <==> n in r.searchActivated || n in added)
  {
    FoundMembers(r, matches);
    forall m | m in matches && m.tool in r.lazyTools && r.registered[m.tool].server == m.server
      ensures m.tool in Search(r, matches).active
    {
      assert m.tool in r.active || Matches(r, m);
    }
  }

  // ----- Runs -----

  datatype Event =
    | SyncWith(specs: seq<ToolSpec>)
    | SearchFor(matches: seq<Match>)
    | HostChanges(known: set<ToolName>, active: seq<ToolName>)

  function Step(r: Registry, e: Event, canUnregister: bool): Registry {
    match e
    case SyncWith(specs) => Sync(r, specs, canUnregister)
    case SearchFor(matches) => Search(r, matches)
    case HostChanges(known, active) => r.(known := known, active := active)
  }

  function Run(known: set<ToolName>, active: seq<ToolName>, events: seq<Event>, canUnregister: bool): Registry {
    if events == [] then Registry(map[], {}, {}, {}, known, active)
    else Step(Run(known, active, events[..|events| - 1], canUnregister), events[|events| - 1], canUnregister)
  }

  lemma {:induction false} RunKeepsRegistry(
      known: set<ToolName>, active: seq<ToolName>, events: seq<Event>, canUnregister: bool)
    requires forall e | e in events && e.SyncWith? :: UniqueNames(e.specs)
    ensures RegistryOk(Run(known, active, events, canUnregister))
  {
    if events != [] {
      var before, e := events[..|events| - 1], events[|events| - 1];
      RunKeepsRegistry(known, active, before, canUnregister);
      var r := Run(known, active, before, canUnregister);
      match e {
        case SyncWith(specs) => SyncMirrors(r, specs, canUnregister);
        case SearchFor(matches) => SearchOnlyAdds(r, matches);
        case HostChanges(_, _) =>
      }
    }
  }

  /**
    After any syncs, mode flips, searches and changes the host makes on its own, a sync leaves the
    registered map equal to the spec list, the lazy set equal to its search-mode tools, no
    unsearched lazy tool active, and every foreign tool's activation alone; repeating it changes nothing.
  */
  lemma SyncAfterAnyRun(
    known: set<ToolName>, active: seq<ToolName>, events: seq<Event>, specs: seq<ToolSpec>, canUnregister: bool)
    requires UniqueNames(specs) && forall e | e in events && e.SyncWith? :: UniqueNames(e.specs)
    ensures var r := Run(known, active, events, canUnregister);
      var r' := Sync(r, specs, canUnregister);
      var ours := r.registered.Keys + Names(specs);
      && Mirrors(r', specs)
      && (forall n | n in r'.active && n in r'.lazyTools :: n in r'.searchActivated)
      && Without(r'.active, ours) == Without(r.active, ours)
      && Sync(r', specs, canUnregister) == r'
  {
    RunKeepsRegistry(known, active, events, canUnregister);
    var r := Run(known, active, events, canUnregister);
    SyncMirrors(r, specs, canUnregister);
    SyncHoldsLazyTools(r, specs, canUnregister);
    SyncLeavesOthers(r, specs, canUnregister);
    SyncTwiceIsSyncOnce(r, specs, canUnregister);
  }
}
