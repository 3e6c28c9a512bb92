/**
  The direct-tool surface (adapter/direct-tool-surface.ts) and its registration with the
  host (adapter/index.ts): which tool names a configuration claims, which are registered,
  which are held inactive until a search finds them, and what the host has active.
*/
module ToolRegistry {
  import opened Common

  type ToolName = string

  /** A resolved tool; the fields its fingerprint covers besides name, server and mode are in content. */
  datatype ToolSpec = ToolSpec(name: ToolName, server: string, content: string, lazy: bool)

  const BUILTIN_NAMES: set<ToolName> := {"read", "bash", "edit", "write", "grep", "find", "ls", "mcp"}

  // ----- Claiming names -----

  predicate UniqueNames(specs: seq<ToolSpec>) {
    forall i, j :: 0 <= i < j < |specs| ==> specs[i].name != specs[j].name
  }

  function Names(specs: seq<ToolSpec>): set<ToolName> {
    set i | 0 <= i < |specs| :: specs[i].name
  }

  function LazyNames(specs: seq<ToolSpec>): set<ToolName> {
    set i | 0 <= i < |specs| && specs[i].lazy :: specs[i].name
  }

  /** Candidates in server order; the first candidate of a name that no builtin has claims it. */
  function Claims(candidates: seq<ToolSpec>): (claims: seq<ToolSpec>)
    ensures UniqueNames(claims)
    ensures Names(claims) == Names(candidates) - BUILTIN_NAMES
  {
    if candidates == [] then []
    else
      var last := candidates[|candidates| - 1];
      var before := Claims(candidates[..|candidates| - 1]);
      NamesStep(candidates);
      if last.name in BUILTIN_NAMES || last.name in Names(before) then before
      else
        NamesAppend(before, last);
        before + [last]
  }

  lemma NamesAppend(specs: seq<ToolSpec>, spec: ToolSpec)
    ensures Names(specs + [spec]) == Names(specs) + {spec.name}
    ensures LazyNames(specs + [spec]) == LazyNames(specs) + if spec.lazy then {spec.name} else {}
  {
    var all := specs + [spec];
    assert all[|specs|] == spec;
    forall n | n in Names(specs) ensures n in Names(all) {
      var i :| 0 <= i < |specs| && specs[i].name == n;
      assert all[i].name == n;
    }
    forall n | n in LazyNames(specs) ensures n in LazyNames(all) {
      var i :| 0 <= i < |specs| && specs[i].lazy && specs[i].name == n;
      assert all[i].lazy && all[i].name == n;
    }
  }

  lemma NamesStep(specs: seq<ToolSpec>)
    requires specs != []
    ensures Names(specs) == Names(specs[..|specs| - 1]) + {specs[|specs| - 1].name}
    ensures LazyNames(specs) ==
      LazyNames(specs[..|specs| - 1]) + if specs[|specs| - 1].lazy then {specs[|specs| - 1].name} else {}
  {
    assert specs == specs[..|specs| - 1] + [specs[|specs| - 1]];
    NamesAppend(specs[..|specs| - 1], specs[|specs| - 1]);
  }

  function Available(specs: seq<ToolSpec>, unavailable: set<string>): seq<ToolSpec> {
    if specs == [] then []
    else
      var last := specs[|specs| - 1];
      Available(specs[..|specs| - 1], unavailable) + if last.server in unavailable then [] else [last]
  }

  /** resolveDirectTools over the candidates its filters let through. */
  method ResolveDirectTools(candidates: seq<ToolSpec>, unavailable: set<string>)
    returns (emitted: seq<ToolSpec>, reserved: set<ToolName>)
    ensures emitted == Available(Claims(candidates), unavailable)
    ensures reserved == Names(Claims(candidates))
  {
    var specs: seq<ToolSpec>, seen: set<ToolName> := [], {};
    for k := 0 to |candidates|
      invariant specs == Claims(candidates[..k])
      invariant seen == Names(specs)
    {
      assert candidates[..k + 1][..k] == candidates[..k];
      var spec := candidates[k];
      if spec.name in BUILTIN_NAMES {
        continue;
      }
      if spec.name in seen {
        continue;
      }
      NamesAppend(specs, spec);
      seen := seen + {spec.name};
      specs := specs + [spec];
    }
    assert candidates[..|candidates|] == candidates;
    reserved := seen;
    emitted := [];
    for k := 0 to |specs|
      invariant emitted == Available(specs[..k], unavailable)
    {
      assert specs[..k + 1][..k] == specs[..k];
      if specs[k].server !in unavailable {
        emitted := emitted + [specs[k]];
      }
    }
    assert specs[..|specs|] == specs;
  }

  // ----- Registration -----

  /** known and active are the host's; the others are the adapter's own maps and sets. */
  datatype Registry = Registry(
    registered: map<ToolName, ToolSpec>,
    lazyTools: set<ToolName>,
    searchActivated: set<ToolName>,
    fallbackDeactivated: set<ToolName>,
    known: set<ToolName>,
    active: seq<ToolName>)

  /** activeTools.filter((name) => !drop.has(name)) */
  function Without(names: seq<ToolName>, drop: set<ToolName>): seq<ToolName> {
    if names == [] then []
    else
      var last := names[|names| - 1];
      Without(names[..|names| - 1], drop) + if last in drop then [] else [last]
  }

  function Activate(r: Registry, name: ToolName): Registry {
    if name in r.active then r else r.(active := r.active + [name])
  }

  /** The host registers an unknown tool active and only replaces a known one. */
  function HostRegister(r: Registry, name: ToolName): Registry {
    if name in r.known then r else Activate(r.(known := r.known + {name}), name)
  }

  /** A spec whose fingerprint is new: registered with the host and, after a fallback deactivation, active again. */
  function RegisterNew(r: Registry, spec: ToolSpec): Registry {
    var n := spec.name;
    if Lookup(r.registered, n) == Some(spec) then r
    else
      var r0 := HostRegister(r, n).(registered := r.registered[n := spec]);
      if n !in r0.fallbackDeactivated then r0
      else
        var r1 := r0.(fallbackDeactivated := r0.fallbackDeactivated - {n});
        if spec.lazy then r1 else Activate(r1, n)
  }

  /** Search mode, or back to eager. */
  function SetMode(r: Registry, spec: ToolSpec): Registry {
    var n := spec.name;
    if spec.lazy then r.(lazyTools := r.lazyTools + {n})
    else if n in r.lazyTools then
      Activate(r.(lazyTools := r.lazyTools - {n}, searchActivated := r.searchActivated - {n}), n)
    else r
  }

  /** One spec of a sync. */
  function RegisterSpec(r: Registry, spec: ToolSpec): Registry {
    SetMode(RegisterNew(r, spec), spec)
  }

  function RegisterAll(r: Registry, specs: seq<ToolSpec>): Registry {
    if specs == [] then r else RegisterSpec(RegisterAll(r, specs[..|specs| - 1]), specs[|specs| - 1])
  }

  /** How a sync reports a spec. */
  datatype Report = Added | Updated | Unchanged

  function ReportOn(r: Registry, spec: ToolSpec): Report {
    if spec.name !in r.registered then Added else if r.registered[spec.name] == spec then Unchanged else Updated
  }

  /** The names of the specs a sync reports in a given way, in order. */
  function Reported(r: Registry, specs: seq<ToolSpec>, report: Report): seq<ToolName> {
    if specs == [] then []
    else
      var before, last := specs[..|specs| - 1], specs[|specs| - 1];
      Reported(r, before, report) + if ReportOn(RegisterAll(r, before), last) == report then [last.name] else []
  }

  function Forget(r: Registry, gone: set<ToolName>): Registry {
    r.(registered := r.registered - gone,
       lazyTools := r.lazyTools - gone,
       searchActivated := r.searchActivated - (gone * r.lazyTools))
  }

  /** deactivateTools; a host with unregisterTool drops the tools, any other only gets them inactive. */
  function Deactivate(r: Registry, gone: set<ToolName>, canUnregister: bool): Registry {
    if gone == {} then r
    else
      var unregistered := if canUnregister then gone * r.known else {};
      var r1 := r.(known := r.known - unregistered, active := Without(r.active, unregistered));
      var next := Without(r1.active, gone);
      if r1.active == [] || |next| != |r1.active| then
        r1.(active := next, fallbackDeactivated := r1.fallbackDeactivated + (gone - unregistered))
      else r1
  }

  function HoldLazy(r: Registry): Registry {
    if r.lazyTools == {} then r
    else r.(active := Without(r.active, r.lazyTools - r.searchActivated))
  }

  function Sync(r: Registry, specs: seq<ToolSpec>, canUnregister: bool): Registry {
    var r1 := RegisterAll(r, specs);
    var gone := r1.registered.Keys - Names(specs);
    HoldLazy(Deactivate(Forget(r1, gone), gone, canUnregister))
  }

  datatype Match = Match(server: string, tool: ToolName)

  predicate Matches(r: Registry, m: Match) {
    m.tool in r.lazyTools && m.tool in r.registered && r.registered[m.tool].server == m.server && m.tool !in r.active
  }

  /** The tools a search activates, in the order first matched. */
  function Found(r: Registry, matches: seq<Match>): seq<ToolName> {
    if matches == [] then []
    else
      var before, m := Found(r, matches[..|matches| - 1]), matches[|matches| - 1];
      if Matches(r, m) && m.tool !in before then before + [m.tool] else before
  }

  function Search(r: Registry, matches: seq<Match>): Registry {
    var added := Found(r, matches);
    r.(active := r.active + added, searchActivated := r.searchActivated + (set n | n in added))
  }

  // ----- The adapter as the program updates it -----

  class DirectTools {
    var registeredDirectTools: map<ToolName, ToolSpec>
    var lazyDirectTools: set<ToolName>
    var searchActivatedTools: set<ToolName>
    var fallbackDeactivatedTools: set<ToolName>
    var known: set<ToolName>
    var activeTools: seq<ToolName>
    const canUnregister: bool

    ghost function View(): Registry
      reads this
    {
      Registry(
        registeredDirectTools, lazyDirectTools, searchActivatedTools, fallbackDeactivatedTools, known, activeTools)
    }

    constructor (known: set<ToolName>, activeTools: seq<ToolName>, canUnregister: bool)
      ensures View() == Registry(map[], {}, {}, {}, known, activeTools) && this.canUnregister == canUnregister
    {
      registeredDirectTools, lazyDirectTools, searchActivatedTools, fallbackDeactivatedTools := map[], {}, {}, {};
      this.known, this.activeTools, this.canUnregister := known, activeTools, canUnregister;
    }

    method ActivateIfMissing(name: ToolName)
      modifies `activeTools
      ensures View() == Activate(old(View()), name)
    {
      if name !in activeTools {
        activeTools := activeTools + [name];
      }
    }

    method RegisterDirectTool(spec: ToolSpec)
      modifies `known, `activeTools
      ensures View() == HostRegister(old(View()), spec.name)
    {
      if spec.name !in known {
        known := known + {spec.name};
        ActivateIfMissing(spec.name);
      }
    }

    method FilterActive(drop: set<ToolName>)
      modifies `activeTools
      ensures activeTools == Without(old(activeTools), drop)
    {
      var next: seq<ToolName> := [];
      for i := 0 to |activeTools|
        invariant activeTools == old(activeTools)
        invariant next == Without(activeTools[..i], drop)
      {
        assert activeTools[..i + 1][..i] == activeTools[..i];
        if activeTools[i] !in drop {
          next := next + [activeTools[i]];
        }
      }
      assert activeTools[..|activeTools|] == activeTools;
      activeTools := next;
    }

    method HoldLazyToolsInactive()
      modifies `activeTools
      ensures View() == HoldLazy(old(View()))
    {
      if lazyDirectTools != {} {
        FilterActive(lazyDirectTools - searchActivatedTools);
      }
    }

    method DeactivateTools(gone: set<ToolName>) returns (unregistered: set<ToolName>)
      modifies `known, `activeTools, `fallbackDeactivatedTools
      ensures View() == Deactivate(old(View()), gone, canUnregister)
      ensures unregistered == if canUnregister then gone * old(known) else {}
    {
      unregistered := {};
      if gone == {} {
        return;
      }
      unregistered := if canUnregister then gone * known else {};
      known := known - unregistered;
      FilterActive(unregistered);
      var before := activeTools;
      FilterActive(gone);
      if before == [] || |activeTools| != |before| {
        fallbackDeactivatedTools := fallbackDeactivatedTools + (gone - unregistered);
      } else {
        WithoutSameLength(before, gone);
      }
    }

    /** One turn of the loop over the specs, and how it is reported. */
    method SyncOne(spec: ToolSpec) returns (report: Report)
      modifies this
      ensures View() == RegisterSpec(old(View()), spec)
      ensures report == ReportOn(old(View()), spec)
    {
      report := Unchanged;
      var previous := Lookup(registeredDirectTools, spec.name);
      if previous != Some(spec) {
        report := if previous.Some? then Updated else Added;
        RegisterDirectTool(spec);
        registeredDirectTools := registeredDirectTools[spec.name := spec];
        if spec.name in fallbackDeactivatedTools {
          fallbackDeactivatedTools := fallbackDeactivatedTools - {spec.name};
          if !spec.lazy {
            ActivateIfMissing(spec.name);
          }
        }
      }
      if spec.lazy {
        lazyDirectTools := lazyDirectTools + {spec.name};
      } else if spec.name in lazyDirectTools {
        lazyDirectTools := lazyDirectTools - {spec.name};
        searchActivatedTools := searchActivatedTools - {spec.name};
        ActivateIfMissing(spec.name);
      }
    }

    /** The loop over the registered names that no spec has any more. */
    method ForgetAll(gone: set<ToolName>)
      modifies `registeredDirectTools, `lazyDirectTools, `searchActivatedTools
      ensures View() == Forget(old(View()), gone)
    {
      var todo, forgotten := gone, {};
      while todo != {}
        invariant forgotten + todo == gone && forgotten !! todo
        invariant View() == Forget(old(View()), forgotten)
        decreases todo
      {
        var name :| name in todo;
        todo, forgotten := todo - {name}, forgotten + {name};
        registeredDirectTools := registeredDirectTools - {name};
        if name in lazyDirectTools {
          lazyDirectTools := lazyDirectTools - {name};
          searchActivatedTools := searchActivatedTools - {name};
        }
      }
    }

    method SyncDirectTools(specs: seq<ToolSpec>)
      returns (added: seq<ToolName>, updated: seq<ToolName>, deactivated: set<ToolName>)
      modifies this
      ensures View() == Sync(old(View()), specs, canUnregister)
      ensures added == Reported(old(View()), specs, Added)
      ensures updated == Reported(old(View()), specs, Updated)
      ensures deactivated == RegisterAll(old(View()), specs).registered.Keys - Names(specs)
    {
      added, updated := [], [];
      for k := 0 to |specs|
        invariant View() == RegisterAll(old(View()), specs[..k])
        invariant added == Reported(old(View()), specs[..k], Added)
        invariant updated == Reported(old(View()), specs[..k], Updated)
      {
        assert specs[..k + 1][..k] == specs[..k];
        var report := SyncOne(specs[k]);
        if report == Added {
          added := added + [specs[k].name];
        } else if report == Updated {
          updated := updated + [specs[k].name];
        }
      }
      assert specs[..|specs|] == specs;
      deactivated := registeredDirectTools.Keys - Names(specs);
      ForgetAll(deactivated);
      var _ := DeactivateTools(deactivated);
      HoldLazyToolsInactive();
    }

    method ActivateSearchMatches(matches: seq<Match>) returns (added: seq<ToolName>)
      modifies `activeTools, `searchActivatedTools
      ensures View() == Search(old(View()), matches)
      ensures added == Found(old(View()), matches)
    {
      added := [];
      for k := 0 to |matches|
        invariant added == Found(old(View()), matches[..k])
        invariant View() == old(View())
      {
        assert matches[..k + 1][..k] == matches[..k];
        var name := matches[k].tool;
        if name !in lazyDirectTools || name !in registeredDirectTools
          || registeredDirectTools[name].server != matches[k].server
        {
          continue;
        }
        if name in activeTools || name in added {
          continue;
        }
        added := added + [name];
      }
      assert matches[..|matches|] == matches;
      activeTools := activeTools + added;
      searchActivatedTools := searchActivatedTools + (set n | n in added);
    }
  }

  lemma {:induction false} WithoutMembers(names: seq<ToolName>, drop: set<ToolName>)
    ensures forall n :: n in Without(names, drop) <==> n in names && n !in drop
  {
    if names != [] {
      WithoutMembers(names[..|names| - 1], drop);
      assert names == names[..|names| - 1] + [names[|names| - 1]];
    }
  }

  /** Nothing was dropped when the length did not change. */
  lemma {:induction false} WithoutSameLength(names: seq<ToolName>, drop: set<ToolName>)
    requires |Without(names, drop)| == |names|
    ensures Without(names, drop) == names
  {
    if names != [] {
      var before := names[..|names| - 1];
      WithoutLength(before, drop);
      WithoutSameLength(before, drop);
      assert names == before + [names[|names| - 1]];
    }
  }

  lemma {:induction false} WithoutLength(names: seq<ToolName>, drop: set<ToolName>)
    ensures |Without(names, drop)| <= |names|
  {
    if names != [] {
      WithoutLength(names[..|names| - 1], drop);
    }
  }
}
