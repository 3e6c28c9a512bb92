/**
  The order in which loadMcpConfig (adapter/config.ts) merges its sources: Claude plugin
  defaults, packages, Agent Plugins and discovered host files below the configuration files,
  each of which lies above the files it imports.
*/
module LoadOrder {
  import opened Common
  import opened ConfigMerge
  import opened DisabledOverride

  type ServerMap = map<string, Entry>

  /** A configuration file that could be read; an import that could not is None. */
  datatype SourceFile = SourceFile(imports: seq<Option<ServerMap>>, servers: ServerMap)

  /**
    What a load finds. order: the names as the merged object enumerates them; namespace:
    formatServerNamespace.
  */
  datatype Inputs = Inputs(
    exclusive: bool,
    discovery: bool,
    hosts: seq<Option<ServerMap>>,
    sources: seq<Option<SourceFile>>,
    packages: ServerMap,
    plugins: ServerMap,
    claude: ServerMap,
    namespace: string -> string,
    order: seq<string>)

  // ----- One server's merge tree -----

  function EntryIn(servers: Option<ServerMap>, name: string): Option<Entry> {
    if servers.None? then None else Lookup(servers.value, name)
  }

  function OrElse(first: Option<Entry>, second: Option<Entry>): Option<Entry> {
    if first.Some? then first else second
  }

  /** The first import that has the server. */
  function FirstImport(imports: seq<Option<ServerMap>>, name: string): Option<Entry> {
    if imports == [] then None
    else
      OrElse(FirstImport(imports[..|imports| - 1], name), EntryIn(imports[|imports| - 1], name))
  }

  /** A source's imported and own entry. */
  function PairIn(source: Option<SourceFile>, name: string): (Option<Entry>, Option<Entry>) {
    if source.None? then (None, None) else (FirstImport(source.value.imports, name), Lookup(source.value.servers, name))
  }

  function HostTree(hosts: seq<Option<ServerMap>>, name: string): Tree {
    if hosts == [] then Layer(None)
    else Merge(HostTree(hosts[..|hosts| - 1], name), Layer(EntryIn(hosts[|hosts| - 1], name)))
  }

  function FileTree(base: Tree, sources: seq<Option<SourceFile>>, name: string): Tree {
    if sources == [] then base
    else
      var pair := PairIn(sources[|sources| - 1], name);
      Merge(FileTree(base, sources[..|sources| - 1], name), Merge(Layer(pair.0), Layer(pair.1)))
  }

  /** Host files are loaded only when discovery is on, and never in exclusive mode. */
  function BaseTree(inputs: Inputs, name: string): Tree {
    if inputs.exclusive || !inputs.discovery then Layer(None) else HostTree(inputs.hosts, name)
  }

  function FilesTree(inputs: Inputs, name: string): Tree {
    FileTree(BaseTree(inputs, name), inputs.sources, name)
  }

  /** A package's server is used unless an Agent Plugin has one of that name. */
  function PackageEntry(inputs: Inputs, name: string): Option<Entry> {
    if name in inputs.plugins then None else Lookup(inputs.packages, name)
  }

  function HigherTree(inputs: Inputs, name: string): Tree {
    if inputs.exclusive then FilesTree(inputs, name)
    else Merge(Layer(PackageEntry(inputs, name)), Merge(Layer(Lookup(inputs.plugins, name)), FilesTree(inputs, name)))
  }

  /** The last of the higher servers whose name normalizes to this namespace. */
  function Holder(inputs: Inputs, order: seq<string>, namespace: string): Option<string> {
    if order == [] then None
    else
      var last := order[|order| - 1];
      if Effective(HigherTree(inputs, last)).Some? && inputs.namespace(last) == namespace then Some(last)
      else Holder(inputs, order[..|order| - 1], namespace)
  }

  /** A Claude plugin's server, unless a higher server of another name has its namespace. */
  function ClaudeEntry(inputs: Inputs, name: string): Option<Entry> {
    var holder := Holder(inputs, inputs.order, inputs.namespace(name));
    if holder in {None, Some(name)} then Lookup(inputs.claude, name) else None
  }

  function LoadTree(inputs: Inputs, name: string): Tree {
    Merge(Layer(ClaudeEntry(inputs, name)), HigherTree(inputs, name))
  }

  // ----- Loading -----

  /** Only a layer's fields and its marks on them matter when it is merged. */
  lemma MarkedAlike(base: Entry, d: Entry, e: Entry)
    requires d.fields == e.fields && forall f :: Marked(d, f) <==> Marked(e, f)
    ensures MergeMarked(base, d) == MergeMarked(base, e)
  {
    assert forall f :: Marked(if f in d.fields then d else base, f) <==> Marked(if f in e.fields then e else base, f);
  }

  /** Merging a layer that was itself merged onto nothing is merging the layer. */
  lemma MergeExpanded(lower: Option<Entry>, d: Option<Entry>)
    ensures MergeOption(lower, MergeOption(None, d)) == MergeOption(lower, d)
  {
    if d.Some? {
      var expanded := MergeMarked(EMPTY, d.value);
      assert expanded.fields == d.value.fields;
      assert forall f :: Marked(expanded, f) <==> Marked(d.value, f);
      if lower.Some? {
        var base := Entry(lower.value.fields - Strips(lower.value, d.value), lower.value.literal);
        assert Strips(lower.value, expanded) == Strips(lower.value, d.value);
        MarkedAlike(base, expanded, d.value);
      } else {
        MarkedAlike(EMPTY, expanded, d.value);
      }
    }
  }

  function Expanded(source: SourceFile, name: string): Option<Entry> {
    if source.imports == [] then Lookup(source.servers, name)
    else MergeOption(FirstImport(source.imports, name), Lookup(source.servers, name))
  }

  /** expandImports: an earlier import wins, and the file's own servers are merged onto its imports'. */
  method ExpandImports(source: SourceFile) returns (servers: ServerMap)
    ensures forall name :: Lookup(servers, name) == Expanded(source, name)
  {
    if source.imports == [] {
      return source.servers;
    }
    var imported: ServerMap := map[];
    for i := 0 to |source.imports|
      invariant forall name :: Lookup(imported, name) == FirstImport(source.imports[..i], name)
    {
      assert source.imports[..i + 1][..i] == source.imports[..i];
      if source.imports[i].Some? {
        imported := AddMissing(imported, source.imports[i].value);
      }
    }
    assert source.imports[..|source.imports|] == source.imports;
    servers := MergeServerMaps(imported, source.servers);
  }

  /** The inner loop: names that are not there yet. */
  method AddMissing(base: ServerMap, more: ServerMap) returns (servers: ServerMap)
    ensures forall name :: Lookup(servers, name) == OrElse(Lookup(base, name), Lookup(more, name))
  {
    servers := base;
    var todo := more.Keys;
    while todo != {}
      invariant todo <= more.Keys
      invariant forall name | name in todo :: Lookup(servers, name) == Lookup(base, name)
      invariant forall name | name !in todo :: Lookup(servers, name) == OrElse(Lookup(base, name), Lookup(more, name))
      decreases todo
    {
      var name :| name in todo;
      todo := todo - {name};
      if name !in servers {
        servers := servers[name := more[name]];
      }
    }
  }

  /** loadDiscoveredHostConfigs: later host files win. */
  method LoadHosts(hosts: seq<Option<ServerMap>>) returns (servers: ServerMap)
    ensures forall name :: Lookup(servers, name) == Effective(HostTree(hosts, name))
  {
    servers := map[];
    for i := 0 to |hosts|
      invariant forall name :: Lookup(servers, name) == Effective(HostTree(hosts[..i], name))
    {
      assert hosts[..i + 1][..i] == hosts[..i];
      if hosts[i].Some? {
        servers := MergeServerMaps(servers, hosts[i].value);
      }
    }
    assert hosts[..|hosts|] == hosts;
  }

  /** The loop over the configuration files. */
  method LoadFiles(inputs: Inputs) returns (servers: ServerMap)
    ensures forall name :: Lookup(servers, name) == Effective(FilesTree(inputs, name))
  {
    servers := map[];
    if !inputs.exclusive && inputs.discovery {
      servers := LoadHosts(inputs.hosts);
    }
    ghost var base := servers;
    for i := 0 to |inputs.sources|
      invariant forall name ::
        Lookup(servers, name) == Effective(FileTree(Layer(Lookup(base, name)), inputs.sources[..i], name))
    {
      assert inputs.sources[..i + 1] == inputs.sources[..i] + [inputs.sources[i]];
      if inputs.sources[i].Some? {
        var source := inputs.sources[i].value;
        var expanded := ExpandImports(source);
        ghost var lower := servers;
        servers := MergeServerMaps(servers, expanded);
        forall name
          ensures Lookup(servers, name) == Effective(FileTree(Layer(Lookup(base, name)), inputs.sources[..i + 1], name))
        {
          MergeExpanded(Lookup(lower, name), Lookup(source.servers, name));
          FileTreeStep(Layer(Lookup(base, name)), inputs.sources[..i], inputs.sources[i], name);
        }
      } else {
        forall name
          ensures Lookup(servers, name) == Effective(FileTree(Layer(Lookup(base, name)), inputs.sources[..i + 1], name))
        {
          FileTreeStep(Layer(Lookup(base, name)), inputs.sources[..i], None, name);
        }
      }
    }
    assert inputs.sources[..|inputs.sources|] == inputs.sources;
    forall name ensures Lookup(servers, name) == Effective(FilesTree(inputs, name)) {
      SameBase(Layer(Lookup(base, name)), BaseTree(inputs, name), inputs.sources, name);
    }
  }

  lemma FileTreeStep(base: Tree, sources: seq<Option<SourceFile>>, source: Option<SourceFile>, name: string)
    ensures var pair := PairIn(source, name);
      Effective(FileTree(base, sources + [source], name))
        == MergeOption(Effective(FileTree(base, sources, name)), MergeOption(pair.0, pair.1))
  {
    var pair := PairIn(source, name);
    assert (sources + [source])[..|sources|] == sources;
    assert Effective(Merge(Layer(pair.0), Layer(pair.1))) == MergeOption(pair.0, pair.1);
  }

  lemma {:induction false} SameBase(a: Tree, b: Tree, sources: seq<Option<SourceFile>>, name: string)
    requires Effective(a) == Effective(b)
    ensures Effective(FileTree(a, sources, name)) == Effective(FileTree(b, sources, name))
  {
    if sources != [] {
      SameBase(a, b, sources[..|sources| - 1], name);
    }
  }

  /** loadMcpConfig: every server of the loaded configuration has the entry of its own tree. */
  method LoadMcpConfig(inputs: Inputs) returns (servers: ServerMap)
    ensures forall name :: Lookup(servers, name) == Effective(LoadTree(inputs, name))
  {
    var higher := LoadFiles(inputs);
    if !inputs.exclusive {
      var packageServers := map name | name in inputs.packages && name !in inputs.plugins :: inputs.packages[name];
      var upper := MergeServerMaps(inputs.plugins, higher);
      higher := MergeServerMaps(packageServers, upper);
      forall name ensures Lookup(higher, name) == Effective(HigherTree(inputs, name)) {
        assert Lookup(packageServers, name) == PackageEntry(inputs, name);
        assert Lookup(upper, name) == Effective(Merge(Layer(Lookup(inputs.plugins, name)), FilesTree(inputs, name)));
      }
    }
    servers := MergeClaudeDefaults(inputs, higher);
  }

  /** mergeClaudePluginMcpDefaults */
  method MergeClaudeDefaults(inputs: Inputs, higher: ServerMap) returns (servers: ServerMap)
    requires forall name :: Lookup(higher, name) == Effective(HigherTree(inputs, name))
    ensures forall name :: Lookup(servers, name) == Effective(LoadTree(inputs, name))
  {
    var higherNames: map<string, string> := map[];
    for i := 0 to |inputs.order|
      invariant forall namespace :: Lookup(higherNames, namespace) == Holder(inputs, inputs.order[..i], namespace)
    {
      assert inputs.order[..i + 1][..i] == inputs.order[..i];
      var name := inputs.order[i];
      assert name in higher <==> Lookup(higher, name).Some?;
      if name in higher {
        higherNames := higherNames[inputs.namespace(name) := name];
      }
    }
    assert inputs.order[..|inputs.order|] == inputs.order;
    var defaults := map name | name in inputs.claude
      && (inputs.namespace(name) !in higherNames || higherNames[inputs.namespace(name)] == name) :: inputs.claude[name];
    servers := MergeServerMaps(defaults, higher);
    forall name ensures Lookup(defaults, name) == ClaudeEntry(inputs, name) {
      assert Lookup(higherNames, inputs.namespace(name)) == Holder(inputs, inputs.order, inputs.namespace(name));
    }
  }

  // ----- The layers in order of precedence -----

  function HostLayers(hosts: seq<Option<ServerMap>>, name: string): seq<Option<Entry>> {
    if hosts == [] then [] else HostLayers(hosts[..|hosts| - 1], name) + [EntryIn(hosts[|hosts| - 1], name)]
  }

  function FileLayers(sources: seq<Option<SourceFile>>, name: string): seq<Option<Entry>> {
    if sources == [] then []
    else
      var pair := PairIn(sources[|sources| - 1], name);
      FileLayers(sources[..|sources| - 1], name) + [pair.0, pair.1]
  }

  function PluginLayers(inputs: Inputs, name: string): seq<Option<Entry>> {
    if inputs.exclusive then [] else [PackageEntry(inputs, name), Lookup(inputs.plugins, name)]
  }

  /** The layers below the configuration files, which the override writer does not consult. */
  function HiddenLayers(inputs: Inputs, name: string): seq<Option<Entry>> {
    [ClaudeEntry(inputs, name)] + PluginLayers(inputs, name) + HostLayers(UsedHosts(inputs), name)
  }

  lemma {:induction false} HostFlag(hosts: seq<Option<ServerMap>>, name: string)
    ensures Flag(Effective(HostTree(hosts, name))) == LastFlag(HostLayers(hosts, name))
  {
    if hosts != [] {
      var last := EntryIn(hosts[|hosts| - 1], name);
      HostFlag(hosts[..|hosts| - 1], name);
      MergedFlag(Effective(HostTree(hosts[..|hosts| - 1], name)), last);
      LastFlagAppend(HostLayers(hosts[..|hosts| - 1], name), [last]);
      assert [last][..0] == [];
    }
  }

  lemma ConsFlag(first: Option<Entry>, rest: seq<Option<Entry>>)
    ensures LastFlag([first] + rest) == if LastFlag(rest).Some? then LastFlag(rest) else Flag(first)
  {
    LastFlagAppend([first], rest);
    assert [first][..0] == [];
  }

  /** Merging one entry below another puts a layer below the other's layers. */
  lemma MergeBelowFlag(lower: Option<Entry>, higher: Option<Entry>, layers: seq<Option<Entry>>)
    requires Flag(higher) == LastFlag(layers)
    ensures Flag(MergeOption(lower, higher)) == LastFlag([lower] + layers)
  {
    MergedFlag(lower, higher);
    ConsFlag(lower, layers);
  }

  lemma PairFlag(pair: (Option<Entry>, Option<Entry>))
    ensures LastFlag([pair.0, pair.1]) == if Flag(pair.1).Some? then Flag(pair.1) else Flag(pair.0)
  {
    ConsFlag(pair.1, []);
    ConsFlag(pair.0, [pair.1]);
    assert [pair.1] + [] == [pair.1] && [pair.0] + [pair.1] == [pair.0, pair.1];
  }

  lemma {:induction false} FileFlag(base: Tree, sources: seq<Option<SourceFile>>, name: string)
    ensures var layers := LastFlag(FileLayers(sources, name));
      Flag(Effective(FileTree(base, sources, name))) == if layers.Some? then layers else Flag(Effective(base))
  {
    if sources != [] {
      var front, pair := sources[..|sources| - 1], PairIn(sources[|sources| - 1], name);
      FileFlag(base, front, name);
      MergedFlag(pair.0, pair.1);
      MergedFlag(Effective(FileTree(base, front, name)), MergeOption(pair.0, pair.1));
      assert Effective(Merge(Layer(pair.0), Layer(pair.1))) == MergeOption(pair.0, pair.1);
      PairFlag(pair);
      LastFlagAppend(FileLayers(front, name), [pair.0, pair.1]);
    }
  }

  /** The discovered host files that take part in a load. */
  function UsedHosts(inputs: Inputs): seq<Option<ServerMap>> {
    if inputs.exclusive || !inputs.discovery then [] else inputs.hosts
  }

  lemma FilesFlag(inputs: Inputs, name: string)
    ensures Flag(Effective(FilesTree(inputs, name)))
      == LastFlag(HostLayers(UsedHosts(inputs), name) + FileLayers(inputs.sources, name))
  {
    HostFlag(UsedHosts(inputs), name);
    assert UsedHosts(inputs) == [] ==> HostTree(UsedHosts(inputs), name) == Layer(None);
    FileFlag(HostTree(UsedHosts(inputs), name), inputs.sources, name);
    LastFlagAppend(HostLayers(UsedHosts(inputs), name), FileLayers(inputs.sources, name));
    SameBase(BaseTree(inputs, name), HostTree(UsedHosts(inputs), name), inputs.sources, name);
  }

  function HigherLayers(inputs: Inputs, name: string): seq<Option<Entry>> {
    PluginLayers(inputs, name) + (HostLayers(UsedHosts(inputs), name) + FileLayers(inputs.sources, name))
  }

  lemma HigherFlag(inputs: Inputs, name: string)
    ensures Flag(Effective(HigherTree(inputs, name))) == LastFlag(HigherLayers(inputs, name))
  {
    var files := HostLayers(UsedHosts(inputs), name) + FileLayers(inputs.sources, name);
    FilesFlag(inputs, name);
    if inputs.exclusive {
      assert [] + files == files;
    } else {
      HigherIs(inputs, name);
      TwoBelowFlag(PackageEntry(inputs, name), Lookup(inputs.plugins, name), Effective(FilesTree(inputs, name)), files);
    }
  }

  lemma TwoBelowFlag(low: Option<Entry>, middle: Option<Entry>, higher: Option<Entry>, layers: seq<Option<Entry>>)
    requires Flag(higher) == LastFlag(layers)
    ensures Flag(MergeOption(low, MergeOption(middle, higher))) == LastFlag([low, middle] + layers)
  {
    PrependBoth(low, middle, layers);
    MergeBelowFlag(middle, higher, layers);
    MergeBelowFlag(low, MergeOption(middle, higher), [middle] + layers);
  }

  lemma PrependBoth<T>(a: T, b: T, rest: seq<T>)
    ensures [a] + ([b] + rest) == [a, b] + rest
  {
  }

  lemma HigherIs(inputs: Inputs, name: string)
    requires !inputs.exclusive
    ensures Effective(HigherTree(inputs, name))
      == MergeOption(PackageEntry(inputs, name),
                     MergeOption(Lookup(inputs.plugins, name), Effective(FilesTree(inputs, name))))
  {
    var upper := Merge(Layer(Lookup(inputs.plugins, name)), FilesTree(inputs, name));
    assert Effective(upper) == MergeOption(Lookup(inputs.plugins, name), Effective(FilesTree(inputs, name)));
  }

  lemma LoadIs(inputs: Inputs, name: string)
    ensures Effective(LoadTree(inputs, name))
      == MergeOption(ClaudeEntry(inputs, name), Effective(HigherTree(inputs, name)))
  {
  }

  lemma Regroup<T>(a: seq<T>, b: seq<T>, c: seq<T>, d: seq<T>)
    ensures a + b + c + d == a + (b + (c + d))
  {
  }

  /** In every load a server's flag is that of the highest layer that has one. */
  lemma LoadedFlag(inputs: Inputs, name: string)
    ensures Flag(Effective(LoadTree(inputs, name)))
      == LastFlag(HiddenLayers(inputs, name) + FileLayers(inputs.sources, name))
  {
    HigherFlag(inputs, name);
    MergeBelowFlag(ClaudeEntry(inputs, name), Effective(HigherTree(inputs, name)), HigherLayers(inputs, name));
    LoadIs(inputs, name);
    Regroup([ClaudeEntry(inputs, name)], PluginLayers(inputs, name), HostLayers(UsedHosts(inputs), name),
      FileLayers(inputs.sources, name));
  }

  // ----- Who wins -----

  /** An import counts for a server exactly when it is the first that has it. */
  lemma {:induction false} FirstImportExactly(imports: seq<Option<ServerMap>>, name: string, e: Entry)
    ensures FirstImport(imports, name) == Some(e) <==>
      exists i :: 0 <= i < |imports| && imports[i].Some? && name in imports[i].value && imports[i].value[name] == e
        && forall j | 0 <= j < i :: imports[j].None? || name !in imports[j].value
    ensures FirstImport(imports, name).None? <==>
      forall i | 0 <= i < |imports| :: imports[i].None? || name !in imports[i].value
  {
    if imports != [] {
      var front := imports[..|imports| - 1];
      FirstImportExactly(front, name, e);
      assert forall i | 0 <= i < |front| :: front[i] == imports[i];
    }
  }

  /** A higher server holds its namespace exactly when no later one has the same. */
  lemma {:induction false} HolderExactly(inputs: Inputs, order: seq<string>, namespace: string, h: string)
    ensures Holder(inputs, order, namespace) == Some(h) <==>
      exists i :: 0 <= i < |order| && order[i] == h && Holds(inputs, h, namespace)
        && forall j | i < j < |order| :: !Holds(inputs, order[j], namespace)
    ensures Holder(inputs, order, namespace).None?
      <==> forall i | 0 <= i < |order| :: !Holds(inputs, order[i], namespace)
  {
    if order != [] {
      var front := order[..|order| - 1];
      HolderExactly(inputs, front, namespace, h);
      assert forall i | 0 <= i < |front| :: front[i] == order[i];
    }
  }

  /** The server is a higher one, and has this namespace. */
  predicate Holds(inputs: Inputs, name: string, namespace: string) {
    Effective(HigherTree(inputs, name)).Some? && inputs.namespace(name) == namespace
  }

  /** A Claude plugin's server is used exactly when the last higher server of its namespace, if any, has its name. */
  lemma ClaudeEntryExactly(inputs: Inputs, name: string)
    requires name in inputs.claude
    ensures ClaudeEntry(inputs, name) == Some(inputs.claude[name]) <==>
      var order, namespace := inputs.order, inputs.namespace(name);
      forall i | 0 <= i < |order| && order[i] != name && Holds(inputs, order[i], namespace) ::
        exists j :: i < j < |order| && order[j] == name && Holds(inputs, name, namespace)
    ensures ClaudeEntry(inputs, name) in {None, Some(inputs.claude[name])}
  {
    var namespace := inputs.namespace(name);
    var holder := Holder(inputs, inputs.order, namespace);
    HolderExactly(inputs, inputs.order, namespace, name);
    if holder.Some? {
      HolderExactly(inputs, inputs.order, namespace, holder.value);
    }
  }

  /** An Agent Plugin's server hides a package's of the same name altogether; any other package's server is loaded. */
  lemma PluginHidesPackage(inputs: Inputs, packages: ServerMap, name: string)
    ensures name in inputs.plugins ==>
      HigherTree(inputs.(packages := inputs.packages - {name}), name) == HigherTree(inputs, name)
    ensures !inputs.exclusive && name in inputs.packages ==> Effective(HigherTree(inputs, name)).Some?
    ensures inputs.exclusive ==> HigherTree(inputs.(packages := packages), name) == HigherTree(inputs, name)
    ensures inputs.exclusive || !inputs.discovery ==> HigherTree(inputs.(hosts := []), name) == HigherTree(inputs, name)
  {
    var fewer := inputs.(packages := inputs.packages - {name});
    assert FilesTree(fewer, name) == FilesTree(inputs, name);
    assert FilesTree(inputs.(packages := packages), name) == FilesTree(inputs, name);
    if inputs.exclusive || !inputs.discovery {
      assert FilesTree(inputs.(hosts := []), name) == FilesTree(inputs, name);
    }
    if !inputs.exclusive {
      HigherIs(inputs, name);
    }
  }
}
