/**
  What loadMcpConfig makes of a server's disabled flag once writeProjectServerDisabledOverride
  has written it (adapter/config.ts): the flag itself, the server's other fields, and every
  other server.
*/
module OverrideReload {
  import opened Common
  import opened ConfigMerge
  import opened DisabledOverride
  import opened LoadOrder

  // ----- The flag -----

  function Pairs(sources: seq<Option<SourceFile>>, name: string): seq<(Option<Entry>, Option<Entry>)> {
    if sources == [] then [] else Pairs(sources[..|sources| - 1], name) + [PairIn(sources[|sources| - 1], name)]
  }

  lemma {:induction false} PairsFlag(sources: seq<Option<SourceFile>>, name: string)
    ensures LastFlag(Leaves(SourcesTree(Pairs(sources, name)))) == LastFlag(FileLayers(sources, name))
  {
    if sources == [] {
      assert [Option<Entry>.None][..0] == [];
    } else {
      var front, pair := sources[..|sources| - 1], PairIn(sources[|sources| - 1], name);
      var tree := SourcesTree(Pairs(front, name));
      PairsFlag(front, name);
      SourcesTreeStep(Pairs(front, name), pair);
      LastFlagAppend(Leaves(tree), [pair.0, pair.1]);
      LastFlagAppend(FileLayers(front, name), [pair.0, pair.1]);
    }
  }

  lemma SourcesTreeStep(pairs: seq<(Option<Entry>, Option<Entry>)>, pair: (Option<Entry>, Option<Entry>))
    ensures Leaves(SourcesTree(pairs + [pair])) == Leaves(SourcesTree(pairs)) + [pair.0, pair.1]
  {
    assert (pairs + [pair])[..|pairs|] == pairs;
    assert Leaves(Merge(Layer(pair.0), Layer(pair.1))) == [pair.0] + [pair.1] == [pair.0, pair.1];
  }

  /** What the writer finds below the project file. */
  function Below(others: seq<Option<SourceFile>>, imports: seq<Option<ServerMap>>, name: string): Option<Entry> {
    MergeOption(LowerSources(Pairs(others, name)), FirstImport(imports, name))
  }

  /** The layers the writer consults. */
  function VisibleLayers(
      others: seq<Option<SourceFile>>, imports: seq<Option<ServerMap>>, name: string): seq<Option<Entry>>
  {
    FileLayers(others, name) + [FirstImport(imports, name)]
  }

  lemma VisibleFlag(others: seq<Option<SourceFile>>, imports: seq<Option<ServerMap>>, name: string)
    ensures LastFlag(Leaves(SourcesTree(Pairs(others, name))) + [FirstImport(imports, name)])
      == LastFlag(VisibleLayers(others, imports, name))
  {
    PairsFlag(others, name);
    LastFlagAppend(Leaves(SourcesTree(Pairs(others, name))), [FirstImport(imports, name)]);
    LastFlagAppend(FileLayers(others, name), [FirstImport(imports, name)]);
  }

  /**
    writeProjectServerDisabledOverride followed by loadMcpConfig, when the project file is the
    last source: disabling always takes effect, and after enabling the server is still disabled if
    and only if no layer the writer consults has the flag and the highest hidden one that has it
    disables the server.
  */
  lemma OverrideTakesEffectOnLoad(
    inputs: Inputs, others: seq<Option<SourceFile>>, project: SourceFile, file: RawFile, name: string, disabled: bool)
    requires WellFormed(Servers(Entries(file)))
    requires Override(file, name, disabled, Below(others, project.imports, name)) != Failed
    requires inputs.sources == others + [Some(project)]
    requires Lookup(project.servers, name)
      == Own(After(file, Override(file, name, disabled, Below(others, project.imports, name))), name)
    ensures disabled ==> IsDisabled(Effective(LoadTree(inputs, name)))
    ensures !disabled ==>
      (IsDisabled(Effective(LoadTree(inputs, name))) <==>
        && LastFlag(VisibleLayers(others, project.imports, name)).None?
        && LastFlag(HiddenLayers(inputs, name)) == Some(Bool(true)))
  {
    var hidden, imported := HiddenLayers(inputs, name), FirstImport(project.imports, name);
    LastLayers(inputs, others, project, name);
    VisibleFlag(others, project.imports, name);
    OverrideTakesEffect(file, name, disabled, hidden, Pairs(others, name), imported, LoadTree(inputs, name));
  }

  /** The flag of the load, with the project file's own layer split off and the others as the writer merges them. */
  lemma LastLayers(inputs: Inputs, others: seq<Option<SourceFile>>, project: SourceFile, name: string)
    requires inputs.sources == others + [Some(project)]
    ensures LastFlag(Leaves(LoadTree(inputs, name))) == LastFlag(HiddenLayers(inputs, name)
      + (Leaves(SourcesTree(Pairs(others, name))) + [FirstImport(project.imports, name)])
        + [Lookup(project.servers, name)])
  {
    var hidden, own := HiddenLayers(inputs, name), Lookup(project.servers, name);
    var visible := VisibleLayers(others, project.imports, name);
    var written := Leaves(SourcesTree(Pairs(others, name))) + [FirstImport(project.imports, name)];
    assert inputs.sources[..|others|] == others;
    assert hidden + FileLayers(inputs.sources, name) == hidden + visible + [own];
    LoadedFlag(inputs, name);
    FlagIsLastSuppliers(LoadTree(inputs, name));
    VisibleFlag(others, project.imports, name);
    SwapMiddle(hidden, visible, written, own);
  }

  lemma SwapMiddle(low: seq<Option<Entry>>, a: seq<Option<Entry>>, b: seq<Option<Entry>>, top: Option<Entry>)
    requires LastFlag(a) == LastFlag(b)
    ensures LastFlag(low + a + [top]) == LastFlag(low + b + [top])
  {
    LastFlagAppend(low, a);
    LastFlagAppend(low, b);
    LastFlagAppend(low + a, [top]);
    LastFlagAppend(low + b, [top]);
  }

  /** Such a load: a package disables the server, nothing else mentions it, and enabling it changes no file. */
  lemma EnablingCanFail() returns (inputs: Inputs, file: RawFile)
    ensures file == RawFile(Absent, Absent, NoImports, 0) && inputs.sources == [Some(SourceFile([], map[]))]
    ensures Override(file, "s", false, Below([], [], "s")) == Unchanged
    ensures IsDisabled(Effective(LoadTree(inputs, "s")))
  {
    file := RawFile(Absent, Absent, NoImports, 0);
    var packaged := Entry(map[Disabled := Bool(true)], {});
    inputs := Inputs(false, false, [], [Some(SourceFile([], map[]))], map["s" := packaged], map[], map[],
      name => name, ["s"]);
    assert Override(file, "s", false, Below([], [], "s")) == Unchanged;
    LoadedFlag(inputs, "s");
    assert inputs.sources[..0] == [];
    assert FileLayers(inputs.sources, "s") == [] + [None, None];
    assert HiddenLayers(inputs, "s") == [None, Some(packaged), None];
    assert [None, Some(packaged), None][..2] == [None, Some(packaged)];
    var layers := [None, Some(packaged), None, None, None];
    assert HiddenLayers(inputs, "s") + FileLayers(inputs.sources, "s") == layers;
    assert layers[..4][..3][..2] == [None, Some(packaged)] && layers[..4][..3] == [None, Some(packaged), None];
  }

  // ----- Which names are there -----

  predicate Present(inputs: Inputs, name: string) {
    Effective(HigherTree(inputs, name)).Some?
  }

  /** Before and after a change of the project file's own entry of one server. */
  ghost predicate Rewrites(
    inputs: Inputs, inputs': Inputs, others: seq<Option<SourceFile>>, project: SourceFile, project': SourceFile,
    name: string)
  {
    && inputs.sources == others + [Some(project)]
    && inputs' == inputs.(sources := others + [Some(project')])
    && project'.imports == project.imports
    && forall m :: m != name ==> Lookup(project'.servers, m) == Lookup(project.servers, m)
  }

  /** A layer besides the project file's own and the Claude plugins' names the server. */
  predicate NamedElsewhere(
    inputs: Inputs, others: seq<Option<SourceFile>>, imports: seq<Option<ServerMap>>, name: string)
  {
    Present(inputs.(sources := others), name) || FirstImport(imports, name).Some?
  }

  lemma PresentIs(inputs: Inputs, name: string)
    ensures Present(inputs, name) <==>
      Effective(FileTree(BaseTree(inputs, name), inputs.sources, name)).Some?
      || (!inputs.exclusive && (PackageEntry(inputs, name).Some? || name in inputs.plugins))
  {
    if !inputs.exclusive {
      HigherIs(inputs, name);
    }
  }

  /** A server is there exactly when the project file has an entry for it or another layer names it. */
  lemma PresentExactly(inputs: Inputs, others: seq<Option<SourceFile>>, project: SourceFile, name: string)
    requires inputs.sources == others + [Some(project)]
    ensures Present(inputs, name) <==> NamedElsewhere(inputs, others, project.imports, name) || name in project.servers
  {
    PresentIs(inputs, name);
    PresentIs(inputs.(sources := others), name);
    FileTreeStep(BaseTree(inputs, name), others, Some(project), name);
  }

  lemma {:induction false} LowerIsThere(base: Tree, sources: seq<Option<SourceFile>>, name: string)
    ensures LowerSources(Pairs(sources, name)).Some? ==> Effective(FileTree(base, sources, name)).Some?
  {
    if sources != [] {
      var front, last := sources[..|sources| - 1], sources[|sources| - 1];
      var pairs, pair := Pairs(front, name), PairIn(last, name);
      LowerIsThere(base, front, name);
      FileTreeStep(base, front, last, name);
      assert sources == front + [last];
      assert (pairs + [pair])[..|pairs|] == pairs;
    }
  }

  /** The writer finds nothing below the file for a server that is named nowhere else. */
  lemma BelowNothing(inputs: Inputs, others: seq<Option<SourceFile>>, imports: seq<Option<ServerMap>>, name: string)
    requires !NamedElsewhere(inputs, others, imports, name)
    ensures Below(others, imports, name).None?
  {
    PresentIs(inputs.(sources := others), name);
    LowerIsThere(BaseTree(inputs, name), others, name);
  }

  // ----- Who holds a namespace -----

  /** The holder of a namespace if one given server were there, or were not. */
  function HolderIf(inputs: Inputs, order: seq<string>, namespace: string, name: string, there: bool): Option<string> {
    if order == [] then None
    else
      var last := order[|order| - 1];
      if (if last == name then there else Present(inputs, last)) && inputs.namespace(last) == namespace then Some(last)
      else HolderIf(inputs, order[..|order| - 1], namespace, name, there)
  }

  lemma {:induction false} HolderIsIf(inputs: Inputs, order: seq<string>, namespace: string, name: string)
    ensures Holder(inputs, order, namespace) == HolderIf(inputs, order, namespace, name, Present(inputs, name))
  {
    if order != [] {
      HolderIsIf(inputs, order[..|order| - 1], namespace, name);
    }
  }

  /** A server that comes or goes takes a namespace or leaves the others as they were. */
  lemma {:induction false} HolderTaken(inputs: Inputs, order: seq<string>, namespace: string, name: string)
    ensures HolderIf(inputs, order, namespace, name, false) != Some(name)
    ensures HolderIf(inputs, order, namespace, name, true) == Some(name)
      || HolderIf(inputs, order, namespace, name, true) == HolderIf(inputs, order, namespace, name, false)
  {
    if order != [] {
      HolderTaken(inputs, order[..|order| - 1], namespace, name);
    }
  }

  lemma OtherTreesKept(
    inputs: Inputs, inputs': Inputs, others: seq<Option<SourceFile>>, project: SourceFile, project': SourceFile,
    name: string, n: string)
    requires Rewrites(inputs, inputs', others, project, project', name) && n != name
    ensures HigherTree(inputs', n) == HigherTree(inputs, n)
  {
    assert inputs.sources[..|others|] == others && inputs'.sources[..|others|] == others;
    assert PairIn(Some(project'), n) == PairIn(Some(project), n);
    assert FilesTree(inputs', n) == FilesTree(inputs, n);
  }

  lemma {:induction false} HolderIfKept(
    inputs: Inputs, inputs': Inputs, others: seq<Option<SourceFile>>, project: SourceFile, project': SourceFile,
    name: string, order: seq<string>, namespace: string, there: bool)
    requires Rewrites(inputs, inputs', others, project, project', name)
    ensures HolderIf(inputs', order, namespace, name, there) == HolderIf(inputs, order, namespace, name, there)
  {
    if order != [] {
      var last := order[|order| - 1];
      HolderIfKept(inputs, inputs', others, project, project', name, order[..|order| - 1], namespace, there);
      if last != name {
        OtherTreesKept(inputs, inputs', others, project, project', name, last);
      }
    }
  }

  // ----- The Claude plugins' servers -----

  /** Whether a Claude plugin's server n is used depends on whether the server called name is there. */
  predicate DependsOn(inputs: Inputs, n: string, name: string) {
    var namespace := inputs.namespace(n);
    var without := HolderIf(inputs, inputs.order, namespace, name, false);
    && n in inputs.claude
    && HolderIf(inputs, inputs.order, namespace, name, true) == Some(name)
    && (if n == name then without.Some? else without in {None, Some(n)})
  }

  /** It is used in just one of two loads exactly when only one of them has the server it depends on. */
  lemma ClaudeEntryChanges(
    inputs: Inputs, inputs': Inputs, others: seq<Option<SourceFile>>, project: SourceFile, project': SourceFile,
    name: string, n: string)
    requires Rewrites(inputs, inputs', others, project, project', name)
    ensures ClaudeEntry(inputs', n) == ClaudeEntry(inputs, n) <==>
      Present(inputs', name) == Present(inputs, name) || !DependsOn(inputs, n, name)
  {
    var namespace := inputs.namespace(n);
    HolderIsIf(inputs, inputs.order, namespace, name);
    HolderIsIf(inputs', inputs.order, namespace, name);
    HolderIfKept(inputs, inputs', others, project, project', name, inputs.order, namespace, Present(inputs', name));
    HolderTaken(inputs, inputs.order, namespace, name);
  }

  // ----- When the write adds or deletes the entry -----

  /** Nothing but the flag would be left of the file's entry, or nothing but the flag is there. */
  predicate OnlyFlag(file: RawFile, name: string, disabled: bool) {
    if disabled then Own(file, name).None?
    else Own(file, name).Some? && Own(file, name).value.fields.Keys == {Disabled}
  }

  lemma {:induction false} FlagAlone(pairs: Pairs)
    ensures WithoutFlag(pairs) == [] <==> EntryOf(pairs).fields.Keys <= {Disabled}
  {
    if pairs != [] {
      FlagAlone(pairs[1..]);
      assert EntryOf(pairs).fields.Keys == {pairs[0].0} + EntryOf(pairs[1..]).fields.Keys;
    }
  }

  lemma NothingLeft(pairs: Pairs, disabled: bool)
    ensures NextPairs(pairs, disabled, false) == [] <==> !disabled && EntryOf(pairs).fields.Keys <= {Disabled}
  {
    FlagAlone(pairs);
  }

  /** For a server no other layer names: the entry comes or goes exactly then. */
  lemma EntryComesOrGoes(file: RawFile, name: string, disabled: bool, lower: Option<Entry>)
    requires Override(file, name, disabled, lower) != Failed && lower.None?
    ensures var file' := After(file, Override(file, name, disabled, lower));
      Own(file', name).Some? != Own(file, name).Some? <==> OnlyFlag(file, name, disabled)
  {
    var entries := Entries(file);
    var pairs := if name in entries then entries[name].pairs else [];
    TargetIsRead(file, name, disabled, lower);
    NothingLeft(pairs, disabled);
    if pairs != [] {
      assert pairs[0].0 in EntryOf(pairs).fields;
    }
  }

  // ----- Every other server, and every other field -----

  /**
    The project file before the write and after it, as the last source of a load. The enumeration
    order is the same: it may hold names that are not there.
  */
  ghost predicate Reloads(
    inputs: Inputs, inputs': Inputs, others: seq<Option<SourceFile>>, project: SourceFile, project': SourceFile,
    file: RawFile, name: string, disabled: bool)
  {
    && inputs.sources == others + [Some(project)]
    && inputs' == inputs.(sources := others + [Some(project')])
    && project'.imports == project.imports
    && WellFormed(Servers(Entries(file)))
    && Override(file, name, disabled, Below(others, project.imports, name)) != Failed
    && (forall m :: Lookup(project.servers, m) == Own(file, m))
    && (forall m :: Lookup(project'.servers, m)
          == Own(After(file, Override(file, name, disabled, Below(others, project.imports, name))), m))
  }

  /**
    What a caller can check before the write: the use of server n hangs on the only entry of the
    server called name, and that entry comes or goes.
  */
  predicate Uncovers(
    inputs: Inputs, others: seq<Option<SourceFile>>, imports: seq<Option<ServerMap>>, file: RawFile, name: string,
    disabled: bool, n: string)
  {
    !NamedElsewhere(inputs, others, imports, name) && OnlyFlag(file, name, disabled) && DependsOn(inputs, n, name)
  }

  lemma WriteRewrites(
    inputs: Inputs, inputs': Inputs, others: seq<Option<SourceFile>>, project: SourceFile, project': SourceFile,
    file: RawFile, name: string, disabled: bool)
    requires Reloads(inputs, inputs', others, project, project', file, name, disabled)
    ensures Rewrites(inputs, inputs', others, project, project', name)
    ensures Present(inputs', name) != Present(inputs, name) <==>
      !NamedElsewhere(inputs, others, project.imports, name) && OnlyFlag(file, name, disabled)
  {
    var lower := Below(others, project.imports, name);
    OverrideWritesOnlyTheFlag(file, name, disabled, lower);
    PresentExactly(inputs, others, project, name);
    PresentExactly(inputs', others, project', name);
    assert inputs'.(sources := others) == inputs.(sources := others);
    assert name in project.servers <==> Lookup(project.servers, name).Some?;
    assert name in project'.servers <==> Lookup(project'.servers, name).Some?;
    if !NamedElsewhere(inputs, others, project.imports, name) {
      BelowNothing(inputs, others, project.imports, name);
      EntryComesOrGoes(file, name, disabled, lower);
    }
  }

  /**
    writeProjectServerDisabledOverride followed by loadMcpConfig leaves another server's merge tree
    as it was, and with it its entry, if and only if the write does not add or delete the only entry
    of a server on which that one's Claude plugin default hangs. Where it does, and nothing else
    names the other server, that server appears or disappears.
  */
  lemma OverrideSparesOthersExactly(
    inputs: Inputs, inputs': Inputs, others: seq<Option<SourceFile>>, project: SourceFile, project': SourceFile,
    file: RawFile, name: string, disabled: bool, n: string)
    requires Reloads(inputs, inputs', others, project, project', file, name, disabled) && n != name
    ensures LoadTree(inputs', n) == LoadTree(inputs, n)
      <==> !Uncovers(inputs, others, project.imports, file, name, disabled, n)
    ensures Uncovers(inputs, others, project.imports, file, name, disabled, n) && !Present(inputs, n) ==>
      Effective(LoadTree(inputs', n)).Some? != Effective(LoadTree(inputs, n)).Some?
  {
    WriteRewrites(inputs, inputs', others, project, project', file, name, disabled);
    OtherTreesKept(inputs, inputs', others, project, project', name, n);
    ClaudeEntryChanges(inputs, inputs', others, project, project', name, n);
    LoadIs(inputs, n);
    LoadIs(inputs', n);
  }

  // ----- The server's own other fields -----

  predicate SoundMap(servers: ServerMap) {
    forall n | n in servers :: Sound(Some(servers[n]))
  }

  predicate SoundMaps(maps: seq<Option<ServerMap>>) {
    forall i | 0 <= i < |maps| && maps[i].Some? :: SoundMap(maps[i].value)
  }

  /** As the loaders leave them, marks cover only fields that are present. */
  predicate SoundInputs(inputs: Inputs) {
    && SoundMap(inputs.packages) && SoundMap(inputs.plugins) && SoundMap(inputs.claude) && SoundMaps(inputs.hosts)
    && forall i | 0 <= i < |inputs.sources| && inputs.sources[i].Some? ::
        SoundMaps(inputs.sources[i].value.imports) && SoundMap(inputs.sources[i].value.servers)
  }

  lemma {:induction false} FirstImportSound(imports: seq<Option<ServerMap>>, name: string)
    requires SoundMaps(imports)
    ensures Sound(FirstImport(imports, name))
  {
    if imports != [] {
      FirstImportSound(imports[..|imports| - 1], name);
      assert imports[|imports| - 1].Some? ==> SoundMap(imports[|imports| - 1].value);
    }
  }

  lemma {:induction false} HostTwins(hosts: seq<Option<ServerMap>>, name: string)
    requires SoundMaps(hosts)
    ensures Twins(HostTree(hosts, name), HostTree(hosts, name))
  {
    if hosts != [] {
      HostTwins(hosts[..|hosts| - 1], name);
      assert hosts[|hosts| - 1].Some? ==> SoundMap(hosts[|hosts| - 1].value);
    }
  }

  lemma {:induction false} FileTwins(base: Tree, sources: seq<Option<SourceFile>>, name: string)
    requires Twins(base, base)
    requires forall i | 0 <= i < |sources| && sources[i].Some? ::
      SoundMaps(sources[i].value.imports) && SoundMap(sources[i].value.servers)
    ensures Twins(FileTree(base, sources, name), FileTree(base, sources, name))
  {
    if sources != [] {
      var last := sources[|sources| - 1];
      FileTwins(base, sources[..|sources| - 1], name);
      if last.Some? {
        FirstImportSound(last.value.imports, name);
      }
    }
  }

  lemma FilesTwins(
    inputs: Inputs, inputs': Inputs, others: seq<Option<SourceFile>>, project: SourceFile, project': SourceFile,
    name: string)
    requires Rewrites(inputs, inputs', others, project, project', name) && SoundInputs(inputs)
    requires Twins(Layer(Lookup(project.servers, name)), Layer(Lookup(project'.servers, name)))
    ensures Twins(FilesTree(inputs, name), FilesTree(inputs', name))
  {
    var base, imported := BaseTree(inputs, name), FirstImport(project.imports, name);
    HostTwins(inputs.hosts, name);
    assert forall i | 0 <= i < |others| :: others[i] == inputs.sources[i];
    FileTwins(base, others, name);
    assert inputs.sources[|others|] == Some(project);
    FirstImportSound(project.imports, name);
    assert inputs.sources[..|others|] == others && inputs'.sources[..|others|] == others;
    var own, own' := Layer(Lookup(project.servers, name)), Layer(Lookup(project'.servers, name));
    assert Twins(Merge(Layer(imported), own), Merge(Layer(imported), own'));
    assert FilesTree(inputs, name) == Merge(FileTree(base, others, name), Merge(Layer(imported), own));
    assert FilesTree(inputs', name) == Merge(FileTree(base, others, name), Merge(Layer(imported), own'));
  }

  lemma MergeTwins(lower: Tree, higher: Tree, higher': Tree)
    requires Twins(lower, lower) && Twins(higher, higher')
    ensures Twins(Merge(lower, higher), Merge(lower, higher'))
  {
  }

  lemma LoadTwins(
    inputs: Inputs, inputs': Inputs, others: seq<Option<SourceFile>>, project: SourceFile, project': SourceFile,
    name: string)
    requires Rewrites(inputs, inputs', others, project, project', name) && SoundInputs(inputs)
    requires Twins(Layer(Lookup(project.servers, name)), Layer(Lookup(project'.servers, name)))
    requires ClaudeEntry(inputs', name) == ClaudeEntry(inputs, name)
    ensures Twins(LoadTree(inputs, name), LoadTree(inputs', name))
  {
    FilesTwins(inputs, inputs', others, project, project', name);
    var files, files' := FilesTree(inputs, name), FilesTree(inputs', name);
    var plugin, package := Layer(Lookup(inputs.plugins, name)), Layer(PackageEntry(inputs, name));
    if !inputs.exclusive {
      MergeTwins(plugin, files, files');
      MergeTwins(package, Merge(plugin, files), Merge(plugin, files'));
    }
    MergeTwins(Layer(ClaudeEntry(inputs, name)), HigherTree(inputs, name), HigherTree(inputs', name));
  }

  /**
    For the server itself: its Claude plugin default is used or not as before exactly when the write
    does not uncover it, and then every field but the flag, and every literal mark, is as before.
  */
  lemma OverrideKeepsOtherFieldsOnLoad(
    inputs: Inputs, inputs': Inputs, others: seq<Option<SourceFile>>, project: SourceFile, project': SourceFile,
    file: RawFile, name: string, disabled: bool)
    requires Reloads(inputs, inputs', others, project, project', file, name, disabled) && SoundInputs(inputs)
    ensures ClaudeEntry(inputs', name) == ClaudeEntry(inputs, name)
      <==> !Uncovers(inputs, others, project.imports, file, name, disabled, name)
    ensures !Uncovers(inputs, others, project.imports, file, name, disabled, name) ==>
      Alike(Effective(LoadTree(inputs, name)), Effective(LoadTree(inputs', name)))
  {
    WriteRewrites(inputs, inputs', others, project, project', file, name, disabled);
    ClaudeEntryChanges(inputs, inputs', others, project, project', name, name);
    if !Uncovers(inputs, others, project.imports, file, name, disabled, name) {
      OverrideKeepsOtherFields(file, name, disabled, Below(others, project.imports, name));
      LoadTwins(inputs, inputs', others, project, project', name);
      TwinsLoadAlike(LoadTree(inputs, name), LoadTree(inputs', name));
    }
  }

  // ----- Such loads -----

  /** A namespace that does not tell my-server from my_server. */
  function Underscored(name: string): string {
    if name == "my-server" then "my_server" else name
  }

  const FLAG_ONLY: RawEntry := Object([(Disabled, Bool(true))])
  const PLUGIN_SERVER := Entry(map[Command := Text("run")], {})

  /** A load with a Claude plugin's "my-server" and one or two configuration files. */
  function SmallLoad(sources: seq<Option<SourceFile>>, order: seq<string>): Inputs {
    Inputs(false, false, [], sources, map[], map[], map["my-server" := PLUGIN_SERVER], Underscored, order)
  }

  function Project(servers: ServerMap): SourceFile {
    SourceFile([], servers)
  }

  /** The write of an enabling that deletes the file's only entry. */
  lemma FlagOnlyIsDeleted(name: string)
    ensures var file := RawFile(Servers(map[name := FLAG_ONLY]), Absent, NoImports, 0);
      && Override(file, name, false, None) == DisabledOverride.Written(RawFile(Servers(map[]), Absent, NoImports, 0))
      && Own(file, name) == Some(Entry(map[Disabled := Bool(true)], {}))
      && WellFormed(Servers(Entries(file)))
  {
    var entries := map[name := FLAG_ONLY];
    One(Disabled, Bool(true));
    assert FLAG_ONLY.pairs[1..] == [];
    assert WithoutFlag(FLAG_ONLY.pairs) == [] + [] == [];
    assert NextPairs(FLAG_ONLY.pairs, false, false) == [];
    assert entries - {name} == map[];
  }

  /** The project file of such a write, before and after. */
  function FlagFile(name: string): RawFile {
    RawFile(Servers(map[name := FLAG_ONLY]), Absent, NoImports, 0)
  }

  function FlagProject(name: string): SourceFile {
    Project(map[name := Entry(map[Disabled := Bool(true)], {})])
  }

  lemma FlagFileReloads(others: seq<Option<SourceFile>>, order: seq<string>, name: string)
    requires Below(others, [], name).None?
    ensures Reloads(
                    SmallLoad(others + [Some(FlagProject(name))], order),
                    SmallLoad(others + [Some(Project(map[]))], order),
                    others, FlagProject(name), Project(map[]), FlagFile(name), name, false)
  {
    FlagOnlyIsDeleted(name);
  }

  /** Present in a small load: named by one of its files. */
  lemma SmallPresent(servers: ServerMap, order: seq<string>, name: string)
    ensures Present(SmallLoad([], order), name) == false
    ensures Present(SmallLoad([Some(Project(servers))], order), name) <==> name in servers
  {
    PresentIs(SmallLoad([], order), name);
    PresentIs(SmallLoad([Some(Project(servers))], order), name);
    FileTreeStep(Layer(None), [], Some(Project(servers)), name);
    assert [] + [Some(Project(servers))] == [Some(Project(servers))];
  }

  /**
    Enabling my_server, which nothing but the project file's flag names, makes the Claude plugin's
    my-server appear, which that flag had shadowed.
  */
  lemma EnablingCanRevealAnother() returns (inputs: Inputs, inputs': Inputs)
    ensures Reloads(inputs, inputs', [], FlagProject("my_server"), Project(map[]), FlagFile("my_server"),
      "my_server", false)
    ensures Effective(LoadTree(inputs, "my-server")).None?
    ensures Effective(LoadTree(inputs', "my-server")).Some?
  {
    var order := ["my_server"];
    var flagged := Some(FlagProject("my_server"));
    inputs, inputs' := SmallLoad([] + [flagged], order), SmallLoad([] + [Some(Project(map[]))], order);
    FlagFileReloads([], order, "my_server");
    assert [] + [flagged] == [flagged] && order[..0] == [];
    SmallPresent(FlagProject("my_server").servers, order, "my_server");
    SmallPresent(FlagProject("my_server").servers, order, "my-server");
    LoadIs(inputs, "my-server");
    LoadIs(inputs', "my-server");
    assert Uncovers(inputs, [], [], FlagFile("my_server"), "my_server", false, "my-server");
    OverrideSparesOthersExactly(
      inputs, inputs', [], FlagProject("my_server"), Project(map[]), FlagFile("my_server"), "my_server", false,
      "my-server");
  }

  /**
    Enabling my-server itself, whose command comes from the Claude plugin, makes it disappear when
    another file's my_server then holds their namespace.
  */
  lemma EnablingCanDropTheServer() returns (inputs: Inputs, inputs': Inputs, others: seq<Option<SourceFile>>)
    ensures others == [Some(Project(map["my_server" := PLUGIN_SERVER]))]
    ensures Reloads(inputs, inputs', others, FlagProject("my-server"), Project(map[]), FlagFile("my-server"),
      "my-server", false)
    ensures Effective(LoadTree(inputs, "my-server")).Some?
    ensures Effective(LoadTree(inputs', "my-server")).None?
  {
    var name, other, order := "my-server", "my_server", ["my_server", "my-server"];
    others := [Some(Project(map[other := PLUGIN_SERVER]))];
    inputs := SmallLoad(others + [Some(FlagProject(name))], order);
    inputs' := SmallLoad(others + [Some(Project(map[]))], order);
    SmallPresent(map[other := PLUGIN_SERVER], order, name);
    SmallPresent(map[other := PLUGIN_SERVER], order, other);
    assert inputs.(sources := others) == SmallLoad(others, order) == inputs'.(sources := others);
    BelowNothing(inputs, others, [], name);
    FlagFileReloads(others, order, name);
    PresentExactly(inputs, others, FlagProject(name), name);
    PresentExactly(inputs', others, Project(map[]), name);
    PresentExactly(inputs', others, Project(map[]), other);
    HolderOfTwo(inputs', other, name);
    HolderOfTwo(inputs, other, name);
    LoadIs(inputs, name);
    LoadIs(inputs', name);
  }

  /** The holder of the shared namespace when the other name is enumerated first. */
  lemma HolderOfTwo(inputs: Inputs, other: string, name: string)
    requires inputs.namespace(name) == inputs.namespace(other) && Present(inputs, other)
    ensures Holder(inputs, [other, name], inputs.namespace(name)) == Some(if Present(inputs, name) then name else other)
  {
    assert [other, name][..1] == [other] && [other][..0] == [];
  }
}
