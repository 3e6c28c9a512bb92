/**
  Persisting one server's disabled flag in the project's own file
  (adapter/config.ts, writeProjectServerDisabledOverride), and what a reload makes of it.
*/
module DisabledOverride {
  import opened Common
  import opened ConfigMerge

  /** An entry object as the file spells it: its properties in order. */
  type Pairs = seq<(Field, Value)>

  datatype RawEntry = NotAnObject | Object(pairs: Pairs)

  /** The value under "mcpServers" or "mcp-servers". */
  datatype RawServers = Absent | Null | Unusable | Servers(entries: map<string, RawEntry>)

  datatype RawImports = NoImports | UnknownImports | KnownImports

  /** rest stands for every other top-level value. */
  datatype RawFile = RawFile(camel: RawServers, dashed: RawServers, imports: RawImports, rest: int)

  datatype Outcome = Failed | Unchanged | Written(file: RawFile)

  // ----- Reading -----

  function EntryOf(pairs: Pairs): Entry {
    if pairs == [] then EMPTY
    else Entry(map[pairs[0].0 := pairs[0].1] + EntryOf(pairs[1..]).fields, {})
  }

  /** A JavaScript object has each property once. */
  predicate NoRepeat(pairs: Pairs) {
    pairs != [] ==> pairs[0].0 !in EntryOf(pairs[1..]).fields && NoRepeat(pairs[1..])
  }

  /** The entry validateConfig reads for a server from the file. */
  function Own(file: RawFile, name: string): Option<Entry> {
    OwnIn(if file.camel.Absent? || file.camel.Null? then file.dashed else file.camel, name)
  }

  function OwnIn(servers: RawServers, name: string): Option<Entry> {
    if servers.Servers? && name in servers.entries && servers.entries[name].Object?
    then Some(EntryOf(servers.entries[name].pairs)) else None
  }

  predicate IsDisabled(e: Option<Entry>) {
    e.Some? && Lookup(e.value.fields, Disabled) == Some(Bool(true))
  }

  // ----- Writing -----

  /** { ...existing, disabled: true } */
  function WithTrue(pairs: Pairs): Pairs {
    if pairs == [] then [(Disabled, Bool(true))]
    else if pairs[0].0 == Disabled then [(Disabled, Bool(true))] + pairs[1..]
    else [pairs[0]] + WithTrue(pairs[1..])
  }

  /** The entry's properties without disabled. */
  function WithoutFlag(pairs: Pairs): Pairs {
    if pairs == [] then [] else (if pairs[0].0 == Disabled then [] else [pairs[0]]) + WithoutFlag(pairs[1..])
  }

  function NextPairs(pairs: Pairs, disabled: bool, lowerDisabled: bool): Pairs {
    if disabled then WithTrue(pairs)
    else WithoutFlag(pairs) + if lowerDisabled then [(Disabled, Bool(false))] else []
  }

  function Target(file: RawFile): RawServers {
    if file.camel.Absent? then file.dashed else file.camel
  }

  function SetTarget(file: RawFile, servers: RawServers): RawFile {
    if file.camel.Absent? && !file.dashed.Absent? then file.(dashed := servers) else file.(camel := servers)
  }

  /** The entries an override of one server leaves, or none when it changes nothing. */
  function OverrideIn(
      entries: map<string, RawEntry>, name: string, disabled: bool, lowerDisabled: bool): Option<map<string, RawEntry>>
    requires Lookup(entries, name) != Some(NotAnObject)
  {
    var existing := Lookup(entries, name);
    var next := NextPairs(if existing.Some? then existing.value.pairs else [], disabled, lowerDisabled);
    if (existing.None? && next == []) || existing == Some(Object(next)) then None
    else Some(WithEntry(entries, name, next))
  }

  predicate Refused(file: RawFile, name: string, disabled: bool) {
    || Target(file).Null? || Target(file).Unusable?
    || Lookup(Entries(file), name) == Some(NotAnObject)
    || (!disabled && file.imports.UnknownImports?)
  }

  function Entries(file: RawFile): map<string, RawEntry> {
    if Target(file).Servers? then Target(file).entries else map[]
  }

  /** lower: the server's entry merged from the other sources and the file's own imports. */
  function Override(file: RawFile, name: string, disabled: bool, lower: Option<Entry>): Outcome {
    if Refused(file, name, disabled) then Failed
    else
      var entries := OverrideIn(Entries(file), name, disabled, IsDisabled(lower));
      if entries.None? then Unchanged else Written(SetTarget(file, Servers(entries.value)))
  }

  /** The servers object with the entry replaced, or deleted when nothing is left of it. */
  function WithEntry(entries: map<string, RawEntry>, name: string, next: Pairs): map<string, RawEntry> {
    if next == [] then entries - {name} else entries[name := Object(next)]
  }

  function After(file: RawFile, outcome: Outcome): RawFile {
    if outcome.Written? then outcome.file else file
  }

  class ProjectFile {
    var raw: RawFile

    constructor (raw: RawFile)
      ensures this.raw == raw
    {
      this.raw := raw;
    }

    /** sources: the server's imported and own entry in each other source, lowest first. */
    method WriteProjectServerDisabledOverride(
      name: string, disabled: bool, sources: seq<(Option<Entry>, Option<Entry>)>, imported: Option<Entry>)
      returns (outcome: Outcome)
      modifies this
      ensures outcome == Override(old(raw), name, disabled, MergeOption(LowerSources(sources), imported))
      ensures raw == After(old(raw), outcome)
    {
      var target := Target(raw);
      if target.Null? || target.Unusable? {
        return Failed;
      }
      var entries := if target.Servers? then target.entries else map[];
      var existing := Lookup(entries, name);
      if existing == Some(NotAnObject) {
        return Failed;
      }
      var pairs := if existing.Some? then existing.value.pairs else [];
      var next: Pairs;
      if disabled {
        next := WithTrue(pairs);
      } else {
        next := WithoutFlag(pairs);
        var lower: Option<Entry> := None;
        for k := 0 to |sources|
          invariant lower == LowerSources(sources[..k])
        {
          assert sources[..k + 1][..k] == sources[..k];
          lower := MergeOption(lower, MergeOption(sources[k].0, sources[k].1));
        }
        assert sources[..|sources|] == sources;
        if raw.imports.UnknownImports? {
          return Failed;
        }
        lower := MergeOption(lower, imported);
        assert next + [] == next;
        if IsDisabled(lower) {
          next := next + [(Disabled, Bool(false))];
        }
      }
      assert next == NextPairs(pairs, disabled, IsDisabled(MergeOption(LowerSources(sources), imported)));
      if (existing.None? && next == []) || existing == Some(Object(next)) {
        return Unchanged;
      }
      raw := SetTarget(raw, Servers(WithEntry(entries, name, next)));
      return Written(raw);
    }
  }

  function LowerSources(sources: seq<(Option<Entry>, Option<Entry>)>): Option<Entry> {
    if sources == [] then None
    else
      var last := sources[|sources| - 1];
      MergeOption(LowerSources(sources[..|sources| - 1]), MergeOption(last.0, last.1))
  }

  // ----- disabled is last-supplier-wins, however layers are grouped -----

  function Leaves(t: Tree): seq<Option<Entry>> {
    match t
    case Layer(entry) => [entry]
    case Merge(lower, higher) => Leaves(lower) + Leaves(higher)
    case Clone(tree) => Leaves(tree)
  }

  function Flag(e: Option<Entry>): Option<Value> {
    if e.None? then None else Lookup(e.value.fields, Disabled)
  }

  /** The flag of the last layer that has one. */
  function LastFlag(layers: seq<Option<Entry>>): Option<Value> {
    if layers == [] then None
    else
      var last := Flag(layers[|layers| - 1]);
      if last.Some? then last else LastFlag(layers[..|layers| - 1])
  }

  lemma {:induction false} LastFlagAppend(a: seq<Option<Entry>>, b: seq<Option<Entry>>)
    ensures LastFlag(a + b) == if LastFlag(b).Some? then LastFlag(b) else LastFlag(a)
  {
    if b == [] {
      assert a + b == a;
    } else {
      assert (a + b)[..|a + b| - 1] == a + b[..|b| - 1];
      LastFlagAppend(a, b[..|b| - 1]);
    }
  }

  /** No layer strips the flag. */
  lemma MergedFlag(lower: Option<Entry>, higher: Option<Entry>)
    ensures Flag(MergeOption(lower, higher)) == if Flag(higher).Some? then Flag(higher) else Flag(lower)
  {
    if lower.Some? && higher.Some? {
      assert Disabled !in Strips(lower.value, higher.value);
    }
  }

  lemma {:induction false} FlagIsLastSuppliers(t: Tree)
    ensures Flag(Effective(t)) == LastFlag(Leaves(t))
  {
    match t {
      case Layer(entry) =>
        assert [entry][..0] == [];
      case Clone(tree) => FlagIsLastSuppliers(tree);
      case Merge(lower, higher) =>
        FlagIsLastSuppliers(lower);
        FlagIsLastSuppliers(higher);
        MergedFlag(Effective(lower), Effective(higher));
        LastFlagAppend(Leaves(lower), Leaves(higher));
    }
  }

  /** The entry of the other sources is that of a tree over their imported and own layers. */
  function SourcesTree(sources: seq<(Option<Entry>, Option<Entry>)>): Tree {
    if sources == [] then Layer(None)
    else
      var last := sources[|sources| - 1];
      Merge(SourcesTree(sources[..|sources| - 1]), Merge(Layer(last.0), Layer(last.1)))
  }

  lemma {:induction false} LowerSourcesIsTree(sources: seq<(Option<Entry>, Option<Entry>)>)
    ensures LowerSources(sources) == Effective(SourcesTree(sources))
  {
    if sources != [] {
      var last := sources[|sources| - 1];
      LowerSourcesIsTree(sources[..|sources| - 1]);
      assert Effective(Merge(Layer(last.0), Layer(last.1))) == MergeOption(last.0, last.1);
    }
  }

  // ----- What the file says after the write -----

  lemma ConsReads(first: (Field, Value), rest: Pairs)
    ensures EntryOf([first] + rest).fields == map[first.0 := first.1] + EntryOf(rest).fields
    ensures NoRepeat([first] + rest) <==> first.0 !in EntryOf(rest).fields && NoRepeat(rest)
  {
    assert ([first] + rest)[1..] == rest;
  }

  lemma One(f: Field, v: Value)
    ensures EntryOf([(f, v)]).fields == map[f := v] && NoRepeat([(f, v)])
  {
    ConsReads((f, v), []);
    assert [(f, v)] + [] == [(f, v)];
  }

  /** Setting a field of a map and of the map with another entry in front. */
  lemma SetBehind(m: map<Field, Value>, first: (Field, Value), f: Field, v: Value)
    ensures first.0 != f ==> map[first.0 := first.1] + m[f := v] == (map[first.0 := first.1] + m)[f := v]
    ensures f !in m ==> map[f := v] + m == (map[f := first.1] + m)[f := v]
  {
  }

  lemma {:induction false} WithTrueReads(pairs: Pairs)
    requires NoRepeat(pairs)
    ensures EntryOf(WithTrue(pairs)).fields == EntryOf(pairs).fields[Disabled := Bool(true)]
    ensures NoRepeat(WithTrue(pairs))
  {
    if pairs == [] {
      One(Disabled, Bool(true));
    } else {
      var first, rest := pairs[0], pairs[1..];
      SetBehind(EntryOf(rest).fields, first, Disabled, Bool(true));
      if first.0 == Disabled {
        ConsReads((Disabled, Bool(true)), rest);
      } else {
        WithTrueReads(rest);
        ConsReads(first, WithTrue(rest));
      }
    }
  }

  lemma {:induction false} WithTrueTwice(pairs: Pairs)
    ensures WithTrue(WithTrue(pairs)) == WithTrue(pairs)
  {
    if pairs != [] && pairs[0].0 != Disabled {
      WithTrueTwice(pairs[1..]);
      assert ([pairs[0]] + WithTrue(pairs[1..]))[1..] == WithTrue(pairs[1..]);
    }
  }

  /** Dropping a field from a map with another entry in front. */
  lemma DropBehind(m: map<Field, Value>, first: (Field, Value), f: Field)
    ensures first.0 != f ==> (map[first.0 := first.1] + m) - {f} == map[first.0 := first.1] + (m - {f})
    ensures first.0 == f ==> (map[first.0 := first.1] + m) - {f} == m - {f}
  {
  }

  lemma {:induction false} WithoutFlagReads(pairs: Pairs)
    requires NoRepeat(pairs)
    ensures EntryOf(WithoutFlag(pairs)).fields == EntryOf(pairs).fields - {Disabled}
    ensures NoRepeat(WithoutFlag(pairs))
  {
    if pairs != [] {
      var first, rest := pairs[0], pairs[1..];
      WithoutFlagReads(rest);
      DropBehind(EntryOf(rest).fields, first, Disabled);
      if first.0 == Disabled {
        assert WithoutFlag(pairs) == WithoutFlag(rest);
      } else {
        ConsReads(first, WithoutFlag(rest));
      }
    }
  }

  lemma {:induction false} WithoutFlagTwice(pairs: Pairs)
    ensures WithoutFlag(WithoutFlag(pairs)) == WithoutFlag(pairs)
  {
    if pairs != [] {
      WithoutFlagTwice(pairs[1..]);
      assert ([pairs[0]] + WithoutFlag(pairs[1..]))[1..] == WithoutFlag(pairs[1..]);
      assert [] + WithoutFlag(pairs[1..]) == WithoutFlag(pairs[1..]);
    }
  }

  /** Appending disabled: false to an entry without the flag. */
  lemma {:induction false} AppendFlagReads(pairs: Pairs)
    requires NoRepeat(pairs) && Disabled !in EntryOf(pairs).fields
    ensures EntryOf(pairs + [(Disabled, Bool(false))]).fields == EntryOf(pairs).fields[Disabled := Bool(false)]
    ensures NoRepeat(pairs + [(Disabled, Bool(false))])
  {
    if pairs == [] {
      One(Disabled, Bool(false));
      assert [] + [(Disabled, Bool(false))] == [(Disabled, Bool(false))];
    } else {
      var first, rest := pairs[0], pairs[1..];
      AppendFlagReads(rest);
      ConsReads(first, rest + [(Disabled, Bool(false))]);
      assert pairs + [(Disabled, Bool(false))] == [first] + (rest + [(Disabled, Bool(false))]);
      SetBehind(EntryOf(rest).fields, first, Disabled, Bool(false));
    }
  }

  lemma {:induction false} AppendedFlagGoes(pairs: Pairs)
    ensures WithoutFlag(pairs + [(Disabled, Bool(false))]) == WithoutFlag(pairs)
  {
    if pairs == [] {
      assert [] + [(Disabled, Bool(false))] == [(Disabled, Bool(false))];
    } else {
      AppendedFlagGoes(pairs[1..]);
      assert (pairs + [(Disabled, Bool(false))])[1..] == pairs[1..] + [(Disabled, Bool(false))];
    }
  }

  /** The fields a read finds after the write, from those it found before. */
  function NextFields(fields: map<Field, Value>, disabled: bool, lowerDisabled: bool): map<Field, Value> {
    if disabled then fields[Disabled := Bool(true)]
    else if lowerDisabled then fields[Disabled := Bool(false)]
    else fields - {Disabled}
  }

  lemma FlagAppended(kept: Pairs, fields: map<Field, Value>)
    requires NoRepeat(kept) && EntryOf(kept).fields == fields - {Disabled}
    ensures EntryOf(kept + [(Disabled, Bool(false))]).fields == fields[Disabled := Bool(false)]
  {
    AppendFlagReads(kept);
    assert (fields - {Disabled})[Disabled := Bool(false)] == fields[Disabled := Bool(false)];
  }

  lemma NextPairsRead(pairs: Pairs, disabled: bool, lowerDisabled: bool)
    requires NoRepeat(pairs)
    ensures EntryOf(NextPairs(pairs, disabled, lowerDisabled)).fields
      == NextFields(EntryOf(pairs).fields, disabled, lowerDisabled)
  {
    if disabled {
      WithTrueReads(pairs);
    } else {
      EnabledPairsRead(pairs, lowerDisabled);
    }
  }

  lemma EnabledPairsRead(pairs: Pairs, lowerDisabled: bool)
    requires NoRepeat(pairs)
    ensures EntryOf(NextPairs(pairs, false, lowerDisabled)).fields
      == NextFields(EntryOf(pairs).fields, false, lowerDisabled)
  {
    var kept := WithoutFlag(pairs);
    WithoutFlagReads(pairs);
    if lowerDisabled {
      FlagAppended(kept, EntryOf(pairs).fields);
    } else {
      assert NextPairs(pairs, false, false) == kept + [] == kept;
    }
  }

  lemma NextPairsTwice(pairs: Pairs, disabled: bool, lowerDisabled: bool)
    ensures var next := NextPairs(pairs, disabled, lowerDisabled); NextPairs(next, disabled, lowerDisabled) == next
  {
    if disabled {
      WithTrueTwice(pairs);
    } else {
      WithoutFlagTwice(pairs);
      AppendedFlagGoes(WithoutFlag(pairs));
      assert WithoutFlag(pairs) + [] == WithoutFlag(pairs);
    }
  }

  predicate WellFormed(servers: RawServers) {
    servers.Servers? ==>
      forall n | n in servers.entries && servers.entries[n].Object? :: NoRepeat(servers.entries[n].pairs)
  }

  /** An absent entry merges like an empty one. */
  function OrEmpty(e: Option<Entry>): Entry {
    if e.None? then EMPTY else e.value
  }

  function AfterIn(
      entries: map<string, RawEntry>, name: string, disabled: bool, lowerDisabled: bool): map<string, RawEntry>
    requires Lookup(entries, name) != Some(NotAnObject)
  {
    var changed := OverrideIn(entries, name, disabled, lowerDisabled);
    if changed.Some? then changed.value else entries
  }

  lemma EntryWritten(entries: map<string, RawEntry>, name: string, disabled: bool, lowerDisabled: bool)
    requires WellFormed(Servers(entries)) && Lookup(entries, name) != Some(NotAnObject)
    ensures var before, after := Servers(entries), Servers(AfterIn(entries, name, disabled, lowerDisabled));
      && OrEmpty(OwnIn(after, name)).fields == NextFields(OrEmpty(OwnIn(before, name)).fields, disabled, lowerDisabled)
      && (OwnIn(after, name).Some? ==> OwnIn(after, name).value.literal == {})
      && (forall n | n != name :: OwnIn(after, n) == OwnIn(before, n))
  {
    var before := Lookup(entries, name);
    NextPairsRead(if before.Some? then before.value.pairs else [], disabled, lowerDisabled);
  }

  lemma EntryWrittenTwice(entries: map<string, RawEntry>, name: string, disabled: bool, lowerDisabled: bool)
    requires WellFormed(Servers(entries)) && Lookup(entries, name) != Some(NotAnObject)
    ensures var after := AfterIn(entries, name, disabled, lowerDisabled);
      Lookup(after, name) != Some(NotAnObject) && OverrideIn(after, name, disabled, lowerDisabled) == None
  {
    var before := Lookup(entries, name);
    NextPairsTwice(if before.Some? then before.value.pairs else [], disabled, lowerDisabled);
  }

  /** A call that does not fail works on the object the file is read from. */
  lemma TargetIsRead(file: RawFile, name: string, disabled: bool, lower: Option<Entry>)
    requires !Refused(file, name, disabled)
    ensures var file' := After(file, Override(file, name, disabled, lower));
      && Entries(file') == AfterIn(Entries(file), name, disabled, IsDisabled(lower))
      && !Target(file').Null? && !Target(file').Unusable? && file'.imports == file.imports && file'.rest == file.rest
      && (forall n :: Own(file, n) == OwnIn(Servers(Entries(file)), n))
      && (forall n :: Own(file', n) == OwnIn(Servers(Entries(file')), n))
  {
  }

  /** The write changes what a read finds for this server as asked, and nothing else in the file. */
  lemma OverrideWritesOnlyTheFlag(file: RawFile, name: string, disabled: bool, lower: Option<Entry>)
    requires WellFormed(Servers(Entries(file)))
    requires Override(file, name, disabled, lower) != Failed
    ensures var file' := After(file, Override(file, name, disabled, lower));
      && OrEmpty(Own(file', name)).fields == NextFields(OrEmpty(Own(file, name)).fields, disabled, IsDisabled(lower))
      && (Own(file', name).Some? ==> Own(file', name).value.literal == {})
      && (forall n | n != name :: Own(file', n) == Own(file, n))
      && file'.rest == file.rest && file'.imports == file.imports
  {
    TargetIsRead(file, name, disabled, lower);
    EntryWritten(Entries(file), name, disabled, IsDisabled(lower));
  }

  /** A second identical call finds nothing to change. */
  lemma OverrideTwiceIsUnchanged(file: RawFile, name: string, disabled: bool, lower: Option<Entry>)
    requires WellFormed(Servers(Entries(file)))
    requires Override(file, name, disabled, lower) != Failed
    ensures Override(After(file, Override(file, name, disabled, lower)), name, disabled, lower) == Unchanged
  {
    TargetIsRead(file, name, disabled, lower);
    EntryWrittenTwice(Entries(file), name, disabled, IsDisabled(lower));
  }

  // ----- When it fails, and when it changes nothing -----

  /** The value the writer works on: under mcpServers, or under mcp-servers when the first is absent. */
  function Chosen(file: RawFile): RawServers {
    match file.camel
    case Absent => file.dashed
    case _ => file.camel
  }

  /**
    The write fails if and only if the servers value is null or no object, the server's entry in it
    is no object, or the call enables and the file imports an unknown kind.
  */
  lemma OverrideFailsExactly(file: RawFile, name: string, disabled: bool, lower: Option<Entry>)
    ensures Override(file, name, disabled, lower) == Failed <==>
      || Chosen(file) == Null || Chosen(file) == Unusable
      || (Chosen(file).Servers? && name in Chosen(file).entries && Chosen(file).entries[name] == NotAnObject)
      || (!disabled && file.imports == UnknownImports)
  {
  }

  /** The entry as the file spells it; empty when there is none. */
  function PairsOf(file: RawFile, name: string): Pairs {
    if Chosen(file).Servers? && name in Chosen(file).entries && Chosen(file).entries[name].Object?
    then Chosen(file).entries[name].pairs else []
  }

  lemma {:induction false} TrueKept(pairs: Pairs)
    requires NoRepeat(pairs)
    ensures WithTrue(pairs) == pairs <==> Lookup(EntryOf(pairs).fields, Disabled) == Some(Bool(true))
  {
    if pairs == [] {
      assert WithTrue(pairs) == [(Disabled, Bool(true))];
    } else {
      TrueKept(pairs[1..]);
      assert pairs == [pairs[0]] + pairs[1..];
      assert WithTrue(pairs)[0] == (if pairs[0].0 == Disabled then (Disabled, Bool(true)) else pairs[0]);
      assert WithTrue(pairs)[1..] == if pairs[0].0 == Disabled then pairs[1..] else WithTrue(pairs[1..]);
    }
  }

  lemma {:induction false} WithoutFlagKept(pairs: Pairs)
    ensures |WithoutFlag(pairs)| <= |pairs|
    ensures WithoutFlag(pairs) == pairs <==> Disabled !in EntryOf(pairs).fields
    ensures |WithoutFlag(pairs)| == |pairs| <==> Disabled !in EntryOf(pairs).fields
  {
    if pairs != [] {
      WithoutFlagKept(pairs[1..]);
      assert pairs == [pairs[0]] + pairs[1..];
    }
  }

  /** What a write that asks for nothing new finds: its flag, or none, or false as the last property. */
  predicate AsAsked(pairs: Pairs, disabled: bool, lowerDisabled: bool) {
    if disabled then Lookup(EntryOf(pairs).fields, Disabled) == Some(Bool(true))
    else if !lowerDisabled then Disabled !in EntryOf(pairs).fields
    else
      && pairs != [] && pairs[|pairs| - 1] == (Disabled, Bool(false))
      && Disabled !in EntryOf(pairs[..|pairs| - 1]).fields
  }

  lemma NextPairsKept(pairs: Pairs, disabled: bool, lowerDisabled: bool)
    requires NoRepeat(pairs)
    ensures NextPairs(pairs, disabled, lowerDisabled) == pairs <==> AsAsked(pairs, disabled, lowerDisabled)
  {
    if disabled {
      TrueKept(pairs);
    } else if !lowerDisabled {
      WithoutFlagKept(pairs);
      assert WithoutFlag(pairs) + [] == WithoutFlag(pairs);
    } else {
      FalseKept(pairs);
    }
  }

  lemma FalseKept(pairs: Pairs)
    ensures WithoutFlag(pairs) + [(Disabled, Bool(false))] == pairs <==> AsAsked(pairs, false, true)
  {
    if pairs != [] {
      var front, last := pairs[..|pairs| - 1], pairs[|pairs| - 1];
      assert pairs == front + [last];
      Snoc(WithoutFlag(pairs), (Disabled, Bool(false)));
      if last == (Disabled, Bool(false)) {
        AppendedFlagGoes(front);
        WithoutFlagKept(front);
      }
    }
  }

  lemma Snoc<T>(s: seq<T>, x: T)
    ensures (s + [x])[|s + [x]| - 1] == x && (s + [x])[..|s + [x]| - 1] == s
  {
  }

  /** A call that does not fail writes if and only if the file's entry is not already as it asks. */
  lemma OverrideWritesExactly(file: RawFile, name: string, disabled: bool, lower: Option<Entry>)
    requires WellFormed(Servers(Entries(file))) && Override(file, name, disabled, lower) != Failed
    ensures Override(file, name, disabled, lower) == Unchanged
      <==> AsAsked(PairsOf(file, name), disabled, IsDisabled(lower))
  {
    NextPairsKept(PairsOf(file, name), disabled, IsDisabled(lower));
  }

  /** A file's servers are read from mcpServers, and from mcp-servers when that is absent or null. */
  lemma ReadsExactly(file: RawFile, name: string)
    ensures file.camel.Servers? ==> Own(file, name) == OwnIn(file.camel, name)
    ensures file.camel == Unusable ==> Own(file, name).None?
    ensures file.camel in {Absent, Null} ==> Own(file, name) == OwnIn(file.dashed, name)
  {
  }

  /** The write goes to the key the file already uses, and leaves the other one alone. */
  lemma OverrideWritesInPlace(file: RawFile, name: string, disabled: bool, lower: Option<Entry>)
    ensures var file' := After(file, Override(file, name, disabled, lower));
      if file.camel.Absent? && !file.dashed.Absent? then file'.camel.Absent? else file'.dashed == file.dashed
  {
  }

  /** The commonest first call: without a project file, disabling a server writes one. */
  lemma FirstDisabling()
    ensures Override(RawFile(Absent, Absent, NoImports, 0), "s", true, None)
      == Written(RawFile(Servers(map["s" := Object([(Disabled, Bool(true))])]), Absent, NoImports, 0))
  {
    assert WithTrue([]) == [(Disabled, Bool(true))];
  }

  // ----- What a reload makes of it -----

  /**
    After the write, however the layers are grouped when they are reloaded (all that matters is
    which of them is the last to have the flag): disabling always takes effect, and enabling does
    exactly unless no configuration source has the flag and a hidden layer (a package, a plugin or
    a discovered host file, which the writer does not consult) is disabled.
  */
  lemma OverrideTakesEffect(
    file: RawFile, name: string, disabled: bool,
    hidden: seq<Option<Entry>>, sources: seq<(Option<Entry>, Option<Entry>)>, imported: Option<Entry>, reloaded: Tree)
    requires WellFormed(Servers(Entries(file)))
    requires Override(file, name, disabled, MergeOption(LowerSources(sources), imported)) != Failed
    requires var file' := After(file, Override(file, name, disabled, MergeOption(LowerSources(sources), imported)));
      LastFlag(Leaves(reloaded)) == LastFlag(hidden + (Leaves(SourcesTree(sources)) + [imported]) + [Own(file', name)])
    ensures disabled ==> IsDisabled(Effective(reloaded))
    ensures !disabled ==> (IsDisabled(Effective(reloaded))
      <==> LastFlag(Leaves(SourcesTree(sources)) + [imported]).None? && LastFlag(hidden) == Some(Bool(true)))
  {
    var lower := MergeOption(LowerSources(sources), imported);
    LowerFlag(sources, imported);
    FlagIsLastSuppliers(reloaded);
    OverrideWritesOnlyTheFlag(file, name, disabled, lower);
    var own := Own(After(file, Override(file, name, disabled, lower)), name);
    var layers := Leaves(SourcesTree(sources)) + [imported];
    LastFlagAppend(hidden + layers, [own]);
    LastFlagAppend(hidden, layers);
    assert [own][..0] == [];
  }

  /** The flag the writer finds below the file is that of the last of those layers that has one. */
  lemma LowerFlag(sources: seq<(Option<Entry>, Option<Entry>)>, imported: Option<Entry>)
    ensures Flag(MergeOption(LowerSources(sources), imported)) == LastFlag(Leaves(SourcesTree(sources)) + [imported])
  {
    var lowerTree := Merge(SourcesTree(sources), Layer(imported));
    LowerSourcesIsTree(sources);
    FlagIsLastSuppliers(lowerTree);
  }

  // ----- Every other field of the reload is unchanged -----

  /** A mark covers only fields that are present. */
  predicate Sound(e: Option<Entry>) {
    e.Some? ==> forall f | f in e.value.literal :: Marked(e.value, f)
  }

  /** Equal in everything but the flag. */
  predicate Alike(a: Option<Entry>, b: Option<Entry>) {
    && OrEmpty(a).fields - {Disabled} == OrEmpty(b).fields - {Disabled}
    && OrEmpty(a).literal == OrEmpty(b).literal
  }

  /** The same grouping of layers, equal pairwise in everything but the flag. */
  predicate Twins(t: Tree, u: Tree) {
    match t
    case Layer(a) => u.Layer? && Sound(a) && Sound(u.entry) && Alike(a, u.entry)
    case Merge(lower, higher) => u.Merge? && Twins(lower, u.lower) && Twins(higher, u.higher)
    case Clone(tree) => u.Clone? && Twins(tree, u.tree)
  }

  lemma SameLookup(a: Entry, b: Entry, f: Field)
    requires a.fields - {Disabled} == b.fields - {Disabled} && f != Disabled
    ensures Lookup(a.fields, f) == Lookup(b.fields, f)
  {
    assert f in a.fields <==> f in a.fields - {Disabled};
    assert f in b.fields <==> f in b.fields - {Disabled};
    if f in a.fields {
      assert (a.fields - {Disabled})[f] == (b.fields - {Disabled})[f];
    }
  }

  /** Merging treats an absent entry as an empty one, apart from its absence. */
  lemma MergeOrEmpty(a: Option<Entry>, b: Option<Entry>)
    requires Sound(a) && Sound(b)
    ensures OrEmpty(MergeOption(a, b)) == MergeEntry(Some(OrEmpty(a)), OrEmpty(b))
    ensures Sound(MergeOption(a, b))
  {
    if b.None? {
      assert Strips(OrEmpty(a), EMPTY) == {};
      assert OrEmpty(a).fields - {} + EMPTY.fields == OrEmpty(a).fields;
    } else if a.None? {
      assert EMPTY.fields - Strips(EMPTY, b.value) == EMPTY.fields;
    }
  }

  lemma TransportStripsAlike(b: Entry, b': Entry)
    requires Alike(Some(b), Some(b'))
    ensures TransportStrips(b) == TransportStrips(b') && Disabled !in TransportStrips(b)
    ensures IsText(b, Url) == IsText(b', Url) && Lookup(b.fields, Url) == Lookup(b'.fields, Url)
    ensures (Env in b.fields <==> Env in b'.fields) && (LiteralEnv in b.fields <==> LiteralEnv in b'.fields)
  {
    SameLookup(b, b', Command);
    SameLookup(b, b', Url);
    SameLookup(b, b', Socket);
    SameLookup(b, b', Env);
    SameLookup(b, b', LiteralEnv);
  }

  lemma StripsAlike(a: Entry, b: Entry, a': Entry, b': Entry)
    requires Alike(Some(a), Some(a')) && Alike(Some(b), Some(b'))
    ensures Strips(a, b) == Strips(a', b') && Disabled !in Strips(a, b)
  {
    TransportStripsAlike(b, b');
    SameLookup(a, a', Url);
    SameLookup(a, a', OAuth);
    assert UrlStrips(a, b) == UrlStrips(a', b');
  }

  lemma MinusDistributes(x: map<Field, Value>, y: map<Field, Value>, strips: set<Field>, flag: set<Field>)
    ensures (x - strips + y) - flag == (x - flag) - strips + (y - flag)
  {
  }

  lemma MarksAlike(a: Entry, b: Entry, a': Entry, b': Entry)
    requires Alike(Some(a), Some(a')) && Alike(Some(b), Some(b'))
    ensures MergeMarked(a, b).literal == MergeMarked(a', b').literal
  {
    forall f | f in LITERAL_FIELDS
      ensures Marked(if f in b.fields then b else a, f) == Marked(if f in b'.fields then b' else a', f)
    {
      SameLookup(a, a', f);
      SameLookup(b, b', f);
    }
  }

  lemma MergeAlike(a: Entry, b: Entry, a': Entry, b': Entry)
    requires Alike(Some(a), Some(a')) && Alike(Some(b), Some(b'))
    ensures Alike(Some(MergeEntry(Some(a), b)), Some(MergeEntry(Some(a'), b')))
  {
    StripsAlike(a, b, a', b');
    var strips := Strips(a, b);
    MinusDistributes(a.fields, b.fields, strips, {Disabled});
    MinusDistributes(a'.fields, b'.fields, strips, {Disabled});
    var base, base' := Entry(a.fields - strips, a.literal), Entry(a'.fields - strips, a'.literal);
    assert base.fields - {Disabled} == base'.fields - {Disabled} by {
      assert base.fields - {Disabled} == a.fields - {Disabled} - strips;
      assert base'.fields - {Disabled} == a'.fields - {Disabled} - strips;
    }
    MarksAlike(base, b, base', b');
  }

  /** Reloading after the write: every field but the flag, and every literal mark, is as before. */
  lemma {:induction false} TwinsLoadAlike(t: Tree, u: Tree)
    requires Twins(t, u)
    ensures Sound(Effective(t)) && Sound(Effective(u)) && Alike(Effective(t), Effective(u))
  {
    match t {
      case Layer(_) =>
      case Clone(tree) => TwinsLoadAlike(tree, u.tree);
      case Merge(lower, higher) =>
        TwinsLoadAlike(lower, u.lower);
        TwinsLoadAlike(higher, u.higher);
        MergeOrEmpty(Effective(lower), Effective(higher));
        MergeOrEmpty(Effective(u.lower), Effective(u.higher));
        MergeAlike(OrEmpty(Effective(lower)), OrEmpty(Effective(higher)),
          OrEmpty(Effective(u.lower)), OrEmpty(Effective(u.higher)));
    }
  }

  /** The file's layer before and after the write are such twins. */
  lemma OverrideKeepsOtherFields(file: RawFile, name: string, disabled: bool, lower: Option<Entry>)
    requires WellFormed(Servers(Entries(file)))
    requires Override(file, name, disabled, lower) != Failed
    ensures Twins(Layer(Own(file, name)), Layer(Own(After(file, Override(file, name, disabled, lower)), name)))
  {
    OverrideWritesOnlyTheFlag(file, name, disabled, lower);
    OnlyTheFlagDiffers(OrEmpty(Own(file, name)).fields, disabled, IsDisabled(lower));
  }

  lemma OnlyTheFlagDiffers(fields: map<Field, Value>, disabled: bool, lowerDisabled: bool)
    ensures NextFields(fields, disabled, lowerDisabled) - {Disabled} == fields - {Disabled}
  {
  }
}
