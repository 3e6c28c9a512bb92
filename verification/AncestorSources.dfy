/**
  Opt-in discovery of ancestor config files (adapter/config.ts): the root is the deepest
  configured directory around cwd, the walk lists the directories from it down to cwd's
  parent, and files reached under several names load once, at their nearest position.
*/
module AncestorSources {
  import opened Common
  import opened Paths

  /** A path as realpath or resolve returns it. */
  type RealPath = p: Path | forall segment | segment in p :: segment != "" && segment != ".."

  function Dirname(p: RealPath): RealPath {
    if p == [] then [] else p[..|p| - 1]
  }

  // ----- Choosing the root -----

  /** The length of the path's text. */
  function TextLength(p: Path): nat {
    if p == [] then 1 else if |p| == 1 then 1 + |p[0]| else TextLength(p[..|p| - 1]) + 1 + |p[|p| - 1]|
  }

  lemma {:induction false} DeeperIsLonger(p: RealPath, q: RealPath)
    requires p < q
    ensures TextLength(p) < TextLength(q)
  {
    var parent := Dirname(q);
    if p != parent {
      DeeperIsLonger(p, parent);
    }
  }

  predicate IsRoot(home: RealPath, cwd: RealPath, root: RealPath) {
    home <= root && root <= cwd
  }

  /** valid.sort((left, right) => right.length - left.length)[0]: the sort keeps the order of equals. */
  function FirstLongest(valid: seq<RealPath>): (r: RealPath)
    requires valid != []
    ensures r in valid && forall v :: v in valid ==> TextLength(v) <= TextLength(r)
  {
    if |valid| == 1 then valid[0]
    else
      var rest := FirstLongest(valid[1..]);
      if TextLength(valid[0]) >= TextLength(rest) then valid[0] else rest
  }

  /**
    A source's ancestorConfigRoots: not an array, or its entries as realpath and stat answer for
    them (None: malformed, missing or no directory).
  */
  datatype Setting = NotAnArray | Roots(entries: seq<Option<RealPath>>)

  /** The last source that has the setting decides alone; anything but an array counts as no entries. */
  function ConfiguredEntries(sources: seq<Option<Setting>>): seq<Option<RealPath>> {
    if sources == [] then []
    else
      var last := sources[|sources| - 1];
      if last.None? then ConfiguredEntries(sources[..|sources| - 1])
      else if last.value.NotAnArray? then [] else last.value.entries
  }

  /** Which source decides: none after it has the setting. */
  lemma {:induction false} LastSettingDecides(sources: seq<Option<Setting>>, k: nat)
    requires k < |sources| && sources[k].Some? && forall j | k < j < |sources| :: sources[j].None?
    ensures ConfiguredEntries(sources) == match sources[k].value {
      case NotAnArray => []
      case Roots(entries) => entries
    }
  {
    if k < |sources| - 1 {
      LastSettingDecides(sources[..|sources| - 1], k);
    }
  }

  lemma {:induction false} NoSettingNoEntries(sources: seq<Option<Setting>>)
    requires forall j | 0 <= j < |sources| :: sources[j].None?
    ensures ConfiguredEntries(sources) == []
  {
    if sources != [] {
      NoSettingNoEntries(sources[..|sources| - 1]);
    }
  }

  /**
    getConfiguredAncestorRoot over the global sources: the chosen root lies below home and around
    cwd, and every other such entry contains it.
  */
  method GetConfiguredAncestorRoot(sources: seq<Option<Setting>>, home: RealPath, cwd: RealPath)
    returns (root: Option<RealPath>)
    ensures root.None? <==>
      forall entry | entry in ConfiguredEntries(sources) && entry.Some? :: !IsRoot(home, cwd, entry.value)
    ensures root.Some? ==> root in ConfiguredEntries(sources) && IsRoot(home, cwd, root.value)
    ensures root.Some? ==> forall entry | entry in ConfiguredEntries(sources) && entry.Some? ::
      IsRoot(home, cwd, entry.value) ==> entry.value <= root.value
  {
    var setting: Option<Setting> := None;
    for k := 0 to |sources|
      invariant ConfiguredEntries(sources[..k]) ==
        if setting.None? || setting.value.NotAnArray? then [] else setting.value.entries
    {
      assert sources[..k + 1][..k] == sources[..k];
      if sources[k].Some? {
        setting := sources[k];
      }
    }
    assert sources[..|sources|] == sources;
    if setting.None? || setting.value.NotAnArray? {
      return None;
    }
    root := ChooseRoot(setting.value.entries, home, cwd);
  }

  /** The part over the entries: those that qualify, and the longest of them. */
  method ChooseRoot(configured: seq<Option<RealPath>>, home: RealPath, cwd: RealPath)
    returns (root: Option<RealPath>)
    ensures root.None? <==> forall entry | entry in configured && entry.Some? :: !IsRoot(home, cwd, entry.value)
    ensures root.Some? ==> root in configured && IsRoot(home, cwd, root.value)
    ensures root.Some? ==> forall entry | entry in configured && entry.Some? ::
      IsRoot(home, cwd, entry.value) ==> entry.value <= root.value
  {
    var valid: seq<RealPath> := [];
    for i := 0 to |configured|
      invariant forall v: RealPath :: v in valid <==> Some(v) in configured[..i] && IsRoot(home, cwd, v)
    {
      if configured[i].Some? {
        var candidate := configured[i].value;
        ContainmentExactly(home, candidate);
        ContainmentExactly(candidate, cwd);
        if IsWithin(home, candidate) && IsWithin(candidate, cwd) {
          valid := valid + [candidate];
        }
      }
    }
    assert configured[..|configured|] == configured;
    if valid == [] {
      forall entry | entry in configured && entry.Some? ensures !IsRoot(home, cwd, entry.value) {
        assert entry == Some(entry.value);
      }
      return None;
    }
    var longest := FirstLongest(valid);
    forall entry | entry in configured && entry.Some? && IsRoot(home, cwd, entry.value) ensures entry.value <= longest {
      assert entry == Some(entry.value) && entry.value in valid;
      if longest < entry.value {
        DeeperIsLonger(longest, entry.value);
      }
    }
    return Some(longest);
  }

  // ----- The walk -----

  /** The directories from root down to bottom, farthest first. */
  function Chain(root: RealPath, bottom: RealPath): seq<RealPath>
    decreases |bottom|
  {
    if !(root <= bottom) then [] else if root == bottom then [root] else Chain(root, Dirname(bottom)) + [bottom]
  }

  lemma {:induction false} ChainIsTheLineBetween(root: RealPath, bottom: RealPath)
    ensures forall d: RealPath :: d in Chain(root, bottom) <==> root <= d && d <= bottom
    ensures forall i :: 0 <= i < |Chain(root, bottom)| ==> |Chain(root, bottom)[i]| == |root| + i
    decreases |bottom|
  {
    if root < bottom {
      var parent := Dirname(bottom);
      ChainIsTheLineBetween(root, parent);
      var above := Chain(root, parent);
      assert parent in above && above[|above| - 1] in above;
      ChainLength(root, parent);
      forall d: RealPath ensures d in Chain(root, bottom) <==> root <= d && d <= bottom {
        assert d in Chain(root, bottom) <==> d in above || d == bottom;
        assert d <= bottom <==> d <= parent || d == bottom;
      }
    } else if root == bottom {
      forall d: RealPath ensures d in Chain(root, bottom) <==> root <= d && d <= bottom {
        assert root <= d && d <= root ==> d == root;
      }
    }
  }

  lemma {:induction false} ChainLength(root: RealPath, bottom: RealPath)
    requires root <= bottom
    ensures |Chain(root, bottom)| == |bottom| - |root| + 1
    decreases |bottom|
  {
    if root != bottom {
      ChainLength(root, Dirname(bottom));
    }
  }

  /** getAncestorProjectDirs: exactly the chain from the root to cwd's parent, farthest first. */
  method GetAncestorProjectDirs(cwd: RealPath, root: RealPath) returns (dirs: seq<RealPath>)
    ensures dirs == Chain(root, Dirname(cwd))
  {
    dirs := [];
    var current := Dirname(cwd);
    ContainmentExactly(root, current);
    while IsWithin(root, current)
      invariant IsWithin(root, current) <==> root <= current
      invariant Chain(root, current) + dirs == Chain(root, Dirname(cwd))
      decreases |current|
    {
      ghost var below := dirs;
      dirs := [current] + dirs;
      if current == root {
        return;
      }
      var parent := Dirname(current);
      if parent == current {
        return;
      }
      ChainStep(root, current, below);
      current := parent;
      ContainmentExactly(root, current);
    }
  }

  lemma ChainStep(root: RealPath, current: RealPath, below: seq<RealPath>)
    requires root < current
    ensures Chain(root, current) + below == Chain(root, Dirname(current)) + ([current] + below)
  {
  }

  // ----- Aliases -----

  datatype Source = Source(path: Path, shared: bool)

  /** An entry of the insertion-ordered Map from file identity to source. */
  datatype Found = Found(identity: Path, source: Source)

  predicate HasIdentity(entries: seq<Found>, identity: Path) {
    exists e :: e in entries && e.identity == identity
  }

  /** Map.delete */
  function MapDelete(entries: seq<Found>, identity: Path): (rest: seq<Found>)
    ensures forall e :: e in rest <==> e in entries && e.identity != identity
  {
    if entries == [] then []
    else
      var rest := MapDelete(entries[1..], identity);
      assert entries == [entries[0]] + entries[1..];
      if entries[0].identity == identity then rest else [entries[0]] + rest
  }

  /** Map.set: a key that is present keeps its position, a new one goes last. */
  function MapSet(entries: seq<Found>, entry: Found): seq<Found> {
    if entries == [] then [entry]
    else if entries[0].identity == entry.identity then [entry] + entries[1..]
    else [entries[0]] + MapSet(entries[1..], entry)
  }

  lemma {:induction false} SetWhenAbsent(entries: seq<Found>, entry: Found)
    requires forall e :: e in entries ==> e.identity != entry.identity
    ensures MapSet(entries, entry) == entries + [entry]
  {
    if entries != [] {
      SetWhenAbsent(entries[1..], entry);
    }
  }

  /** The position of the last entry with an identity, or -1. */
  function Rank(entries: seq<Found>, identity: Path): (k: int)
    ensures -1 <= k < |entries|
    ensures k >= 0 ==> entries[k].identity == identity
    ensures forall j :: k < j < |entries| ==> entries[j].identity != identity
  {
    if entries == [] then -1
    else if entries[|entries| - 1].identity == identity then |entries| - 1
    else Rank(entries[..|entries| - 1], identity)
  }

  predicate Located(entries: seq<Found>, e: Found) {
    Rank(entries, e.identity) >= 0 && e == entries[Rank(entries, e.identity)]
  }

  predicate Increasing(entries: seq<Found>, kept: seq<Found>) {
    forall i, j :: 0 <= i < j < |kept| ==> Rank(entries, kept[i].identity) < Rank(entries, kept[j].identity)
  }

  /** kept is made of the last entry of each identity, in the order of those last entries. */
  ghost predicate KeepsLast(entries: seq<Found>, kept: seq<Found>) {
    && Increasing(entries, kept)
    && (forall e :: e in kept <==> e in entries && Located(entries, e))
  }

  lemma HeadRanksFirst(entries: seq<Found>, kept: seq<Found>, e: Found)
    requires Increasing(entries, kept) && kept != [] && e in kept[1..]
    ensures Rank(entries, kept[0].identity) < Rank(entries, e.identity)
  {
    var j :| 0 <= j < |kept[1..]| && kept[1..][j] == e;
    assert kept[j + 1] == e;
  }

  lemma {:induction false} DeleteKeepsOrder(entries: seq<Found>, kept: seq<Found>, identity: Path)
    requires Increasing(entries, kept)
    ensures Increasing(entries, MapDelete(kept, identity))
  {
    if kept != [] {
      TailIncreases(entries, kept);
      DeleteKeepsOrder(entries, kept[1..], identity);
      var rest := MapDelete(kept[1..], identity);
      forall e | e in rest ensures Rank(entries, kept[0].identity) < Rank(entries, e.identity) {
        HeadRanksFirst(entries, kept, e);
      }
      ConsIncreases(entries, kept[0], rest);
    }
  }

  lemma TailIncreases(entries: seq<Found>, kept: seq<Found>)
    requires Increasing(entries, kept) && kept != []
    ensures Increasing(entries, kept[1..])
  {
  }

  lemma ConsIncreases(entries: seq<Found>, first: Found, rest: seq<Found>)
    requires Increasing(entries, rest)
    requires forall e :: e in rest ==> Rank(entries, first.identity) < Rank(entries, e.identity)
    ensures Increasing(entries, [first] + rest)
  {
  }

  lemma RankAppended(entries: seq<Found>, entry: Found, identity: Path)
    ensures Rank(entries + [entry], identity) ==
      if identity == entry.identity then |entries| else Rank(entries, identity)
  {
    assert (entries + [entry])[..|entries|] == entries;
  }

  lemma AppendKeepsOrder(entries: seq<Found>, others: seq<Found>, entry: Found)
    requires Increasing(entries, others) && forall e :: e in others ==> e.identity != entry.identity
    ensures Increasing(entries + [entry], others + [entry])
  {
    var kept := others + [entry];
    forall i, j | 0 <= i < j < |kept|
      ensures Rank(entries + [entry], kept[i].identity) < Rank(entries + [entry], kept[j].identity)
    {
      RankAppended(entries, entry, kept[i].identity);
      RankAppended(entries, entry, kept[j].identity);
      assert kept[i] == others[i] && others[i] in others;
      assert j < |others| ==> kept[j] == others[j] && others[j] in others;
    }
  }

  lemma LocatedAppended(entries: seq<Found>, entry: Found, e: Found)
    ensures e in entries + [entry] && Located(entries + [entry], e) <==>
      e == entry || (e.identity != entry.identity && e in entries && Located(entries, e))
  {
    RankAppended(entries, entry, e.identity);
  }

  /** Deleting before setting moves an identity to its newest position. */
  lemma ReinsertKeepsLast(entries: seq<Found>, kept: seq<Found>, entry: Found)
    requires KeepsLast(entries, kept)
    ensures KeepsLast(entries + [entry], MapSet(MapDelete(kept, entry.identity), entry))
  {
    var others := MapDelete(kept, entry.identity);
    SetWhenAbsent(others, entry);
    DeleteKeepsOrder(entries, kept, entry.identity);
    AppendKeepsOrder(entries, others, entry);
    forall e ensures e in others + [entry] <==> e in entries + [entry] && Located(entries + [entry], e) {
      LocatedAppended(entries, entry, e);
    }
  }

  /** Every file is kept under the nearest name that reaches it, so identities are distinct. */
  lemma KeptAreDistinct(entries: seq<Found>, kept: seq<Found>)
    requires KeepsLast(entries, kept)
    ensures forall i, j :: 0 <= i < j < |kept| ==> kept[i].identity != kept[j].identity
    ensures forall e :: e in entries ==> HasIdentity(kept, e.identity)
  {
    forall e | e in entries ensures HasIdentity(kept, e.identity) {
      var last := entries[Rank(entries, e.identity)];
      assert last in kept;
    }
  }

  /** What KeepsLast says fixes the list: no other order and no other choice of names meets it. */
  lemma KeptIsDetermined(entries: seq<Found>, kept: seq<Found>, kept': seq<Found>)
    requires KeepsLast(entries, kept) && KeepsLast(entries, kept')
    ensures kept == kept'
  {
    SameIncreasing(entries, kept, kept');
  }

  lemma HasMember<T>(s: seq<T>)
    ensures s == [] || s[0] in s
  {
  }

  lemma {:induction false} SameIncreasing(entries: seq<Found>, a: seq<Found>, b: seq<Found>)
    requires Increasing(entries, a) && Increasing(entries, b)
    requires forall e :: e in a <==> e in b
    ensures a == b
  {
    if a != [] {
      assert a[0] in b;
      assert b[0] in a;
      assert a[0] == b[0];
      forall e ensures e in a[1..] <==> e in b[1..] {
        TailMembers(entries, a, e);
        TailMembers(entries, b, e);
      }
      SameIncreasing(entries, a[1..], b[1..]);
    } else {
      HasMember(b);
    }
  }

  lemma TailMembers(entries: seq<Found>, a: seq<Found>, e: Found)
    requires Increasing(entries, a) && a != []
    ensures e in a[1..] <==> e in a && e != a[0]
    ensures Increasing(entries, a[1..])
  {
    assert a == [a[0]] + a[1..];
  }

  // ----- The sources -----

  /** What the file system answers: a path's identity, and whether a file is there. */
  datatype Files = Files(identity: Path -> Path, present: Path -> bool)

  function Consider(files: Files, reserved: set<Path>, source: Source): seq<Found> {
    var identity := files.identity(source.path);
    if identity in reserved || !files.present(source.path) then [] else [Found(identity, source)]
  }

  /** The entries the nested loops insert, in their order: per directory the shared file, then Pi's. */
  function Inserted(files: Files, reserved: set<Path>, configDir: string, dirs: seq<RealPath>): seq<Found> {
    if dirs == [] then []
    else
      var dir := dirs[|dirs| - 1];
      Inserted(files, reserved, configDir, dirs[..|dirs| - 1])
      + Consider(files, reserved, SharedFile(dir)) + Consider(files, reserved, PiFile(dir, configDir))
  }

  function SharedFile(dir: Path): Source {
    Source(dir + [".mcp.json"], true)
  }

  function PiFile(dir: Path, configDir: string): Source {
    Source(dir + [configDir, "mcp.json"], false)
  }

  /** One turn of the inner loop. */
  method Insert(files: Files, reserved: set<Path>, source: Source, sources: seq<Found>, ghost earlier: seq<Found>)
    returns (grown: seq<Found>)
    requires KeepsLast(earlier, sources)
    ensures KeepsLast(earlier + Consider(files, reserved, source), grown)
  {
    var identity := files.identity(source.path);
    if identity in reserved || !files.present(source.path) {
      assert earlier + [] == earlier;
      return sources;
    }
    grown := MapDelete(sources, identity);
    grown := MapSet(grown, Found(identity, source));
    ReinsertKeepsLast(earlier, sources, Found(identity, source));
  }

  /** An existing file of one of the directories that is not reserved under another name. */
  predicate Eligible(files: Files, reserved: set<Path>, configDir: string, dirs: seq<RealPath>, source: Source) {
    && files.present(source.path) && files.identity(source.path) !in reserved
    && exists dir :: dir in dirs && (source == SharedFile(dir) || source == PiFile(dir, configDir))
  }

  lemma {:induction false} InsertedExactly(
      files: Files, reserved: set<Path>, configDir: string, dirs: seq<RealPath>, e: Found)
    ensures e in Inserted(files, reserved, configDir, dirs) <==>
      e.identity == files.identity(e.source.path) && Eligible(files, reserved, configDir, dirs, e.source)
  {
    if dirs != [] {
      var front, last := dirs[..|dirs| - 1], dirs[|dirs| - 1];
      InsertedExactly(files, reserved, configDir, front, e);
      assert forall dir :: dir in dirs <==> dir in front || dir == last;
    }
  }

  /** The nested loops. */
  method InsertAll(
      files: Files, reserved: set<Path>, configDir: string, dirs: seq<RealPath>) returns (sources: seq<Found>)
    ensures KeepsLast(Inserted(files, reserved, configDir, dirs), sources)
  {
    sources := [];
    for i := 0 to |dirs|
      invariant KeepsLast(Inserted(files, reserved, configDir, dirs[..i]), sources)
    {
      ghost var earlier := Inserted(files, reserved, configDir, dirs[..i]);
      assert dirs[..i + 1][..i] == dirs[..i];
      sources := Insert(files, reserved, SharedFile(dirs[i]), sources, earlier);
      earlier := earlier + Consider(files, reserved, SharedFile(dirs[i]));
      sources := Insert(files, reserved, PiFile(dirs[i], configDir), sources, earlier);
    }
    assert dirs[..|dirs|] == dirs;
  }

  /** The sources kept are eligible files, each file once, and no eligible file is missing. */
  lemma KeptExactly(files: Files, reserved: set<Path>, configDir: string, dirs: seq<RealPath>, kept: seq<Found>)
    requires KeepsLast(Inserted(files, reserved, configDir, dirs), kept)
    ensures forall i, j :: 0 <= i < j < |kept| ==> kept[i].identity != kept[j].identity
    ensures forall e :: e in kept ==>
      e.identity == files.identity(e.source.path) && Eligible(files, reserved, configDir, dirs, e.source)
    ensures forall source | Eligible(files, reserved, configDir, dirs, source) ::
      HasIdentity(kept, files.identity(source.path))
  {
    var inserted := Inserted(files, reserved, configDir, dirs);
    KeptAreDistinct(inserted, kept);
    forall e | e in kept
      ensures e.identity == files.identity(e.source.path) && Eligible(files, reserved, configDir, dirs, e.source)
    {
      InsertedExactly(files, reserved, configDir, dirs, e);
    }
    forall source | Eligible(files, reserved, configDir, dirs, source)
      ensures HasIdentity(kept, files.identity(source.path))
    {
      var e := Found(files.identity(source.path), source);
      InsertedExactly(files, reserved, configDir, dirs, e);
      assert e in inserted;
    }
  }

  /**
    The ancestor part of getConfigSources: the eligible files of the directories from the root
    down to cwd's parent, each file once and at the position of its nearest name.
  */
  method GetAncestorSources(files: Files, reserved: set<Path>, configDir: string, cwd: RealPath, root: Option<RealPath>)
    returns (sources: seq<Found>)
    ensures root.None? ==> sources == []
    ensures root.Some? ==> KeepsLast(Inserted(files, reserved, configDir, Chain(root.value, Dirname(cwd))), sources)
    ensures root.Some? ==>
      forall source | Eligible(files, reserved, configDir, Chain(root.value, Dirname(cwd)), source) ::
        HasIdentity(sources, files.identity(source.path))
    ensures forall i, j :: 0 <= i < j < |sources| ==> sources[i].identity != sources[j].identity
    ensures forall e :: e in sources ==> e.identity == files.identity(e.source.path) && e.identity !in reserved
  {
    sources := [];
    if root.None? {
      return;
    }
    var dirs := GetAncestorProjectDirs(cwd, root.value);
    sources := InsertAll(files, reserved, configDir, dirs);
    KeptExactly(files, reserved, configDir, dirs, sources);
  }

  // ----- Precedence -----

  /** Deeper directories come later, and within one the shared file before Pi's. */
  function Precedence(source: Source): int {
    if source.shared then 2 * (|source.path| - 1) else 2 * (|source.path| - 2) + 1
  }

  predicate Ordered(entries: seq<Found>) {
    forall i, j :: 0 <= i < j < |entries| ==> Precedence(entries[i].source) < Precedence(entries[j].source)
  }

  lemma OrderedSnoc(entries: seq<Found>, e: Found)
    requires Ordered(entries) && forall x :: x in entries ==> Precedence(x.source) < Precedence(e.source)
    ensures Ordered(entries + [e])
  {
  }

  lemma ConsiderOrdered(entries: seq<Found>, files: Files, reserved: set<Path>, source: Source)
    requires Ordered(entries) && forall x :: x in entries ==> Precedence(x.source) < Precedence(source)
    ensures Ordered(entries + Consider(files, reserved, source))
    ensures forall x :: x in entries + Consider(files, reserved, source) ==> Precedence(x.source) <= Precedence(source)
  {
    if Consider(files, reserved, source) != [] {
      OrderedSnoc(entries, Consider(files, reserved, source)[0]);
      assert Consider(files, reserved, source) == [Consider(files, reserved, source)[0]];
    } else {
      assert entries + [] == entries;
    }
  }

  /** The loops insert in the order of precedence, farthest first. */
  lemma {:induction false} InsertedInOrder(
    files: Files, reserved: set<Path>, configDir: string, dirs: seq<RealPath>, base: nat)
    requires forall i :: 0 <= i < |dirs| ==> |dirs[i]| == base + i
    ensures Ordered(Inserted(files, reserved, configDir, dirs))
    ensures forall x :: x in Inserted(files, reserved, configDir, dirs) ==> Precedence(x.source) < 2 * (base + |dirs|)
  {
    if dirs != [] {
      var front, dir := dirs[..|dirs| - 1], dirs[|dirs| - 1];
      InsertedInOrder(files, reserved, configDir, front, base);
      var before := Inserted(files, reserved, configDir, front);
      ConsiderOrdered(before, files, reserved, SharedFile(dir));
      ConsiderOrdered(before + Consider(files, reserved, SharedFile(dir)), files, reserved, PiFile(dir, configDir));
    }
  }

  lemma KeptInOrder(entries: seq<Found>, kept: seq<Found>)
    requires Ordered(entries) && KeepsLast(entries, kept)
    ensures Ordered(kept)
    ensures forall e, x :: e in kept && x in entries && x.identity == e.identity ==>
      Precedence(x.source) <= Precedence(e.source)
  {
    forall i, j | 0 <= i < j < |kept| ensures Precedence(kept[i].source) < Precedence(kept[j].source) {
      assert kept[i] in kept && kept[j] in kept;
    }
    forall e, x | e in kept && x in entries && x.identity == e.identity
      ensures Precedence(x.source) <= Precedence(e.source)
    {
      var k :| 0 <= k < |entries| && entries[k] == x;
      assert k <= Rank(entries, e.identity);
    }
  }

  /**
    The ancestor sources come farthest first, shared files before Pi's, and of all eligible names of
    one file the nearest is kept.
  */
  lemma SourcesAreNearest(
    files: Files, reserved: set<Path>, configDir: string, root: RealPath, cwd: RealPath, sources: seq<Found>)
    requires KeepsLast(Inserted(files, reserved, configDir, Chain(root, Dirname(cwd))), sources)
    ensures Ordered(sources)
    ensures forall e, source |
      e in sources && Eligible(files, reserved, configDir, Chain(root, Dirname(cwd)), source) ::
      files.identity(source.path) == e.identity ==> Precedence(source) <= Precedence(e.source)
  {
    var dirs := Chain(root, Dirname(cwd));
    var inserted := Inserted(files, reserved, configDir, dirs);
    ChainIsTheLineBetween(root, Dirname(cwd));
    InsertedInOrder(files, reserved, configDir, dirs, |root|);
    KeptInOrder(inserted, sources);
    forall e, source | e in sources && Eligible(files, reserved, configDir, dirs, source)
      ensures files.identity(source.path) == e.identity ==> Precedence(source) <= Precedence(e.source)
    {
      var x := Found(files.identity(source.path), source);
      InsertedExactly(files, reserved, configDir, dirs, x);
    }
  }
}
