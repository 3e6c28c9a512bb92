/**
  Finding a plugin's SKILL.md files (adapter/claude-plugin-loader.ts,
  discoverContainedSkillFiles): a depth-first walk over real directories that follows
  symbolic links, stays inside the skills root and survives cycles.
*/
module SkillDiscovery {
  import opened Common
  import opened Paths

  const SKILL_FILE := "SKILL.md"

  datatype Kind = DirectoryKind | FileKind | OtherKind

  /** A directory entry with what realpath and stat answer for it; None when they fail. */
  datatype DirEntry =
    | Link(name: string, target: Option<Path>, kind: Option<Kind>)
    | Directory(name: string, resolved: Option<Path>)
    | File(name: string, resolved: Option<Path>)
    | Special(name: string)

  /** Per real directory, its entries sorted by name; no entries for one that cannot be read. */
  datatype FileSystem = FileSystem(dirs: map<Path, seq<DirEntry>>)

  /** A path that could be resolved, when it lies inside the root. */
  function Inside(root: Path, path: Option<Path>): Option<Path> {
    if path.Some? && IsContained(root, path.value) then path else None
  }

  /** The directory an entry leads into, when it lies inside the root. */
  function ChildOf(root: Path, e: DirEntry): Option<Path> {
    match e
    case Link(_, target, kind) => if kind == Some(DirectoryKind) then Inside(root, target) else None
    case Directory(_, resolved) => Inside(root, resolved)
    case _ => None
  }

  /** The skill file an entry is or points to, when it lies inside the root. */
  function SkillOf(root: Path, e: DirEntry): Option<Path> {
    match e
    case Link(name, target, kind) =>
      if kind == Some(FileKind) && name == SKILL_FILE then Inside(root, target) else None
    case File(name, resolved) =>
      if name == SKILL_FILE then Inside(root, resolved) else None
    case _ => None
  }

  function EntriesOf(fs: FileSystem, d: Path): seq<DirEntry> {
    if d in fs.dirs then fs.dirs[d] else []
  }

  function Skills(root: Path, entries: seq<DirEntry>): multiset<Path> {
    if entries == [] then multiset{}
    else
      Skills(root, entries[..|entries| - 1]) + One(SkillOf(root, entries[|entries| - 1]))
  }

  function One(p: Option<Path>): multiset<Path> {
    if p.Some? then multiset{p.value} else multiset{}
  }

  /** Every skill file of the listed directories, each directory counted once per listing. */
  function Tally(fs: FileSystem, root: Path, dirs: seq<Path>): multiset<Path> {
    if dirs == [] then multiset{}
    else Skills(root, EntriesOf(fs, dirs[0])) + Tally(fs, root, dirs[1..])
  }

  lemma {:induction false} TallyAppend(fs: FileSystem, root: Path, a: seq<Path>, b: seq<Path>)
    ensures Tally(fs, root, a + b) == Tally(fs, root, a) + Tally(fs, root, b)
  {
    if a == [] {
      assert a + b == b;
    } else {
      TallyAppend(fs, root, a[1..], b);
      assert (a + b)[1..] == a[1..] + b;
    }
  }

  // ----- Reachability -----

  /** The entry is a directory, or a link to one, whose real path is c and lies inside the root. */
  predicate LeadsInto(root: Path, e: DirEntry, c: Path) {
    && (e == Directory(e.name, Some(c)) || e == Link(e.name, Some(c), Some(DirectoryKind)))
    && IsContained(root, c)
  }

  lemma LeadsIntoExactly(root: Path, e: DirEntry, c: Path)
    ensures LeadsInto(root, e, c) <==> ChildOf(root, e) == Some(c)
  {
  }

  predicate IsChild(fs: FileSystem, root: Path, d: Path, c: Path) {
    exists i :: 0 <= i < |EntriesOf(fs, d)| && LeadsInto(root, EntriesOf(fs, d)[i], c)
  }

  /** walk leads from its first directory to its last, always into a child. */
  ghost predicate IsWalk(fs: FileSystem, root: Path, walk: seq<Path>) {
    walk != [] && forall k :: 0 < k < |walk| ==> IsChild(fs, root, walk[k - 1], walk[k])
  }

  ghost predicate Reaches(fs: FileSystem, root: Path, d: Path, e: Path) {
    exists walk :: IsWalk(fs, root, walk) && walk[0] == d && walk[|walk| - 1] == e
  }

  lemma ReachesItself(fs: FileSystem, root: Path, d: Path)
    ensures Reaches(fs, root, d, d)
  {
    assert IsWalk(fs, root, [d]);
  }

  lemma ReachesThroughChild(fs: FileSystem, root: Path, d: Path, c: Path, e: Path)
    requires IsChild(fs, root, d, c) && Reaches(fs, root, c, e)
    ensures Reaches(fs, root, d, e)
  {
    var walk :| IsWalk(fs, root, walk) && walk[0] == c && walk[|walk| - 1] == e;
    var longer := [d] + walk;
    forall k | 0 < k < |longer| ensures IsChild(fs, root, longer[k - 1], longer[k]) {
      assert k > 1 ==> IsChild(fs, root, walk[k - 2], walk[k - 1]);
    }
    assert IsWalk(fs, root, longer) && longer[|longer| - 1] == e;
  }

  /** A set closed under children holds whatever one of its members reaches. */
  lemma {:induction false} ClosedHoldsWalk(fs: FileSystem, root: Path, closed: set<Path>, walk: seq<Path>)
    requires IsWalk(fs, root, walk) && walk[0] in closed
    requires forall d, c :: d in closed && IsChild(fs, root, d, c) ==> c in closed
    ensures walk[|walk| - 1] in closed
    decreases |walk|
  {
    if |walk| > 1 {
      var shorter := walk[..|walk| - 1];
      forall k | 0 < k < |shorter| ensures IsChild(fs, root, shorter[k - 1], shorter[k]) {
        assert IsChild(fs, root, walk[k - 1], walk[k]);
      }
      ClosedHoldsWalk(fs, root, closed, shorter);
      assert IsChild(fs, root, walk[|walk| - 2], walk[|walk| - 1]);
    }
  }

  // ----- One visit, on the list of directories in the order they were entered -----

  ghost predicate ClosedFrom(fs: FileSystem, root: Path, order: seq<Path>, from: nat) {
    forall k, c :: from <= k < |order| && IsChild(fs, root, order[k], c) ==> c in order
  }

  ghost predicate ReachedFrom(fs: FileSystem, root: Path, d: Path, order: seq<Path>, from: nat) {
    forall k :: from <= k < |order| ==> Reaches(fs, root, d, order[k])
  }

  /** A visit of `directory` extended the list: it is entered, and what was added is closed and reached from it. */
  ghost predicate Visited(fs: FileSystem, root: Path, directory: Option<Path>, before: seq<Path>, order: seq<Path>) {
    && before <= order && Distinct(order)
    && ClosedFrom(fs, root, order, |before|)
    && (if directory.Some? && IsContained(root, directory.value)
        then directory.value in order && ReachedFrom(fs, root, directory.value, order, |before|)
        else order == before)
  }

  /** Directory d was entered at `start`, and its first i entries have been followed. */
  ghost predicate Underway(fs: FileSystem, root: Path, d: Path, start: nat, i: nat, order: seq<Path>) {
    && start < |order| && order[start] == d && Distinct(order) && i <= |EntriesOf(fs, d)|
    && ClosedFrom(fs, root, order, start + 1)
    && ReachedFrom(fs, root, d, order, start)
    && forall j | 0 <= j < i && ChildOf(root, EntriesOf(fs, d)[j]).Some? ::
          ChildOf(root, EntriesOf(fs, d)[j]).value in order
  }

  lemma UnderwayBegins(fs: FileSystem, root: Path, d: Path, before: seq<Path>)
    requires Distinct(before) && d !in before
    ensures Underway(fs, root, d, |before|, 0, before + [d])
  {
    ReachesItself(fs, root, d);
  }

  lemma UnderwayContinues(fs: FileSystem, root: Path, d: Path, start: nat, i: nat, order: seq<Path>, order': seq<Path>)
    requires Underway(fs, root, d, start, i, order) && i < |EntriesOf(fs, d)|
    requires Visited(fs, root, ChildOf(root, EntriesOf(fs, d)[i]), order, order')
    ensures Underway(fs, root, d, start, i + 1, order')
  {
    var child := ChildOf(root, EntriesOf(fs, d)[i]);
    forall k | start <= k < |order'| ensures Reaches(fs, root, d, order'[k]) {
      if k < |order| {
        assert order'[k] == order[k];
      } else {
        assert IsChild(fs, root, d, child.value);
        ReachesThroughChild(fs, root, d, child.value, order'[k]);
      }
    }
    forall k, c | start + 1 <= k < |order'| && IsChild(fs, root, order'[k], c) ensures c in order' {
      if k < |order| {
        assert order'[k] == order[k];
        assert c in order;
      }
    }
  }

  lemma UnderwayEnds(fs: FileSystem, root: Path, d: Path, before: seq<Path>, order: seq<Path>)
    requires Underway(fs, root, d, |before|, |EntriesOf(fs, d)|, order) && before <= order && IsContained(root, d)
    ensures Visited(fs, root, Some(d), before, order)
  {
  }

  /** The files added are the skill files of the listed directories and of the single entries. */
  ghost predicate Found(fs: FileSystem, root: Path, filesBefore: seq<Path>, files: seq<Path>,
                        dirs: seq<Path>, entries: seq<DirEntry>) {
    multiset(files) == multiset(filesBefore) + Tally(fs, root, dirs) + Skills(root, entries)
  }

  lemma FoundMore(fs: FileSystem, root: Path, a: seq<Path>, b: seq<Path>, c: seq<Path>,
                  dirs: seq<Path>, dirs': seq<Path>, entries: seq<DirEntry>, e: DirEntry)
    requires Found(fs, root, a, b, dirs, entries) && Found(fs, root, b, c, dirs', [e])
    ensures Found(fs, root, a, c, dirs + dirs', entries + [e])
  {
    TallyAppend(fs, root, dirs, dirs');
    assert (entries + [e])[..|entries|] == entries;
    assert [e][..0] == [] && Skills(root, []) == multiset{};
  }

  lemma Slices<T>(s: seq<T>, from: nat, at: nat, s': seq<T>)
    requires from <= at <= |s'| && s == s'[..at]
    ensures s'[from..] == s[from..] + s'[at..]
  {
  }

  lemma FoundContinues(fs: FileSystem, root: Path, a: seq<Path>, b: seq<Path>, c: seq<Path>,
                       order: seq<Path>, order': seq<Path>, start: nat, entries: seq<DirEntry>, i: nat)
    requires start <= |order| && order <= order' && i < |entries|
    requires Found(fs, root, a, b, order[start..], entries[..i])
      && Found(fs, root, b, c, order'[|order|..], [entries[i]])
    ensures Found(fs, root, a, c, order'[start..], entries[..i + 1])
  {
    Slices(order, start, |order|, order');
    Slices(entries[..i], 0, i, entries[..i + 1]);
    FoundMore(fs, root, a, b, c, order[start..], order'[|order|..], entries[..i], entries[i]);
  }

  /** An entry that leads nowhere adds at most its own file. */
  lemma VisitedHere(fs: FileSystem, root: Path, order: seq<Path>, a: seq<Path>, e: DirEntry)
    requires Distinct(order)
    ensures ChildOf(root, e).None? ==> Visited(fs, root, ChildOf(root, e), order, order)
    ensures SkillOf(root, e).None? ==> Found(fs, root, a, a, order[|order|..], [e])
    ensures SkillOf(root, e).Some? ==> Found(fs, root, a, a + [SkillOf(root, e).value], order[|order|..], [e])
  {
    assert [e][..0] == [];
  }

  /** The directory an entry may lead into. */
  function Destination(e: DirEntry): Option<Path> {
    match e
    case Link(_, target, kind) => if kind == Some(DirectoryKind) then target else None
    case Directory(_, resolved) => resolved
    case _ => None
  }

  /** An entry that is no skill file adds what the visit of its directory adds. */
  lemma VisitedBelow(
      fs: FileSystem, root: Path, before: seq<Path>, order: seq<Path>, a: seq<Path>, b: seq<Path>, e: DirEntry)
    requires Visited(fs, root, Destination(e), before, order) && SkillOf(root, e).None?
    requires Found(fs, root, a, b, order[|before|..], [])
    ensures Visited(fs, root, ChildOf(root, e), before, order)
    ensures Found(fs, root, a, b, order[|before|..], [e])
  {
    assert [e][..0] == [];
  }

  lemma FoundBegins(fs: FileSystem, root: Path, a: seq<Path>, order: seq<Path>, entries: seq<DirEntry>)
    ensures Found(fs, root, a, a, order[|order|..], [])
    ensures Found(fs, root, a, a, order[|order|..], entries[..0])
  {
  }

  lemma FoundEnds(fs: FileSystem, root: Path, a: seq<Path>, b: seq<Path>, order: seq<Path>, start: nat)
    requires start < |order|
    requires Found(fs, root, a, b, order[start + 1..], EntriesOf(fs, order[start])[..|EntriesOf(fs, order[start])|])
    ensures Found(fs, root, a, b, order[start..], [])
  {
    assert EntriesOf(fs, order[start])[..|EntriesOf(fs, order[start])|] == EntriesOf(fs, order[start]);
    assert order[start..][1..] == order[start + 1..];
  }

  /** Where the loop over the entries of d stands after i of them. */
  ghost predicate Progress(fs: FileSystem, root: Path, d: Path, i: nat, before: seq<Path>, order: seq<Path>,
                           filesBefore: seq<Path>, files: seq<Path>) {
    && before <= order && Underway(fs, root, d, |before|, i, order)
    && Found(fs, root, filesBefore, files, order[|before| + 1..], EntriesOf(fs, d)[..i])
  }

  lemma ProgressBegins(fs: FileSystem, root: Path, d: Path, before: seq<Path>, files: seq<Path>)
    requires Distinct(before) && d !in before
    ensures Progress(fs, root, d, 0, before, before + [d], files, files)
  {
    UnderwayBegins(fs, root, d, before);
    FoundBegins(fs, root, files, before + [d], EntriesOf(fs, d));
  }

  lemma ProgressContinues(fs: FileSystem, root: Path, d: Path, i: nat, before: seq<Path>,
                          order: seq<Path>, order': seq<Path>,
                          filesBefore: seq<Path>, files: seq<Path>, files': seq<Path>)
    requires i < |EntriesOf(fs, d)| && Progress(fs, root, d, i, before, order, filesBefore, files)
    requires Visited(fs, root, ChildOf(root, EntriesOf(fs, d)[i]), order, order')
    requires Found(fs, root, files, files', order'[|order|..], [EntriesOf(fs, d)[i]])
    ensures Progress(fs, root, d, i + 1, before, order', filesBefore, files')
  {
    UnderwayContinues(fs, root, d, |before|, i, order, order');
    FoundContinues(fs, root, filesBefore, files, files', order, order', |before| + 1, EntriesOf(fs, d), i);
  }

  lemma ProgressEnds(fs: FileSystem, root: Path, d: Path, before: seq<Path>, order: seq<Path>,
                     filesBefore: seq<Path>, files: seq<Path>)
    requires Progress(fs, root, d, |EntriesOf(fs, d)|, before, order, filesBefore, files) && IsContained(root, d)
    ensures Visited(fs, root, Some(d), before, order)
    ensures Found(fs, root, filesBefore, files, order[|before|..], [])
  {
    UnderwayEnds(fs, root, d, before, order);
    FoundEnds(fs, root, filesBefore, files, order, |before|);
  }

  // ----- The walk -----

  class SkillScanner {
    const fs: FileSystem
    const root: Path
    var visitedDirectories: set<Path>
    var skillFiles: seq<Path>
    /** The directories in the order they were entered. */
    ghost var order: seq<Path>

    constructor (fs: FileSystem, root: Path)
      ensures this.fs == fs && this.root == root && visitedDirectories == {} && skillFiles == [] && order == []
    {
      this.fs, this.root, visitedDirectories, skillFiles, order := fs, root, {}, [], [];
    }

    ghost predicate Valid()
      reads this
    {
      Distinct(order) && visitedDirectories == set d | d in order
    }

    method Visit(directory: Option<Path>)
      requires Valid()
      modifies this
      ensures Valid() && Visited(fs, root, directory, old(order), order)
      ensures Found(fs, root, old(skillFiles), skillFiles, order[|old(order)|..], [])
      ensures old(visitedDirectories) <= visitedDirectories
      decreases fs.dirs.Keys - visitedDirectories, 0
    {
      if directory.None? || !IsContained(root, directory.value) || directory.value in visitedDirectories {
        FoundBegins(fs, root, skillFiles, order, []);
        return;
      }
      var d := directory.value;
      visitedDirectories := visitedDirectories + {d};
      order := order + [d];
      ProgressBegins(fs, root, d, old(order), skillFiles);
      var entries := EntriesOf(fs, d);
      for i := 0 to |entries|
        invariant Valid() && d in visitedDirectories && old(visitedDirectories) <= visitedDirectories
        invariant Progress(fs, root, d, i, old(order), order, old(skillFiles), skillFiles)
      {
        ghost var entered, found := order, skillFiles;
        VisitEntry(entries[i]);
        ProgressContinues(fs, root, d, i, old(order), entered, order, old(skillFiles), found, skillFiles);
      }
      ProgressEnds(fs, root, d, old(order), order, old(skillFiles), skillFiles);
    }

    /** One entry of a directory's listing. */
    method VisitEntry(entry: DirEntry)
      requires Valid()
      modifies this
      ensures Valid() && Visited(fs, root, ChildOf(root, entry), old(order), order)
      ensures Found(fs, root, old(skillFiles), skillFiles, order[|old(order)|..], [entry])
      ensures old(visitedDirectories) <= visitedDirectories
      decreases fs.dirs.Keys - visitedDirectories, 2
    {
      match entry
      case Link(_, _, _) =>
        VisitLink(entry);
      case Directory(_, resolved) =>
        Visit(resolved);
        VisitedBelow(fs, root, old(order), order, old(skillFiles), skillFiles, entry);
      case File(name, resolved) =>
        VisitedHere(fs, root, order, skillFiles, entry);
        if name == SKILL_FILE && resolved.Some? && IsContained(root, resolved.value) {
          skillFiles := skillFiles + [resolved.value];
        }
      case Special(_) =>
        VisitedHere(fs, root, order, skillFiles, entry);
    }

    method VisitLink(entry: DirEntry)
      requires Valid() && entry.Link?
      modifies this
      ensures Valid() && Visited(fs, root, ChildOf(root, entry), old(order), order)
      ensures Found(fs, root, old(skillFiles), skillFiles, order[|old(order)|..], [entry])
      ensures old(visitedDirectories) <= visitedDirectories
      decreases fs.dirs.Keys - visitedDirectories, 1
    {
      VisitedHere(fs, root, order, skillFiles, entry);
      if entry.target.None? || !IsContained(root, entry.target.value) {
        return;
      }
      if entry.kind == Some(DirectoryKind) {
        Visit(entry.target);
        VisitedBelow(fs, root, old(order), order, old(skillFiles), skillFiles, entry);
      } else if entry.kind == Some(FileKind) && entry.name == SKILL_FILE {
        skillFiles := skillFiles + [entry.target.value];
      }
    }
  }

  // ----- What the walk finds -----

  lemma {:induction false} TallyMembers(fs: FileSystem, root: Path, dirs: seq<Path>, p: Path)
    ensures p in Tally(fs, root, dirs) <==> exists d :: d in dirs && HasSkill(fs, root, d, p)
  {
    if dirs != [] {
      var first, rest := dirs[0], dirs[1..];
      TallyMembers(fs, root, rest, p);
      SkillsMembers(root, EntriesOf(fs, first), p);
      assert p in Skills(root, EntriesOf(fs, first)) <==> HasSkill(fs, root, first, p);
      assert forall d :: d in dirs <==> d == first || d in rest;
    }
  }

  /** The entry is called SKILL.md and is a file, or a link to one, whose real path is p and lies inside the root. */
  predicate IsSkillFile(root: Path, e: DirEntry, p: Path) {
    && (e == File("SKILL.md", Some(p)) || e == Link("SKILL.md", Some(p), Some(FileKind)))
    && IsContained(root, p)
  }

  lemma IsSkillFileExactly(root: Path, e: DirEntry, p: Path)
    ensures IsSkillFile(root, e, p) <==> SkillOf(root, e) == Some(p)
  {
  }

  predicate HasSkill(fs: FileSystem, root: Path, d: Path, p: Path) {
    exists i :: 0 <= i < |EntriesOf(fs, d)| && IsSkillFile(root, EntriesOf(fs, d)[i], p)
  }

  lemma {:induction false} SkillsMembers(root: Path, entries: seq<DirEntry>, p: Path)
    ensures p in Skills(root, entries) <==> exists i :: 0 <= i < |entries| && IsSkillFile(root, entries[i], p)
  {
    if entries != [] {
      IsSkillFileExactly(root, entries[|entries| - 1], p);
      SkillsMembers(root, entries[..|entries| - 1], p);
    }
  }

  /** The positions of a listing's entries that are this skill file or point to it. */
  function Positions(root: Path, entries: seq<DirEntry>, p: Path): set<nat> {
    set i: nat | i < |entries| && IsSkillFile(root, entries[i], p)
  }

  lemma PositionsStep(root: Path, front: seq<DirEntry>, e: DirEntry, p: Path)
    ensures Positions(root, front + [e], p)
      == Positions(root, front, p) + if IsSkillFile(root, e, p) then {|front|} else {}
  {
    forall i: nat ensures i in Positions(root, front, p) <==> i < |front| && i in Positions(root, front + [e], p) {
      assert i < |front| ==> (front + [e])[i] == front[i];
    }
  }

  /** A listing counts a skill file once for every such entry. */
  lemma {:induction false} SkillsCount(root: Path, entries: seq<DirEntry>, p: Path)
    ensures Skills(root, entries)[p] == |Positions(root, entries, p)|
  {
    if entries != [] {
      var front, last := entries[..|entries| - 1], entries[|entries| - 1];
      SkillsCount(root, front, p);
      IsSkillFileExactly(root, last, p);
      PositionsStep(root, front, last, p);
      assert entries == front + [last];
      assert |front| !in Positions(root, front, p);
    }
  }

  /**
    discoverContainedSkillFiles: it enters exactly the directories reachable from the root
    directory through contained ones, each once, and finds exactly the contained SKILL.md
    targets listed in them, once per listing.
  */
  method DiscoverContainedSkillFiles(fs: FileSystem, root: Path, rootDirectory: Option<Path>)
    returns (skillFiles: seq<Path>, ghost entered: seq<Path>)
    ensures Distinct(entered)
    ensures forall d :: d in entered <==>
      rootDirectory.Some? && IsContained(root, rootDirectory.value) && Reaches(fs, root, rootDirectory.value, d)
    ensures multiset(skillFiles) == Tally(fs, root, entered)
    ensures forall p :: p in skillFiles <==>
      rootDirectory.Some? && IsContained(root, rootDirectory.value)
      && exists d :: Reaches(fs, root, rootDirectory.value, d) && HasSkill(fs, root, d, p)
  {
    var scanner := new SkillScanner(fs, root);
    scanner.Visit(rootDirectory);
    skillFiles, entered := scanner.skillFiles, scanner.order;
    assert entered[0..] == entered;
    if rootDirectory.Some? && IsContained(root, rootDirectory.value) {
      ClosedHoldsAll(fs, root, entered, rootDirectory.value);
    }
    TallyIsOfEntered(fs, root, entered, skillFiles);
  }

  lemma ClosedHoldsAll(fs: FileSystem, root: Path, order: seq<Path>, start: Path)
    requires ClosedFrom(fs, root, order, 0) && start in order
    ensures forall d | Reaches(fs, root, start, d) :: d in order
  {
    var closed := set e | e in order;
    forall d | Reaches(fs, root, start, d) ensures d in order {
      var walk :| IsWalk(fs, root, walk) && walk[0] == start && walk[|walk| - 1] == d;
      ClosedHoldsWalk(fs, root, closed, walk);
    }
  }

  lemma TallyIsOfEntered(fs: FileSystem, root: Path, entered: seq<Path>, files: seq<Path>)
    requires multiset(files) == Tally(fs, root, entered)
    ensures forall p :: p in files <==> exists d :: d in entered && HasSkill(fs, root, d, p)
  {
    forall p ensures p in files <==> exists d :: d in entered && HasSkill(fs, root, d, p) {
      TallyMembers(fs, root, entered, p);
      assert p in files <==> p in multiset(files);
    }
  }
}
