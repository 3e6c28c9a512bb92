/**
  What the bearer-store protocol keeps under any schedule of faults: a read never
  returns anything but the installed record, a save is atomic, and without faults
  the accounts are exactly those of a plain map from server to record.
*/
module BearerStoreProofs {
  import opened Common
  import opened BearerStore

  // ----- Reading without faults -----

  function JoinEntries(entries: map<Account, Text>, s: Server, d: Text, i: nat, n: nat): Option<Text>
    decreases n - i
  {
    if i >= n then Some([])
    else
      var chunk := Lookup(entries, Chunk(s, d, i));
      var rest := JoinEntries(entries, s, d, i + 1, n);
      if chunk.None? || rest.None? then None else Some(chunk.value + rest.value)
  }

  /** The answer a read gets when no account operation fails. */
  function PureRead(c: Codec, entries: map<Account, Text>, s: Server): Reading {
    var main := Lookup(entries, Main(s));
    if main.None? then Absent
    else
      match c.parseManifest(main.value)
      case Malformed => Failed
      case Plain => Decode(c, main)
      case Chunked(m) => Decode(c, JoinEntries(entries, s, m.chunkDigest, 0, m.chunkCount))
  }

  lemma {:induction false} ReadChunksAgrees(f: Faults, st: Store, s: Server, d: Text, i: nat, n: nat)
    ensures var (st', payload) := ReadChunks(f, st, s, d, i, n);
      && st'.entries == st.entries
      && (payload.None? || payload == JoinEntries(st.entries, s, d, i, n))
      && (FaultFree(f) ==> payload == JoinEntries(st.entries, s, d, i, n))
    decreases n - i
  {
    if i < n {
      ReadChunksAgrees(f, ReadOp(f, st, Chunk(s, d, i)).0, s, d, i + 1, n);
    }
  }

  /** Faults can turn an answer into an error, never into another answer; reads change nothing. */
  lemma ReadAgrees(c: Codec, f: Faults, st: Store, s: Server)
    ensures var (st', reading) := ReadSpec(c, f, st, s);
      && st'.entries == st.entries
      && (reading == Failed || reading == PureRead(c, st.entries, s))
      && (FaultFree(f) ==> reading == PureRead(c, st.entries, s))
  {
    var st1 := ReadOp(f, st, Main(s)).0;
    var main := Lookup(st.entries, Main(s));
    if main.Some? && c.parseManifest(main.value).Chunked? {
      var m := c.parseManifest(main.value).manifest;
      ReadChunksAgrees(f, st1, s, m.chunkDigest, 0, m.chunkCount);
    }
  }

  lemma {:induction false} JoinOfSlices(entries: map<Account, Text>, s: Server, d: Text, p: Text, i: nat, n: nat)
    requires forall k | i <= k < n :: Lookup(entries, Chunk(s, d, k)) in {None, Some(Slice(p, k))}
    ensures JoinEntries(entries, s, d, i, n) in {None, Some(SlicesFrom(p, i, n))}
    ensures JoinEntries(entries, s, d, i, n).Some? <==> forall k | i <= k < n :: Chunk(s, d, k) in entries
    decreases n - i
  {
    if i < n {
      assert Lookup(entries, Chunk(s, d, i)) in {None, Some(Slice(p, i))};
      JoinOfSlices(entries, s, d, p, i + 1, n);
      if JoinEntries(entries, s, d, i + 1, n).None? {
        var k :| i + 1 <= k < n && Chunk(s, d, k) !in entries;
      }
    }
  }

  // ----- The effect of each loop on every account -----

  predicate InRange(a: Account, s: Server, d: Text, i: nat, n: nat) {
    a.Chunk? && a.server == s && a.digest == d && i <= a.index < n
  }

  lemma {:induction false} WriteChunksEffect(f: Faults, st: Store, s: Server, d: Text, p: Text, i: nat, n: nat)
    ensures var (st', ok) := WriteChunks(f, st, s, d, p, i, n);
      && (forall a :: Lookup(st'.entries, a) == Lookup(st.entries, a)
            || (InRange(a, s, d, i, n) && Lookup(st'.entries, a) == Some(Slice(p, a.index))))
      && (ok ==> forall k | i <= k < n :: Lookup(st'.entries, Chunk(s, d, k)) == Some(Slice(p, k)))
      && (FaultFree(f) ==> ok)
    decreases n - i
  {
    if i < n {
      var (st1, ok1) := WriteOp(f, st, Chunk(s, d, i), Slice(p, i));
      if ok1 {
        WriteChunksEffect(f, st1, s, d, p, i + 1, n);
      }
    }
  }

  lemma {:induction false} RemoveChunksEffect(f: Faults, st: Store, s: Server, d: Text, i: nat, n: nat)
    ensures var (st', ok) := RemoveChunks(f, st, s, d, i, n);
      && (forall a :: Lookup(st'.entries, a) == Lookup(st.entries, a)
            || (InRange(a, s, d, i, n) && Lookup(st'.entries, a) == None))
      && (ok ==> forall k | i <= k < n :: Lookup(st'.entries, Chunk(s, d, k)) == None)
      && (FaultFree(f) ==> ok)
    decreases n - i
  {
    if i < n {
      var (st1, ok1) := RemoveOp(f, st, Chunk(s, d, i));
      if ok1 {
        RemoveChunksEffect(f, st1, s, d, i + 1, n);
      }
    }
  }

  /** Where a save of payload p may have put one of p's chunks. */
  predicate OwnChunk(c: Codec, a: Account, s: Server, p: Text) {
    Splits(p) && InRange(a, s, c.digest(p), 0, Count(p))
  }

  lemma InstallEffect(c: Codec, f: Faults, st: Store, s: Server, p: Text)
    ensures var out := Install(c, f, st, s, p);
      && Lookup(out.store.entries, Main(s)) ==
            (if out.installed then Some(MainValue(c, p)) else Lookup(st.entries, Main(s)))
      && (forall a | a != Main(s) :: Lookup(out.store.entries, a) == Lookup(st.entries, a)
            || (OwnChunk(c, a, s, p) && Lookup(out.store.entries, a) == Some(Slice(p, a.index))))
      && (out.installed ==> forall a | OwnChunk(c, a, s, p) :: Lookup(out.store.entries, a) == Some(Slice(p, a.index)))
      && (out.ok ==> out.installed)
      && (AllOrNothing(f) ==> out.ok == out.installed)
      && (FaultFree(f) ==> out.ok)
  {
    if Splits(p) {
      WriteChunksEffect(f, st, s, c.digest(p), p, 0, Count(p));
      var (st1, ok) := WriteChunks(f, st, s, c.digest(p), p, 0, Count(p));
      forall a | ok && OwnChunk(c, a, s, p) ensures Lookup(st1.entries, a) == Some(Slice(p, a.index)) {
        assert a == Chunk(s, c.digest(p), a.index);
      }
    }
  }

  /** The manifest whose chunks a save collects, if it collects any. */
  function Collected(c: Codec, f: Faults, st: Store, s: Server, r: Record): Option<Manifest> {
    var p := c.stringify(r);
    var (st1, previous) := ReadExistingManifest(c, f, st, s);
    var manifest := if Splits(p) then Some(CreateManifest(c, p)) else None;
    if SameDigest(previous, manifest) then None
    else if Install(c, f, st1, s, p).ok then previous else manifest
  }

  predicate OfManifest(a: Account, s: Server, m: Option<Manifest>) {
    m.Some? && InRange(a, s, m.value.chunkDigest, 0, m.value.chunkCount)
  }

  lemma SaveEffect(c: Codec, f: Faults, st: Store, s: Server, r: Record)
    ensures var out, p, gone := SaveSpec(c, f, st, s, r), c.stringify(r), Collected(c, f, st, s, r);
      && Lookup(out.store.entries, Main(s)) ==
            (if out.installed then Some(MainValue(c, p)) else Lookup(st.entries, Main(s)))
      && (forall a | a != Main(s) && Lookup(out.store.entries, a) != Lookup(st.entries, a) ::
            || (OfManifest(a, s, gone) && Lookup(out.store.entries, a) == None)
            || (OwnChunk(c, a, s, p) && Lookup(out.store.entries, a) == Some(Slice(p, a.index))))
      && (out.ok ==> forall a | OwnChunk(c, a, s, p) :: Lookup(out.store.entries, a) == Some(Slice(p, a.index)))
      && (FaultFree(f) ==> forall a | OfManifest(a, s, gone) :: Lookup(out.store.entries, a) == None)
      && (out.ok ==> out.installed)
      && (AllOrNothing(f) ==> out.ok == out.installed)
      && (FaultFree(f) ==> out.ok)
  {
    var p := c.stringify(r);
    var (st1, previous) := ReadExistingManifest(c, f, st, s);
    InstallEffect(c, f, st1, s, p);
    var attempt := Install(c, f, st1, s, p);
    var gone := Collected(c, f, st, s, r);
    if gone.Some? {
      RemoveChunksEffect(f, attempt.store, s, gone.value.chunkDigest, 0, gone.value.chunkCount);
      var out := SaveSpec(c, f, st, s, r);
      assert out.store == TryRemoveChunks(f, attempt.store, s, gone);
      forall a | FaultFree(f) && OfManifest(a, s, gone) ensures Lookup(out.store.entries, a) == None {
        assert a == Chunk(s, gone.value.chunkDigest, a.index);
      }
    }
  }

  lemma RemoveEffect(c: Codec, f: Faults, st: Store, s: Server)
    ensures var out := RemoveSpec(c, f, st, s);
      && Lookup(out.store.entries, Main(s)) == (if out.removed then None else Lookup(st.entries, Main(s)))
      && (forall a | a != Main(s) && Lookup(out.store.entries, a) != Lookup(st.entries, a) ::
            a.server == s && Lookup(out.store.entries, a) == None)
      && (out.ok ==> out.removed)
      && (FaultFree(f) && (Main(s) in st.entries ==> !c.parseManifest(st.entries[Main(s)]).Malformed?) ==> out.ok)
  {
    var main := Lookup(st.entries, Main(s));
    if main.Some? && c.parseManifest(main.value).Chunked? {
      var m := c.parseManifest(main.value).manifest;
      RemoveChunksEffect(f, ReadOp(f, st, Main(s)).0, s, m.chunkDigest, 0, m.chunkCount);
      var st2 := RemoveChunks(f, ReadOp(f, st, Main(s)).0, s, m.chunkDigest, 0, m.chunkCount).0;
      assert FaultFree(f) ==> RemoveOp(f, st2, Main(s)).1;
    }
  }

  // ----- Every run, every fault: a read returns the installed record or fails -----

  /** Some saved record put this value into this chunk account. */
  ghost predicate SavedSlice(c: Codec, saved: set<Record>, a: Account, v: Text) {
    exists r ::
      r in saved && a.Chunk? && OwnChunk(c, a, a.server, c.stringify(r)) && v == Slice(c.stringify(r), a.index)
  }

  /** log: per server, the record whose main-account value is installed. */
  ghost predicate Inv(c: Codec, entries: map<Account, Text>, log: map<Server, Record>, saved: set<Record>) {
    && (forall s | s in log :: log[s] in saved)
    && (forall s :: Lookup(entries, Main(s)) == if s in log then Some(MainValue(c, c.stringify(log[s]))) else None)
    && (forall a: Account | a.Chunk? && a in entries :: SavedSlice(c, saved, a, entries[a]))
  }

  /** Under Inv every chunk account of the installed record holds its slice or nothing. */
  lemma SliceOrNothing(
      c: Codec, entries: map<Account, Text>, log: map<Server, Record>, saved: set<Record>, s: Server, k: nat)
    requires Inv(c, entries, log, saved) && CollisionFree(c, saved)
    requires s in log && Splits(c.stringify(log[s])) && k < Count(c.stringify(log[s]))
    ensures var p := c.stringify(log[s]); Lookup(entries, Chunk(s, c.digest(p), k)) in {None, Some(Slice(p, k))}
  {
    var a := Chunk(s, c.digest(c.stringify(log[s])), k);
    if a in entries {
      assert SavedSlice(c, saved, a, entries[a]);
    }
  }

  /** Joining the chunk accounts of an installed record gives its payload, or nothing when one is missing. */
  lemma InstalledJoin(c: Codec, entries: map<Account, Text>, log: map<Server, Record>, saved: set<Record>, s: Server)
    requires Inv(c, entries, log, saved) && CollisionFree(c, saved)
    requires s in log && Splits(c.stringify(log[s]))
    ensures var p := c.stringify(log[s]);
      var joined := JoinEntries(entries, s, c.digest(p), 0, Count(p));
      && joined in {None, Some(p)}
      && (joined.Some? <==> forall a | OwnChunk(c, a, s, p) :: Lookup(entries, a) == Some(Slice(p, a.index)))
  {
    var p := c.stringify(log[s]);
    var d, n := c.digest(p), Count(p);
    forall k | 0 <= k < n ensures Lookup(entries, Chunk(s, d, k)) in {None, Some(Slice(p, k))} {
      SliceOrNothing(c, entries, log, saved, s, k);
    }
    JoinOfSlices(entries, s, d, p, 0, n);
    SlicesJoin(p, 0);
    forall k | 0 <= k < n ensures OwnChunk(c, Chunk(s, d, k), s, p) {}
    forall a | OwnChunk(c, a, s, p) ensures a == Chunk(s, d, a.index) {}
  }

  /** Under Inv a fault-free read finds the installed record or, if a chunk of it is missing, fails. */
  lemma ReadUnderInv(c: Codec, entries: map<Account, Text>, log: map<Server, Record>, saved: set<Record>, s: Server)
    requires Lawful(c) && Inv(c, entries, log, saved) && CollisionFree(c, saved)
    ensures s !in log ==> PureRead(c, entries, s) == Absent
    ensures s in log ==> PureRead(c, entries, s) in {Failed, Found(log[s])}
    ensures s in log ==> (PureRead(c, entries, s) == Found(log[s])
      <==> forall a | OwnChunk(c, a, s, c.stringify(log[s])) ::
        Lookup(entries, a) == Some(Slice(c.stringify(log[s]), a.index)))
  {
    if s in log && Splits(c.stringify(log[s])) {
      var p := c.stringify(log[s]);
      InstalledJoin(c, entries, log, saved, s);
      assert c.parseManifest(MainValue(c, p)) == Chunked(Manifest(Count(p), c.digest(p)));
    }
  }

  /** A record one of whose chunks is gone cannot be read. */
  lemma MissingChunkFails(
      c: Codec, entries: map<Account, Text>, log: map<Server, Record>, saved: set<Record>, s: Server)
    requires Lawful(c) && Inv(c, entries, log, saved) && CollisionFree(c, saved)
    requires s in log && Splits(c.stringify(log[s]))
      && Lookup(entries, Chunk(s, c.digest(c.stringify(log[s])), 0)) == None
    ensures PureRead(c, entries, s) == Failed
  {
    ReadUnderInv(c, entries, log, saved, s);
    assert OwnChunk(c, Chunk(s, c.digest(c.stringify(log[s])), 0), s, c.stringify(log[s]));
  }

  /** Inv survives a change at one server that leaves or drops old chunks and adds saved slices. */
  lemma InvTransfers(
    c: Codec, entries: map<Account, Text>, log: map<Server, Record>, saved: set<Record>,
    entries': map<Account, Text>, log': map<Server, Record>, saved': set<Record>, s: Server)
    requires Inv(c, entries, log, saved) && saved <= saved'
    requires forall t | t != s :: Lookup(log', t) == Lookup(log, t)
    requires forall t | t != s :: Lookup(entries', Main(t)) == Lookup(entries, Main(t))
    requires s in log' ==> log'[s] in saved'
    requires Lookup(entries', Main(s)) == if s in log' then Some(MainValue(c, c.stringify(log'[s]))) else None
    requires forall a: Account | a.Chunk? && a in entries' ::
      Lookup(entries', a) == Lookup(entries, a) || SavedSlice(c, saved', a, entries'[a])
    ensures Inv(c, entries', log', saved')
  {
    forall t | t in log' ensures log'[t] in saved' {
      assert t != s ==> Lookup(log', t) == Lookup(log, t);
    }
    forall t ensures Lookup(entries', Main(t)) == if t in log' then Some(MainValue(c, c.stringify(log'[t]))) else None {
      assert t != s ==> Lookup(log', t) == Lookup(log, t);
    }
    forall a: Account | a.Chunk? && a in entries' ensures SavedSlice(c, saved', a, entries'[a]) {
      if Lookup(entries', a) == Lookup(entries, a) {
        assert SavedSlice(c, saved, a, entries[a]);
        var r :| r in saved && OwnChunk(c, a, a.server, c.stringify(r)) && entries[a] == Slice(c.stringify(r), a.index);
        assert r in saved';
      }
    }
  }

  /** What the invariant needs to know of a save. */
  lemma SaveFrame(c: Codec, f: Faults, st: Store, s: Server, r: Record)
    ensures var out, p := SaveSpec(c, f, st, s, r), c.stringify(r);
      && Lookup(out.store.entries, Main(s)) ==
            (if out.installed then Some(MainValue(c, p)) else Lookup(st.entries, Main(s)))
      && (forall a: Account | a != Main(s) && Lookup(out.store.entries, a) != Lookup(st.entries, a) ::
            Lookup(out.store.entries, a) == None
            || (OwnChunk(c, a, s, p) && Lookup(out.store.entries, a) == Some(Slice(p, a.index))))
      && (forall t | t != s :: Lookup(out.store.entries, Main(t)) == Lookup(st.entries, Main(t)))
  {
    SaveEffect(c, f, st, s, r);
  }

  lemma SaveKeepsInv(c: Codec, f: Faults, st: Store, log: map<Server, Record>, saved: set<Record>, s: Server, r: Record)
    requires Inv(c, st.entries, log, saved)
    ensures var out := SaveSpec(c, f, st, s, r);
      Inv(c, out.store.entries, if out.installed then log[s := r] else log, saved + {r})
  {
    SaveFrame(c, f, st, s, r);
    var out := SaveSpec(c, f, st, s, r);
    AddKeepsInv(c, st.entries, log, saved, out.store.entries, out.installed, s, r);
  }

  lemma AddKeepsInv(
    c: Codec, entries: map<Account, Text>, log: map<Server, Record>, saved: set<Record>,
    entries': map<Account, Text>, installed: bool, s: Server, r: Record)
    requires Inv(c, entries, log, saved)
    requires Lookup(entries', Main(s)) ==
      if installed then Some(MainValue(c, c.stringify(r))) else Lookup(entries, Main(s))
    requires forall a: Account | a != Main(s) && Lookup(entries', a) != Lookup(entries, a) ::
      Lookup(entries', a) == None
      || (OwnChunk(c, a, s, c.stringify(r)) && Lookup(entries', a) == Some(Slice(c.stringify(r), a.index)))
    requires forall t | t != s :: Lookup(entries', Main(t)) == Lookup(entries, Main(t))
    ensures Inv(c, entries', if installed then log[s := r] else log, saved + {r})
  {
    forall a: Account | a.Chunk? && a in entries'
      ensures Lookup(entries', a) == Lookup(entries, a) || SavedSlice(c, saved + {r}, a, entries'[a])
    {
      if Lookup(entries', a) != Lookup(entries, a) {
        assert r in saved + {r} && OwnChunk(c, a, a.server, c.stringify(r))
          && entries'[a] == Slice(c.stringify(r), a.index);
      }
    }
    InvTransfers(c, entries, log, saved, entries', if installed then log[s := r] else log, saved + {r}, s);
  }

  lemma RemoveKeepsInv(c: Codec, f: Faults, st: Store, log: map<Server, Record>, saved: set<Record>, s: Server)
    requires Inv(c, st.entries, log, saved)
    ensures var out := RemoveSpec(c, f, st, s);
      Inv(c, out.store.entries, if out.removed then log - {s} else log, saved)
  {
    RemoveEffect(c, f, st, s);
    var out := RemoveSpec(c, f, st, s);
    DropKeepsInv(c, st.entries, log, saved, out.store.entries, out.removed, s);
  }

  lemma DropKeepsInv(
    c: Codec, entries: map<Account, Text>, log: map<Server, Record>, saved: set<Record>,
    entries': map<Account, Text>, removed: bool, s: Server)
    requires Inv(c, entries, log, saved)
    requires Lookup(entries', Main(s)) == if removed then None else Lookup(entries, Main(s))
    requires forall a: Account | a != Main(s) && Lookup(entries', a) != Lookup(entries, a) ::
      a.server == s && Lookup(entries', a) == None
    ensures Inv(c, entries', if removed then log - {s} else log, saved)
  {
    InvTransfers(c, entries, log, saved, entries', if removed then log - {s} else log, saved, s);
  }

  datatype Op = Save(server: Server, record: Record) | Remove(server: Server) | Read(server: Server)

  /** log changes exactly when a write or a removal of a main account takes effect. */
  datatype World = World(store: Store, log: map<Server, Record>)

  function Step(c: Codec, f: Faults, w: World, op: Op): World {
    match op
    case Save(s, r) =>
      var out := SaveSpec(c, f, w.store, s, r);
      World(out.store, if out.installed then w.log[s := r] else w.log)
    case Remove(s) =>
      var out := RemoveSpec(c, f, w.store, s);
      World(out.store, if out.removed then w.log - {s} else w.log)
    case Read(s) => w.(store := ReadSpec(c, f, w.store, s).0)
  }

  function Run(c: Codec, f: Faults, ops: seq<Op>): World {
    if ops == [] then World(Store(map[], 0), map[])
    else Step(c, f, Run(c, f, ops[..|ops| - 1]), ops[|ops| - 1])
  }

  function SavedRecords(ops: seq<Op>): set<Record> {
    set op | op in ops && op.Save? :: op.record
  }

  lemma {:induction false} RunKeepsInv(c: Codec, f: Faults, ops: seq<Op>)
    requires Lawful(c)
    ensures var w := Run(c, f, ops); Inv(c, w.store.entries, w.log, SavedRecords(ops))
  {
    if ops != [] {
      var before, op := ops[..|ops| - 1], ops[|ops| - 1];
      assert ops == before + [op];
      RunKeepsInv(c, f, before);
      var w := Run(c, f, before);
      match op {
        case Save(s, r) =>
          SaveKeepsInv(c, f, w.store, w.log, SavedRecords(before), s, r);
          assert SavedRecords(ops) == SavedRecords(before) + {r};
        case Remove(s) =>
          RemoveKeepsInv(c, f, w.store, w.log, SavedRecords(before), s);
          assert SavedRecords(ops) == SavedRecords(before);
        case Read(s) =>
          ReadAgrees(c, f, w.store, s);
          assert SavedRecords(ops) == SavedRecords(before);
      }
    }
  }

  /**
    After any saves, removes and reads of any servers under any faults, a read that succeeds
    returns exactly the record whose main-account write last took effect and was not removed
    since, or none exactly when there is no such record.  It never joins two payloads.
  */
  lemma ReadsOnlyTheInstalledRecord(c: Codec, f: Faults, ops: seq<Op>, s: Server)
    requires Lawful(c) && CollisionFree(c, SavedRecords(ops))
    ensures var w := Run(c, f, ops);
      var reading := ReadSpec(c, f, w.store, s).1;
      reading == Failed || reading == if s in w.log then Found(w.log[s]) else Absent
  {
    RunKeepsInv(c, f, ops);
    var w := Run(c, f, ops);
    ReadUnderInv(c, w.store.entries, w.log, SavedRecords(ops), s);
    ReadAgrees(c, f, w.store, s);
  }

  // ----- One save: commit, and atomicity when it throws -----

  /** A save that returns is readable, whatever faults hit the old chunks and whatever was stored before. */
  lemma SaveCommits(c: Codec, f: Faults, st: Store, s: Server, r: Record)
    requires Lawful(c) && SaveSpec(c, f, st, s, r).ok
    ensures PureRead(c, SaveSpec(c, f, st, s, r).store.entries, s) == Found(r)
  {
    SaveEffect(c, f, st, s, r);
    var entries, p := SaveSpec(c, f, st, s, r).store.entries, c.stringify(r);
    if Splits(p) {
      var d, n := c.digest(p), Count(p);
      forall k | 0 <= k < n ensures Lookup(entries, Chunk(s, d, k)) == Some(Slice(p, k)) {
        assert OwnChunk(c, Chunk(s, d, k), s, p);
      }
      JoinOfSlices(entries, s, d, p, 0, n);
      SlicesJoin(p, 0);
      assert c.parseManifest(MainValue(c, p)) == Chunked(Manifest(n, d));
    }
  }

  /** A save touches no other server's record. */
  lemma SaveLeavesOthers(c: Codec, f: Faults, st: Store, s: Server, r: Record, other: Server)
    requires other != s
    ensures PureRead(c, SaveSpec(c, f, st, s, r).store.entries, other) == PureRead(c, st.entries, other)
  {
    SaveEffect(c, f, st, s, r);
    var entries := SaveSpec(c, f, st, s, r).store.entries;
    forall a: Account | a.server == other ensures Lookup(entries, a) == Lookup(st.entries, a) {}
    var main := Lookup(st.entries, Main(other));
    if main.Some? && c.parseManifest(main.value).Chunked? {
      var m := c.parseManifest(main.value).manifest;
      SameJoin(entries, st.entries, other, m.chunkDigest, 0, m.chunkCount);
    }
  }

  lemma {:induction false} SameJoin(a: map<Account, Text>, b: map<Account, Text>, s: Server, d: Text, i: nat, n: nat)
    requires forall k | i <= k < n :: Lookup(a, Chunk(s, d, k)) == Lookup(b, Chunk(s, d, k))
    ensures JoinEntries(a, s, d, i, n) == JoinEntries(b, s, d, i, n)
    decreases n - i
  {
    if i < n {
      SameJoin(a, b, s, d, i + 1, n);
    }
  }

  /** The one case in which a failed save can destroy the record it was rewriting. */
  ghost predicate BlindRewrite(c: Codec, f: Faults, st: Store, log: map<Server, Record>, s: Server, r: Record) {
    f(st.clock) != Fine && s in log && log[s] == r && Splits(c.stringify(r))
  }

  /** Every chunk of the record that payload q made is in place. */
  ghost predicate Intact(c: Codec, entries: map<Account, Text>, s: Server, q: Text) {
    forall a | OwnChunk(c, a, s, q) :: Lookup(entries, a) == Some(Slice(q, a.index))
  }

  /** A save that throws removes no chunk of the installed record, except in a blind rewrite. */
  lemma FailedSaveKeepsChunks(
      c: Codec, f: Faults, st: Store, log: map<Server, Record>, saved: set<Record>, s: Server, r: Record)
    requires Lawful(c) && AllOrNothing(f) && CollisionFree(c, saved + {r})
    requires s in log && log[s] in saved && Lookup(st.entries, Main(s)) == Some(MainValue(c, c.stringify(log[s])))
    requires !BlindRewrite(c, f, st, log, s, r) && !SaveSpec(c, f, st, s, r).ok
    requires Intact(c, st.entries, s, c.stringify(log[s]))
    ensures Intact(c, SaveSpec(c, f, st, s, r).store.entries, s, c.stringify(log[s]))
  {
    SaveEffect(c, f, st, s, r);
    var q, p := c.stringify(log[s]), c.stringify(r);
    var entries := SaveSpec(c, f, st, s, r).store.entries;
    forall a | OwnChunk(c, a, s, q) ensures Lookup(entries, a) == Some(Slice(q, a.index)) {
      assert Lookup(st.entries, a) == Some(Slice(q, a.index));
      if c.digest(q) == c.digest(p) {
        assert log[s] == r;
      }
    }
  }

  /** A save that throws leaves a readable record, or its absence, exactly as it was. */
  lemma FailedSaveKeepsRecord(
    c: Codec, f: Faults, st: Store, log: map<Server, Record>, saved: set<Record>, s: Server, r: Record)
    requires Lawful(c) && AllOrNothing(f)
    requires Inv(c, st.entries, log, saved) && CollisionFree(c, saved + {r})
    requires !BlindRewrite(c, f, st, log, s, r)
    requires !SaveSpec(c, f, st, s, r).ok && PureRead(c, st.entries, s) != Failed
    ensures PureRead(c, SaveSpec(c, f, st, s, r).store.entries, s) == PureRead(c, st.entries, s)
  {
    var entries := SaveSpec(c, f, st, s, r).store.entries;
    ReadUnderInv(c, st.entries, log, saved, s);
    assert Inv(c, entries, log, saved + {r}) by {
      SaveEffect(c, f, st, s, r);
      SaveKeepsInv(c, f, st, log, saved, s, r);
    }
    ReadUnderInv(c, entries, log, saved + {r}, s);
    if s in log {
      assert Intact(c, st.entries, s, c.stringify(log[s]));
      FailedSaveKeepsChunks(c, f, st, log, saved, s, r);
    }
  }

  /** f with other faults at two instants. */
  function Except(f: Faults, t1: nat, fault1: Fault, t2: nat, fault2: Fault): Faults {
    (t: nat) => if t == t1 then fault1 else if t == t2 then fault2 else f(t)
  }

  /**
    In the excluded case the record really can be lost: the manifest read fails, so the save no
    longer knows it is rewriting the same digest, and after a failed chunk write its cleanup
    removes the installed chunks.
  */
  lemma BlindRewriteLosesRecord(c: Codec, st: Store, log: map<Server, Record>, saved: set<Record>, s: Server)
    returns (f: Faults)
    requires Lawful(c) && Inv(c, st.entries, log, saved) && CollisionFree(c, saved)
    requires s in log && Splits(c.stringify(log[s])) && PureRead(c, st.entries, s) == Found(log[s])
    ensures AllOrNothing(f) && BlindRewrite(c, f, st, log, s, log[s])
    ensures var out := SaveSpec(c, f, st, s, log[s]); !out.ok && PureRead(c, out.store.entries, s) == Failed
  {
    var t, r := st.clock, log[s];
    f := Except(_ => Fine, t, Refused, t + 1, Refused);
    assert r in saved && saved + {r} == saved;
    BlindRewriteDropsChunk(c, f, st, s, r);
    assert Inv(c, SaveSpec(c, f, st, s, r).store.entries, log, saved) by {
      SaveKeepsInv(c, f, st, log, saved, s, r);
    }
    MissingChunkFails(c, SaveSpec(c, f, st, s, r).store.entries, log, saved, s);
  }

  /** What such a save does: it fails at its first chunk and removes every chunk of its own digest. */
  lemma BlindRewriteDropsChunk(c: Codec, f: Faults, st: Store, s: Server, r: Record)
    requires Splits(c.stringify(r)) && f == Except(_ => Fine, st.clock, Refused, st.clock + 1, Refused)
    ensures var out := SaveSpec(c, f, st, s, r);
      !out.ok && !out.installed && Lookup(out.store.entries, Chunk(s, c.digest(c.stringify(r)), 0)) == None
  {
    var p := c.stringify(r);
    var st1 := ReadExistingManifest(c, f, st, s).0;
    var attempt := Install(c, f, st1, s, p);
    assert attempt == Saved(Store(st.entries, st.clock + 2), false, false);
    RemoveChunksEffect(f, attempt.store, s, c.digest(p), 0, Count(p));
    RemoveChunksSucceeds(f, attempt.store, s, c.digest(p), 0, Count(p));
  }

  lemma {:induction false} RemoveChunksSucceeds(f: Faults, st: Store, s: Server, d: Text, i: nat, n: nat)
    requires forall t | t >= st.clock :: f(t) == Fine
    ensures RemoveChunks(f, st, s, d, i, n).1
    decreases n - i
  {
    if i < n {
      RemoveChunksSucceeds(f, RemoveOp(f, st, Chunk(s, d, i)).0, s, d, i + 1, n);
    }
  }

  lemma {:induction false} WriteChunksSucceeds(f: Faults, st: Store, s: Server, d: Text, p: Text, i: nat, n: nat)
    requires i <= n && forall t | st.clock <= t < st.clock + n - i :: f(t) == Fine
    ensures WriteChunks(f, st, s, d, p, i, n).1 && WriteChunks(f, st, s, d, p, i, n).0.clock == st.clock + n - i
    decreases n - i
  {
    if i < n {
      WriteChunksSucceeds(f, WriteOp(f, st, Chunk(s, d, i), Slice(p, i)).0, s, d, p, i + 1, n);
    }
  }

  /**
    Atomicity exactly: for a chunked rewrite or any other save, every all-or-nothing schedule
    whose first answer is as given leaves a readable record alone when the save throws, if and
    only if the manifest read answers or the save is not a chunked rewrite of the installed record.
  */
  lemma SaveAtomicExactly(
    c: Codec, st: Store, log: map<Server, Record>, saved: set<Record>, s: Server, r: Record, firstRead: Fault)
    requires Lawful(c) && firstRead != Unacknowledged
    requires Inv(c, st.entries, log, saved) && CollisionFree(c, saved + {r})
    requires PureRead(c, st.entries, s) != Failed
    ensures (forall f: Faults | AllOrNothing(f) && f(st.clock) == firstRead && !SaveSpec(c, f, st, s, r).ok ::
        PureRead(c, SaveSpec(c, f, st, s, r).store.entries, s) == PureRead(c, st.entries, s))
      <==> (firstRead == Fine || s !in log || log[s] != r || |c.stringify(r)| <= CHUNK_SIZE)
  {
    if firstRead == Fine || s !in log || log[s] != r || |c.stringify(r)| <= CHUNK_SIZE {
      forall f: Faults | AllOrNothing(f) && f(st.clock) == firstRead && !SaveSpec(c, f, st, s, r).ok
        ensures PureRead(c, SaveSpec(c, f, st, s, r).store.entries, s) == PureRead(c, st.entries, s)
      {
        FailedSaveKeepsRecord(c, f, st, log, saved, s, r);
      }
    } else {
      ReadUnderInv(c, st.entries, log, saved, s);
      var f := BlindRewriteLosesRecord(c, st, log, saved, s);
      assert AllOrNothing(f) && f(st.clock) == firstRead && !SaveSpec(c, f, st, s, r).ok;
    }
  }

  /**
    All-or-nothing account writes are needed: when the manifest write takes effect but its
    acknowledgement is lost, the save throws and its cleanup removes the chunks just installed.
  */
  lemma UnacknowledgedFlipLosesRecord(
    c: Codec, st: Store, log: map<Server, Record>, saved: set<Record>, s: Server, r: Record)
    returns (f: Faults)
    requires Lawful(c) && Inv(c, st.entries, log, saved) && CollisionFree(c, saved + {r})
    requires Splits(c.stringify(r)) && (s in log ==> log[s] != r)
    ensures var out := SaveSpec(c, f, st, s, r); !out.ok && PureRead(c, out.store.entries, s) == Failed
  {
    var p := c.stringify(r);
    var d, n := c.digest(p), Count(p);
    f := Except(_ => Fine, st.clock + 1 + n, Unacknowledged, st.clock + 1 + n, Unacknowledged);
    var out := SaveSpec(c, f, st, s, r);
    var (st1, previous) := ReadExistingManifest(c, f, st, s);
    WriteChunksSucceeds(f, st1, s, d, p, 0, n);
    var attempt := Install(c, f, st1, s, p);
    assert !attempt.ok && attempt.installed && attempt.store.clock == st.clock + n + 2;
    if s in log {
      assert previous.Some? ==> previous.value.chunkDigest == c.digest(c.stringify(log[s]));
    }
    RemoveChunksEffect(f, attempt.store, s, d, 0, n);
    RemoveChunksSucceeds(f, attempt.store, s, d, 0, n);
    assert Lookup(out.store.entries, Chunk(s, d, 0)) == None;
    SaveKeepsInv(c, f, st, log, saved, s, r);
    MissingChunkFails(c, out.store.entries, log[s := r], saved + {r}, s);
  }

  // ----- One removal: atomicity when it throws, and recovery -----

  /** The first removal of a chunk loop decides whether anything is lost. */
  lemma RemoveChunksFirst(f: Faults, st: Store, s: Server, d: Text, n: nat)
    requires n > 0
    ensures var (st', ok) := RemoveChunks(f, st, s, d, 0, n);
      if f(st.clock) == Refused then st'.entries == st.entries && !ok else Lookup(st'.entries, Chunk(s, d, 0)) == None
  {
    var (st1, ok1) := RemoveOp(f, st, Chunk(s, d, 0));
    if ok1 {
      RemoveChunksEffect(f, st1, s, d, 1, n);
    }
  }

  /** A removal whose first write operation was carried out took the main account or the record's first chunk. */
  lemma RemovalBites(c: Codec, f: Faults, st: Store, s: Server, p: Text)
    requires Lawful(c) && Lookup(st.entries, Main(s)) == Some(MainValue(c, p)) && f(st.clock) == Fine
    requires Splits(p) || c.parseManifest(p) == Plain
    ensures var out := RemoveSpec(c, f, st, s);
      if f(st.clock + 1) == Refused then out.store.entries == st.entries && !out.ok
      else out.removed || (Splits(p) && Lookup(out.store.entries, Chunk(s, c.digest(p), 0)) == None)
  {
    var st1 := ReadOp(f, st, Main(s)).0;
    if Splits(p) {
      assert c.parseManifest(MainValue(c, p)) == Chunked(Manifest(Count(p), c.digest(p)));
      RemoveChunksFirst(f, st1, s, c.digest(p), Count(p));
    }
  }

  /**
    Removal is not atomic: one that throws leaves a readable record readable if and only if its
    read failed or the first removal it tried was refused. Absence always stays absence.
  */
  lemma RemoveAtomicExactly(c: Codec, f: Faults, st: Store, log: map<Server, Record>, saved: set<Record>, s: Server)
    requires Lawful(c) && Inv(c, st.entries, log, saved) && CollisionFree(c, saved)
    requires PureRead(c, st.entries, s) != Failed && !RemoveSpec(c, f, st, s).ok
    ensures PureRead(c, RemoveSpec(c, f, st, s).store.entries, s) == PureRead(c, st.entries, s)
      <==> s !in log || f(st.clock) != Fine || f(st.clock + 1) == Refused
  {
    var out := RemoveSpec(c, f, st, s);
    ReadUnderInv(c, st.entries, log, saved, s);
    RemoveKeepsInv(c, f, st, log, saved, s);
    ReadUnderInv(c, out.store.entries, if out.removed then log - {s} else log, saved, s);
    if s in log && f(st.clock) == Fine {
      var p := c.stringify(log[s]);
      RemovalBites(c, f, st, s, p);
      assert Splits(p) ==> OwnChunk(c, Chunk(s, c.digest(p), 0), s, p);
    }
  }

  /** Such a removal, from every store with a readable chunked record: only its second chunk removal is refused. */
  lemma HalfRemovalLosesRecord(c: Codec, st: Store, log: map<Server, Record>, saved: set<Record>, s: Server)
    returns (f: Faults)
    requires Lawful(c) && Inv(c, st.entries, log, saved) && CollisionFree(c, saved)
    requires s in log && Splits(c.stringify(log[s])) && PureRead(c, st.entries, s) == Found(log[s])
    ensures AllOrNothing(f)
    ensures var out := RemoveSpec(c, f, st, s); !out.ok && PureRead(c, out.store.entries, s) == Failed
  {
    var p, t := c.stringify(log[s]), st.clock;
    f := Except(_ => Fine, t + 2, Refused, t + 2, Refused);
    var st1 := ReadOp(f, st, Main(s)).0;
    assert c.parseManifest(MainValue(c, p)) == Chunked(Manifest(Count(p), c.digest(p)));
    assert !RemoveChunks(f, st1, s, c.digest(p), 0, Count(p)).1 by {
      var st2 := RemoveOp(f, st1, Chunk(s, c.digest(p), 0)).0;
      assert !RemoveOp(f, st2, Chunk(s, c.digest(p), 1)).1;
    }
    RemoveKeepsInv(c, f, st, log, saved, s);
    RemovalBites(c, f, st, s, p);
    MissingChunkFails(c, RemoveSpec(c, f, st, s).store.entries, log, saved, s);
  }

  /** However earlier saves and removals failed, a fault-free removal leaves neither the record nor any chunk of it. */
  lemma RemovalCompletes(c: Codec, f: Faults, st: Store, log: map<Server, Record>, saved: set<Record>, s: Server)
    requires Lawful(c) && FaultFree(f) && Inv(c, st.entries, log, saved)
    ensures var out := RemoveSpec(c, f, st, s);
      && out.ok && PureRead(c, out.store.entries, s) == Absent
      && (s in log ==> forall a | OwnChunk(c, a, s, c.stringify(log[s])) :: Lookup(out.store.entries, a) == None)
  {
    RemoveEffect(c, f, st, s);
    if s in log {
      var p, st1 := c.stringify(log[s]), ReadOp(f, st, Main(s)).0;
      if Splits(p) {
        assert c.parseManifest(MainValue(c, p)) == Chunked(Manifest(Count(p), c.digest(p)));
        RemoveChunksEffect(f, st1, s, c.digest(p), 0, Count(p));
      }
      forall a | OwnChunk(c, a, s, p) ensures Lookup(RemoveSpec(c, f, st, s).store.entries, a) == None {
        assert a == Chunk(s, c.digest(p), a.index);
      }
    }
  }

  // ----- Without faults: a plain map from server to record -----

  /** The value the accounts of a map of records must have, account by account. */
  function Expected(c: Codec, log: map<Server, Record>, a: Account): Option<Text> {
    if a.server !in log then None
    else
      var p := c.stringify(log[a.server]);
      if a.Main? then Some(MainValue(c, p))
      else if OwnChunk(c, a, a.server, p) then Some(Slice(p, a.index))
      else None
  }

  ghost predicate Represents(c: Codec, entries: map<Account, Text>, log: map<Server, Record>) {
    forall a :: Lookup(entries, a) == Expected(c, log, a)
  }

  lemma SaveRefinesMap(c: Codec, f: Faults, st: Store, log: map<Server, Record>, s: Server, r: Record)
    requires Lawful(c) && FaultFree(f) && Represents(c, st.entries, log)
    requires s in log ==> CollisionFree(c, {log[s], r})
    ensures var out := SaveSpec(c, f, st, s, r);
      out.ok && out.installed && Represents(c, out.store.entries, log[s := r])
  {
    SaveEffect(c, f, st, s, r);
    var out, p := SaveSpec(c, f, st, s, r), c.stringify(r);
    assert Lookup(st.entries, Main(s)) == Expected(c, log, Main(s));
    var gone := Collected(c, f, st, s, r);
    forall a ensures Lookup(out.store.entries, a) == Expected(c, log[s := r], a) {
      assert Lookup(st.entries, a) == Expected(c, log, a);
      if a.Chunk? && a.server == s && s in log && OwnChunk(c, a, s, c.stringify(log[s])) && !OwnChunk(c, a, s, p) {
        assert log[s] != r;
        assert OfManifest(a, s, gone);
      }
    }
  }

  lemma RemoveRefinesMap(c: Codec, f: Faults, st: Store, log: map<Server, Record>, s: Server)
    requires Lawful(c) && FaultFree(f) && Represents(c, st.entries, log)
    ensures var out := RemoveSpec(c, f, st, s); out.ok && out.removed && Represents(c, out.store.entries, log - {s})
  {
    var out := RemoveSpec(c, f, st, s);
    assert Lookup(st.entries, Main(s)) == Expected(c, log, Main(s));
    var st1 := ReadOp(f, st, Main(s)).0;
    var m := if s in log then CreateManifest(c, c.stringify(log[s])) else Manifest(0, []);
    RemoveChunksEffect(f, st1, s, m.chunkDigest, 0, m.chunkCount);
    RemoveEffect(c, f, st, s);
    if s in log {
      var p := c.stringify(log[s]);
      assert c.parseManifest(MainValue(c, p)) == if Splits(p) then Chunked(m) else Plain by {
        assert Splits(p) ==> c.parseManifest(ManifestJson(Manifest(Count(p), c.digest(p)))) == Chunked(m);
      }
    }
    forall a ensures Lookup(out.store.entries, a) == Expected(c, log - {s}, a) {
      assert Lookup(st.entries, a) == Expected(c, log, a);
      if a.Chunk? && a.server == s && s in log && OwnChunk(c, a, s, c.stringify(log[s])) {
        assert a == Chunk(s, m.chunkDigest, a.index);
      }
    }
  }

  lemma ReadRefinesMap(c: Codec, f: Faults, st: Store, log: map<Server, Record>, s: Server)
    requires Lawful(c) && FaultFree(f) && Represents(c, st.entries, log)
    ensures ReadSpec(c, f, st, s).1 == if s in log then Found(log[s]) else Absent
  {
    ReadAgrees(c, f, st, s);
    assert Lookup(st.entries, Main(s)) == Expected(c, log, Main(s));
    if s in log && Splits(c.stringify(log[s])) {
      var p := c.stringify(log[s]);
      var d, n := c.digest(p), Count(p);
      forall k | 0 <= k < n ensures Lookup(st.entries, Chunk(s, d, k)) == Some(Slice(p, k)) {
        assert Lookup(st.entries, Chunk(s, d, k)) == Expected(c, log, Chunk(s, d, k));
      }
      JoinOfSlices(st.entries, s, d, p, 0, n);
      SlicesJoin(p, 0);
    }
  }

  /** The same operation, and a whole run, on a plain map from server to record. */
  function MapStep(m: map<Server, Record>, op: Op): map<Server, Record> {
    match op
    case Save(s, r) => m[s := r]
    case Remove(s) => m - {s}
    case Read(_) => m
  }

  function MapRun(ops: seq<Op>): map<Server, Record> {
    if ops == [] then map[] else MapStep(MapRun(ops[..|ops| - 1]), ops[|ops| - 1])
  }

  lemma StepRefinesMap(c: Codec, f: Faults, w: World, op: Op)
    requires Lawful(c) && FaultFree(f) && Represents(c, w.store.entries, w.log)
    requires op.Save? && op.server in w.log ==> CollisionFree(c, {w.log[op.server], op.record})
    ensures var w' := Step(c, f, w, op); w'.log == MapStep(w.log, op) && Represents(c, w'.store.entries, w'.log)
  {
    match op {
      case Save(s, r) => SaveRefinesMap(c, f, w.store, w.log, s, r);
      case Remove(s) => RemoveRefinesMap(c, f, w.store, w.log, s);
      case Read(s) => ReadAgrees(c, f, w.store, s);
    }
  }

  /** A fault-free run is a run on a plain map, down to the set of accounts: no orphan chunk remains. */
  lemma {:induction false} RunRefinesMap(c: Codec, f: Faults, ops: seq<Op>)
    requires Lawful(c) && FaultFree(f) && CollisionFree(c, SavedRecords(ops))
    ensures var w := Run(c, f, ops); w.log == MapRun(ops) && Represents(c, w.store.entries, MapRun(ops))
    ensures forall s | s in MapRun(ops) :: MapRun(ops)[s] in SavedRecords(ops)
  {
    if ops != [] {
      var before, op := ops[..|ops| - 1], ops[|ops| - 1];
      assert ops == before + [op];
      assert SavedRecords(before) <= SavedRecords(ops);
      RunRefinesMap(c, f, before);
      if op.Save? {
        assert op.record in SavedRecords(ops);
      }
      StepRefinesMap(c, f, Run(c, f, before), op);
    }
  }

  // ----- Sizes and account names -----

  /** The longest Text ECMAScript allows, 2^53 - 1 code units. */
  const MAX_LENGTH := 9_007_199_254_740_991

  /** In every run every stored value fits the keyring's limit (no JavaScript Text is longer than MAX_LENGTH). */
  lemma StoredValuesFit(c: Codec, f: Faults, ops: seq<Op>, a: Account)
    requires Lawful(c) && forall r | r in SavedRecords(ops) :: |c.stringify(r)| <= MAX_LENGTH
    requires a in Run(c, f, ops).store.entries
    ensures |Run(c, f, ops).store.entries[a]| <= 1280
  {
    RunKeepsInv(c, f, ops);
    var w := Run(c, f, ops);
    if a.Main? {
      assert Lookup(w.store.entries, Main(a.server)).Some?;
      var p := c.stringify(w.log[a.server]);
      assert Pow10(7) == 10_000_000;
      assert Pow10(13) == 1_000_000 * Pow10(7);
      DecimalLength(Count(p), 13);
    } else {
      assert SavedSlice(c, SavedRecords(ops), a, w.store.entries[a]);
    }
  }

  /** The account names getBearerAccount and chunkAccount spell; key is the hashed server name. */
  function AccountName(key: Server -> Text, a: Account): Text {
    match a
    case Main(s) => key(s)
    case Chunk(s, d, i) => key(s) + Ascii(".chunk.") + d + Ascii(".") + Decimal(i)
  }

  /** Accounts the model tells apart have different names. */
  lemma AccountNamesDistinct(key: Server -> Text, a: Account, b: Account)
    requires forall s :: |key(s)| == 71
    requires forall s, t :: key(s) == key(t) ==> s == t
    requires (a.Chunk? ==> |a.digest| == 16) && (b.Chunk? ==> |b.digest| == 16)
    requires AccountName(key, a) == AccountName(key, b)
    ensures a == b
  {
    var x, y := AccountName(key, a), AccountName(key, b);
    assert x[..71] == key(a.server) && y[..71] == key(b.server);
    assert a.Chunk? ==> |x| > 71;
    assert b.Chunk? ==> |y| > 71;
    if a.Chunk? {
      assert x[78..94] == a.digest && y[78..94] == b.digest;
      assert x[95..] == Decimal(a.index) && y[95..] == Decimal(b.index);
      DecimalInjective(a.index, b.index);
    }
  }
}
