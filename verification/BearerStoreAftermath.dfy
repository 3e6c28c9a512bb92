/**
  What single failing account operations leave behind, account by account, when the store held
  exactly the accounts of a map of records.
*/
module BearerStoreAftermath {
  import opened Common
  import opened BearerStore
  import opened BearerStoreProofs

  // ----- The two loops, stopped at the k-th operation -----

  /** The operations of a loop over i to n answer until the k-th, which is refused when there is one. */
  ghost predicate StopsAt(f: Faults, clock: nat, i: nat, k: nat, n: nat) {
    && i <= k <= n
    && (forall t | clock <= t < clock + (k - i) :: f(t) == Fine)
    && (k < n ==> f(clock + (k - i)) == Refused)
  }

  lemma {:induction false} WriteChunksStops(f: Faults, st: Store, s: Server, d: Text, p: Text, i: nat, k: nat, n: nat)
    requires StopsAt(f, st.clock, i, k, n)
    ensures var (st', ok) := WriteChunks(f, st, s, d, p, i, n);
      && ok == (k == n) && st'.clock == st.clock + (k - i) + (if k < n then 1 else 0)
      && forall a ::
          Lookup(st'.entries, a) == if InRange(a, s, d, i, k) then Some(Slice(p, a.index)) else Lookup(st.entries, a)
    decreases n - i
  {
    if i < k {
      WriteChunksStops(f, WriteOp(f, st, Chunk(s, d, i), Slice(p, i)).0, s, d, p, i + 1, k, n);
    }
  }

  lemma {:induction false} RemoveChunksStops(f: Faults, st: Store, s: Server, d: Text, i: nat, k: nat, n: nat)
    requires StopsAt(f, st.clock, i, k, n)
    ensures var (st', ok) := RemoveChunks(f, st, s, d, i, n);
      && ok == (k == n) && st'.clock == st.clock + (k - i) + (if k < n then 1 else 0)
      && forall a :: Lookup(st'.entries, a) == if InRange(a, s, d, i, k) then None else Lookup(st.entries, a)
    decreases n - i
  {
    if i < k {
      RemoveChunksStops(f, RemoveOp(f, st, Chunk(s, d, i)).0, s, d, i + 1, k, n);
    }
  }

  // ----- Saves -----

  /** From the given instant on, only the operation at `at` is refused. */
  ghost predicate OneRefused(f: Faults, from: nat, at: nat) {
    from <= at && f(at) == Refused && forall t | from <= t && t != at :: f(t) == Fine
  }

  /** The manifest a save finds in a store that represents a map. */
  lemma PreviousManifest(c: Codec, f: Faults, st: Store, log: map<Server, Record>, s: Server)
    requires Lawful(c) && Represents(c, st.entries, log) && f(st.clock) == Fine
    ensures var (st1, previous) := ReadExistingManifest(c, f, st, s);
      && st1 == st.(clock := st.clock + 1)
      && (s in log && Splits(c.stringify(log[s])) ==> previous == Some(CreateManifest(c, c.stringify(log[s]))))
      && (!(s in log && Splits(c.stringify(log[s]))) ==> previous.None?)
  {
    assert Lookup(st.entries, Main(s)) == Expected(c, log, Main(s));
    if s in log && Splits(c.stringify(log[s])) {
      var q := c.stringify(log[s]);
      assert c.parseManifest(MainValue(c, q)) == Chunked(Manifest(Count(q), c.digest(q)));
    }
  }

  /** How many of the payload's chunks are written when the operation at instant `at` is refused. */
  function Written(p: Text, start: nat, at: nat): nat
    requires start <= at
  {
    if !Splits(p) then 0 else if at - start < Count(p) then at - start else Count(p)
  }

  lemma InstallStops(c: Codec, f: Faults, st: Store, s: Server, p: Text, at: nat)
    requires OneRefused(f, st.clock, at)
    ensures var out, k := Install(c, f, st, s, p), Written(p, st.clock, at);
      && (forall a | a != Main(s) :: Lookup(out.store.entries, a)
            == if InRange(a, s, c.digest(p), 0, k) then Some(Slice(p, a.index)) else Lookup(st.entries, a))
      && (!out.ok ==> Lookup(out.store.entries, Main(s)) == Lookup(st.entries, Main(s)) && at < out.store.clock)
      && (out.ok ==> Lookup(out.store.entries, Main(s)) == Some(MainValue(c, p)) && out.store.clock <= at)
      && (out.ok ==> Splits(p) ==> k == Count(p))
  {
    if Splits(p) {
      WriteChunksStops(f, st, s, c.digest(p), p, 0, Written(p, st.clock, at), Count(p));
    }
  }

  lemma CleanupRemovesAll(f: Faults, st: Store, s: Server, m: Manifest)
    requires forall t | st.clock <= t :: f(t) == Fine
    ensures var cleaned := TryRemoveChunks(f, st, s, Some(m)).entries;
      forall a ::
        Lookup(cleaned, a) == if InRange(a, s, m.chunkDigest, 0, m.chunkCount) then None else Lookup(st.entries, a)
  {
    RemoveChunksStops(f, st, s, m.chunkDigest, 0, m.chunkCount, m.chunkCount);
  }

  /**
    A save that throws because one operation was refused leaves every account as it was: the chunks
    it wrote are collected again, and chunks it shares with the installed record are kept.
  */
  lemma FailedSaveLeavesNothing(
    c: Codec, f: Faults, st: Store, log: map<Server, Record>, s: Server, r: Record, at: nat)
    requires Lawful(c) && Represents(c, st.entries, log)
    requires s in log ==> CollisionFree(c, {log[s], r})
    requires f(st.clock) == Fine && OneRefused(f, st.clock + 1, at)
    requires !SaveSpec(c, f, st, s, r).ok
    ensures Represents(c, SaveSpec(c, f, st, s, r).store.entries, log)
  {
    var p := c.stringify(r);
    var st1 := st.(clock := st.clock + 1);
    var out, attempt := SaveSpec(c, f, st, s, r), Install(c, f, st1, s, p);
    PreviousManifest(c, f, st, log, s);
    InstallStops(c, f, st1, s, p, at);
    var previous := ReadExistingManifest(c, f, st, s).1;
    var manifest := if Splits(p) then Some(CreateManifest(c, p)) else None;
    if !SameDigest(previous, manifest) && manifest.Some? {
      CleanupRemovesAll(f, attempt.store, s, manifest.value);
    }
    forall a ensures Lookup(out.store.entries, a) == Expected(c, log, a) {
      assert Lookup(st.entries, a) == Expected(c, log, a);
      if SameDigest(previous, manifest) && manifest.Some? {
        assert log[s] == r;
      }
    }
  }

  /** What account a holds when the record before has been replaced but its chunks from the j-th on remain. */
  function WithOldChunks(
    c: Codec, log: map<Server, Record>, s: Server, r: Record, j: int, a: Account): Option<Text>
  {
    if s in log && OwnChunk(c, a, s, c.stringify(log[s])) && !OwnChunk(c, a, s, c.stringify(r)) && a.index >= j
    then Some(Slice(c.stringify(log[s]), a.index))
    else Expected(c, log[s := r], a)
  }

  /**
    A save that returns although one operation was refused has installed the record; the refused
    removal, and the removals after it, leave their chunks of the record before.
  */
  lemma RefusedCleanupLeavesOldChunks(
    c: Codec, f: Faults, st: Store, log: map<Server, Record>, s: Server, r: Record, at: nat)
    returns (j: nat)
    requires Lawful(c) && Represents(c, st.entries, log)
    requires s in log ==> CollisionFree(c, {log[s], r})
    requires f(st.clock) == Fine && OneRefused(f, st.clock + 1, at)
    requires SaveSpec(c, f, st, s, r).ok
    ensures j == at - (st.clock + 2 + if Splits(c.stringify(r)) then Count(c.stringify(r)) else 0)
    ensures forall a :: Lookup(SaveSpec(c, f, st, s, r).store.entries, a) == WithOldChunks(c, log, s, r, j, a)
  {
    var p := c.stringify(r);
    var st1 := st.(clock := st.clock + 1);
    var out, attempt := SaveSpec(c, f, st, s, r), Install(c, f, st1, s, p);
    PreviousManifest(c, f, st, log, s);
    InstallStops(c, f, st1, s, p, at);
    InstallClock(c, f, st1, s, p);
    var previous := ReadExistingManifest(c, f, st, s).1;
    var manifest := if Splits(p) then Some(CreateManifest(c, p)) else None;
    j := at - attempt.store.clock;
    InstalledOverOldChunks(c, log, s, r, st.entries, attempt.store.entries);
    if previous.Some? && !SameDigest(previous, manifest) {
      CleanupStops(c, f, attempt.store, log, s, r, at);
    } else {
      NoOldChunks(c, log, s, r);
    }
  }

  /** Before the cleanup, all of them remain. */
  lemma InstalledOverOldChunks(
    c: Codec, log: map<Server, Record>, s: Server, r: Record, before: map<Account, Text>, after: map<Account, Text>)
    requires Represents(c, before, log) && Lookup(after, Main(s)) == Some(MainValue(c, c.stringify(r)))
    requires forall a | a != Main(s) ::
      Lookup(after, a)
        == if OwnChunk(c, a, s, c.stringify(r)) then Some(Slice(c.stringify(r), a.index)) else Lookup(before, a)
    ensures forall a :: Lookup(after, a) == WithOldChunks(c, log, s, r, 0, a)
  {
    forall a ensures Lookup(after, a) == WithOldChunks(c, log, s, r, 0, a) {
      assert Lookup(before, a) == Expected(c, log, a);
    }
  }

  /** The cleanup, from a store in which all the old chunks remain. */
  lemma CleanupStops(c: Codec, f: Faults, st: Store, log: map<Server, Record>, s: Server, r: Record, at: nat)
    requires OneRefused(f, st.clock, at) && s in log && Splits(c.stringify(log[s]))
    requires Splits(c.stringify(r)) ==> c.digest(c.stringify(log[s])) != c.digest(c.stringify(r))
    requires forall a :: Lookup(st.entries, a) == WithOldChunks(c, log, s, r, 0, a)
    ensures var out := TryRemoveChunks(f, st, s, Some(CreateManifest(c, c.stringify(log[s]))));
      forall a :: Lookup(out.entries, a) == WithOldChunks(c, log, s, r, at - st.clock, a)
  {
    var q := c.stringify(log[s]);
    var k := if at - st.clock < Count(q) then at - st.clock else Count(q);
    RemoveChunksStops(f, st, s, c.digest(q), 0, k, Count(q));
  }

  /** Without another digest there are no old chunks. */
  lemma NoOldChunks(c: Codec, log: map<Server, Record>, s: Server, r: Record)
    requires s in log && Splits(c.stringify(log[s])) ==>
      && CollisionFree(c, {log[s], r})
      && Splits(c.stringify(r)) && c.digest(c.stringify(log[s])) == c.digest(c.stringify(r))
    ensures forall j: int, a :: WithOldChunks(c, log, s, r, j, a) == Expected(c, log[s := r], a)
  {
  }

  lemma InstallClock(c: Codec, f: Faults, st: Store, s: Server, p: Text)
    requires Install(c, f, st, s, p).ok
    ensures Install(c, f, st, s, p).store.clock == st.clock + 1 + if Splits(p) then Count(p) else 0
  {
    if Splits(p) {
      WriteChunksClock(f, st, s, c.digest(p), p, 0, Count(p));
    }
  }

  lemma {:induction false} WriteChunksClock(f: Faults, st: Store, s: Server, d: Text, p: Text, i: nat, n: nat)
    requires i <= n && WriteChunks(f, st, s, d, p, i, n).1
    ensures WriteChunks(f, st, s, d, p, i, n).0.clock == st.clock + (n - i)
    decreases n - i
  {
    if i < n {
      WriteChunksClock(f, WriteOp(f, st, Chunk(s, d, i), Slice(p, i)).0, s, d, p, i + 1, n);
    }
  }

  // ----- Removals -----

  /** A removal with one refused operation stops there: the chunks before it are gone, all else is as it was. */
  lemma FailedRemovalStops(c: Codec, f: Faults, st: Store, log: map<Server, Record>, s: Server, at: nat)
    requires Lawful(c) && Represents(c, st.entries, log) && s in log
    requires OneRefused(f, st.clock, at) && !RemoveSpec(c, f, st, s).ok
    ensures var p := c.stringify(log[s]);
      forall a :: Lookup(RemoveSpec(c, f, st, s).store.entries, a) ==
        if OwnChunk(c, a, s, p) && st.clock + 1 + a.index < at then None else Lookup(st.entries, a)
  {
    var p, st1 := c.stringify(log[s]), ReadOp(f, st, Main(s)).0;
    assert Lookup(st.entries, Main(s)) == Expected(c, log, Main(s));
    if Splits(p) && at > st.clock {
      assert c.parseManifest(MainValue(c, p)) == Chunked(Manifest(Count(p), c.digest(p)));
      var k := if at - st1.clock < Count(p) then at - st1.clock else Count(p);
      RemoveChunksStops(f, st1, s, c.digest(p), 0, k, Count(p));
    }
  }

  /** A main account that is no JSON blocks reads and removals, which leave the store as it is, but no save. */
  lemma MalformedMainBlocks(c: Codec, f: Faults, st: Store, s: Server, r: Record)
    requires Lawful(c) && FaultFree(f) && Main(s) in st.entries && c.parseManifest(st.entries[Main(s)]) == Malformed
    ensures ReadSpec(c, f, st, s).1 == Failed
    ensures !RemoveSpec(c, f, st, s).ok && RemoveSpec(c, f, st, s).store.entries == st.entries
    ensures SaveSpec(c, f, st, s, r).ok && PureRead(c, SaveSpec(c, f, st, s, r).store.entries, s) == Found(r)
  {
    SaveEffect(c, f, st, s, r);
    SaveCommits(c, f, st, s, r);
  }

  // ----- Layout -----

  /**
    A payload of at most 1000 units is stored whole in the main account; a longer one in as many
    thousands as it takes, the last of them not empty.
  */
  lemma PayloadLayout(c: Codec, log: map<Server, Record>, entries: map<Account, Text>, s: Server)
    requires Represents(c, entries, log) && s in log
    ensures var p := c.stringify(log[s]);
      if |p| <= 1000 then
        Lookup(entries, Main(s)) == Some(p) && forall d, i: nat :: Chunk(s, d, i) !in entries
      else
        var n := Count(p);
        && Lookup(entries, Main(s)) == Some(ManifestJson(Manifest(n, c.digest(p))))
        && (n - 1) * 1000 < |p| <= n * 1000
        && (forall i: nat | i < n :: Lookup(entries, Chunk(s, c.digest(p), i))
              == Some(p[i * 1000..if i < n - 1 then (i + 1) * 1000 else |p|]))
        && (forall d, i: nat | Chunk(s, d, i) in entries :: d == c.digest(p) && i < n)
  {
    var p := c.stringify(log[s]);
    assert Lookup(entries, Main(s)) == Expected(c, log, Main(s));
    forall d, i: nat ensures Lookup(entries, Chunk(s, d, i)) == Expected(c, log, Chunk(s, d, i)) {}
  }
}
