/**
  The OS-keyring bearer store (adapter/mcp-bearer-store.ts).  A record whose JSON
  is longer than one keyring value is spread over digest-keyed chunk accounts, and
  a manifest in the server's main account names them.  Every single read, write and
  remove of an account may fail; the protocol writes the chunks, flips the manifest,
  then collects the chunks it replaced.
*/
module BearerStore {
  import opened Common

  const CHUNK_SIZE := 1000

  // ----- Values -----

  type Server = Text
  datatype Record = Record(token: Text, serverUrl: Text)
  datatype Manifest = Manifest(chunkCount: nat, chunkDigest: Text)

  /** What JSON.parse followed by the manifest test makes of a main-account value. */
  datatype Parsed = Malformed | Plain | Chunked(manifest: Manifest)

  /** Keyring accounts.  AccountName gives their spelling. */
  datatype Account =
    | Main(server: Server)
    | Chunk(server: Server, digest: Text, index: nat)

  /** JSON and SHA-256, which this model does not define. */
  datatype Codec = Codec(
    stringify: Record -> Text,
    parseRecord: Text -> Option<Record>,
    parseManifest: Text -> Parsed,
    digest: Text -> Text)

  function ManifestJson(m: Manifest): Text {
    Ascii("{\"__piMcpAdapterBearerChunked\":1,\"chunkCount\":") + Decimal(m.chunkCount)
    + Ascii(",\"chunkDigest\":\"") + m.chunkDigest + Ascii("\"}")
  }

  /** What the proofs take from JSON and from the truncated digest; no injectivity. */
  ghost predicate Lawful(c: Codec) {
    && (forall r :: c.parseRecord(c.stringify(r)) == Some(r))
    && (forall r :: c.parseManifest(c.stringify(r)) == Plain)
    && (forall n: nat, p | n > 0 ::
          c.parseManifest(ManifestJson(Manifest(n, c.digest(p)))) == Chunked(Manifest(n, c.digest(p))))
    && (forall p :: |c.digest(p)| == 16)
  }

  /** No two different payloads of the given records share a digest. */
  ghost predicate CollisionFree(c: Codec, records: set<Record>) {
    forall q, r :: q in records && r in records && c.digest(c.stringify(q)) == c.digest(c.stringify(r)) ==> q == r
  }

  // ----- Payloads and slices -----

  function Count(p: Text): nat {
    (|p| + CHUNK_SIZE - 1) / CHUNK_SIZE
  }

  function Slice(p: Text, i: nat): Text {
    p[Min(i * CHUNK_SIZE, |p|)..Min((i + 1) * CHUNK_SIZE, |p|)]
  }

  predicate Splits(p: Text) {
    |p| > CHUNK_SIZE
  }

  function CreateManifest(c: Codec, p: Text): Manifest {
    Manifest(Count(p), c.digest(p))
  }

  function MainValue(c: Codec, p: Text): Text {
    if Splits(p) then ManifestJson(CreateManifest(c, p)) else p
  }

  function SlicesFrom(p: Text, i: nat, n: nat): Text
    decreases n - i
  {
    if i >= n then [] else Slice(p, i) + SlicesFrom(p, i + 1, n)
  }

  lemma {:induction false} SlicesJoin(p: Text, i: nat)
    requires i <= Count(p)
    ensures SlicesFrom(p, i, Count(p)) == p[Min(i * CHUNK_SIZE, |p|)..]
    decreases Count(p) - i
  {
    if i < Count(p) {
      SlicesJoin(p, i + 1);
    }
  }

  // ----- The faulty store, one account operation at a time -----

  /** Refused throws without effect; Unacknowledged takes effect and then throws. */
  datatype Fault = Fine | Refused | Unacknowledged

  type Faults = nat -> Fault

  ghost predicate AllOrNothing(f: Faults) {
    forall t :: f(t) != Unacknowledged
  }

  ghost predicate FaultFree(f: Faults) {
    forall t :: f(t) == Fine
  }

  datatype Store = Store(entries: map<Account, Text>, clock: nat)

  datatype Answer = Value(content: Option<Text>) | Threw

  function ReadOp(f: Faults, st: Store, a: Account): (Store, Answer) {
    (st.(clock := st.clock + 1), if f(st.clock) == Fine then Value(Lookup(st.entries, a)) else Threw)
  }

  function WriteOp(f: Faults, st: Store, a: Account, v: Text): (Store, bool) {
    var fault := f(st.clock);
    (Store(if fault == Refused then st.entries else st.entries[a := v], st.clock + 1), fault == Fine)
  }

  function RemoveOp(f: Faults, st: Store, a: Account): (Store, bool) {
    var fault := f(st.clock);
    (Store(if fault == Refused then st.entries else st.entries - {a}, st.clock + 1), fault == Fine)
  }

  // ----- The protocol as functions of the store -----

  function WriteChunks(f: Faults, st: Store, s: Server, d: Text, p: Text, i: nat, n: nat): (Store, bool)
    decreases n - i
  {
    if i >= n then (st, true)
    else
      var (st', ok) := WriteOp(f, st, Chunk(s, d, i), Slice(p, i));
      if ok then WriteChunks(f, st', s, d, p, i + 1, n) else (st', false)
  }

  function RemoveChunks(f: Faults, st: Store, s: Server, d: Text, i: nat, n: nat): (Store, bool)
    decreases n - i
  {
    if i >= n then (st, true)
    else
      var (st', ok) := RemoveOp(f, st, Chunk(s, d, i));
      if ok then RemoveChunks(f, st', s, d, i + 1, n) else (st', false)
  }

  function TryRemoveChunks(f: Faults, st: Store, s: Server, m: Option<Manifest>): Store {
    if m.None? then st else RemoveChunks(f, st, s, m.value.chunkDigest, 0, m.value.chunkCount).0
  }

  function ReadChunks(f: Faults, st: Store, s: Server, d: Text, i: nat, n: nat): (Store, Option<Text>)
    decreases n - i
  {
    if i >= n then (st, Some([]))
    else
      var (st', answer) := ReadOp(f, st, Chunk(s, d, i));
      if answer.Threw? || answer.content.None? then (st', None)
      else
        var (st'', rest) := ReadChunks(f, st', s, d, i + 1, n);
        (st'', if rest.None? then None else Some(answer.content.value + rest.value))
  }

  /** The digest comparison `previous?.chunkDigest !== next?.chunkDigest`. */
  predicate SameDigest(a: Option<Manifest>, b: Option<Manifest>) {
    (a.None? && b.None?) || (a.Some? && b.Some? && a.value.chunkDigest == b.value.chunkDigest)
  }

  function ReadExistingManifest(c: Codec, f: Faults, st: Store, s: Server): (Store, Option<Manifest>) {
    var (st', answer) := ReadOp(f, st, Main(s));
    if answer.Threw? || answer.content.None? then (st', None)
    else
      var parsed := c.parseManifest(answer.content.value);
      (st', if parsed.Chunked? then Some(parsed.manifest) else None)
  }

  /** installed: the write of the main account took effect. */
  datatype Saved = Saved(store: Store, ok: bool, installed: bool)

  function Install(c: Codec, f: Faults, st: Store, s: Server, p: Text): Saved {
    var (st1, chunksOk) :=
      if Splits(p) then WriteChunks(f, st, s, c.digest(p), p, 0, Count(p)) else (st, true);
    if !chunksOk then Saved(st1, false, false)
    else
      var (st2, ok) := WriteOp(f, st1, Main(s), MainValue(c, p));
      Saved(st2, ok, f(st1.clock) != Refused)
  }

  function SaveSpec(c: Codec, f: Faults, st: Store, s: Server, r: Record): Saved {
    var p := c.stringify(r);
    var (st1, previous) := ReadExistingManifest(c, f, st, s);
    var manifest := if Splits(p) then Some(CreateManifest(c, p)) else None;
    var attempt := Install(c, f, st1, s, p);
    if SameDigest(previous, manifest) then attempt
    else attempt.(store := TryRemoveChunks(f, attempt.store, s, if attempt.ok then previous else manifest))
  }

  /** removed: the removal of the main account took effect. */
  datatype Removed = Removed(store: Store, ok: bool, removed: bool)

  function RemoveSpec(c: Codec, f: Faults, st: Store, s: Server): Removed {
    var (st1, answer) := ReadOp(f, st, Main(s));
    if answer.Threw? then Removed(st1, false, false)
    else
      var parsed := if answer.content.None? then Plain else c.parseManifest(answer.content.value);
      if parsed.Malformed? then Removed(st1, false, false)
      else
        var (st2, chunksOk) :=
          if parsed.Chunked? then RemoveChunks(f, st1, s, parsed.manifest.chunkDigest, 0, parsed.manifest.chunkCount)
          else (st1, true);
        if !chunksOk then Removed(st2, false, false)
        else
          var (st3, ok) := RemoveOp(f, st2, Main(s));
          Removed(st3, ok, f(st2.clock) != Refused)
  }

  datatype Reading = Absent | Found(record: Record) | Failed

  function Decode(c: Codec, payload: Option<Text>): Reading {
    if payload.None? then Failed
    else
      var record := c.parseRecord(payload.value);
      if record.None? then Failed else Found(record.value)
  }

  function ReadSpec(c: Codec, f: Faults, st: Store, s: Server): (Store, Reading) {
    var (st1, answer) := ReadOp(f, st, Main(s));
    if answer.Threw? then (st1, Failed)
    else if answer.content.None? then (st1, Absent)
    else
      var parsed := c.parseManifest(answer.content.value);
      match parsed
      case Malformed => (st1, Failed)
      case Plain => (st1, Decode(c, answer.content))
      case Chunked(m) =>
        var (st2, payload) := ReadChunks(f, st1, s, m.chunkDigest, 0, m.chunkCount);
        (st2, Decode(c, payload))
  }

  /** The chunks read so far, followed by what reading the others gives. */
  function After(joined: Text, rest: (Store, Option<Text>)): (Store, Option<Text>) {
    (rest.0, if rest.1.None? then None else Some(joined + rest.1.value))
  }

  // ----- The store and the protocol as the program runs them -----

  class SecretStore {
    var entries: map<Account, Text>
    var clock: nat
    const faults: Faults

    ghost function State(): Store
      reads this
    {
      Store(entries, clock)
    }

    constructor (faults: Faults)
      ensures State() == Store(map[], 0) && this.faults == faults
    {
      entries, clock, this.faults := map[], 0, faults;
    }

    method Read(a: Account) returns (answer: Answer)
      modifies this`clock
      ensures (State(), answer) == ReadOp(faults, old(State()), a)
    {
      answer := if faults(clock) == Fine then Value(Lookup(entries, a)) else Threw;
      clock := clock + 1;
    }

    method Write(a: Account, v: Text) returns (ok: bool)
      modifies this
      ensures (State(), ok) == WriteOp(faults, old(State()), a, v)
    {
      if faults(clock) != Refused {
        entries := entries[a := v];
      }
      ok := faults(clock) == Fine;
      clock := clock + 1;
    }

    method Remove(a: Account) returns (ok: bool)
      modifies this
      ensures (State(), ok) == RemoveOp(faults, old(State()), a)
    {
      if faults(clock) != Refused {
        entries := entries - {a};
      }
      ok := faults(clock) == Fine;
      clock := clock + 1;
    }

    /** removeChunks: stops at the first removal that throws. */
    method DropChunks(s: Server, m: Option<Manifest>) returns (ok: bool)
      modifies this
      ensures m.None? ==> ok && State() == old(State())
      ensures m.Some? ==>
        (State(), ok) == RemoveChunks(faults, old(State()), s, m.value.chunkDigest, 0, m.value.chunkCount)
    {
      ok := true;
      if m.None? {
        return;
      }
      var i := 0;
      while ok && i < m.value.chunkCount
        invariant i <= m.value.chunkCount
        invariant if ok
          then RemoveChunks(faults, State(), s, m.value.chunkDigest, i, m.value.chunkCount)
            == RemoveChunks(faults, old(State()), s, m.value.chunkDigest, 0, m.value.chunkCount)
          else (State(), false) == RemoveChunks(faults, old(State()), s, m.value.chunkDigest, 0, m.value.chunkCount)
        decreases m.value.chunkCount - i, ok
      {
        ok := Remove(Chunk(s, m.value.chunkDigest, i));
        if ok {
          i := i + 1;
        }
      }
    }

    method ExistingManifest(c: Codec, s: Server) returns (m: Option<Manifest>)
      modifies this
      ensures (State(), m) == ReadExistingManifest(c, faults, old(State()), s)
    {
      var answer := Read(Main(s));
      m := None;
      if answer.Value? && answer.content.Some? {
        var parsed := c.parseManifest(answer.content.value);
        if parsed.Chunked? {
          m := Some(parsed.manifest);
        }
      }
    }

    method WriteRecord(c: Codec, s: Server, r: Record) returns (ok: bool)
      modifies this
      ensures var out := SaveSpec(c, faults, old(State()), s, r); State() == out.store && ok == out.ok
    {
      var p := c.stringify(r);
      var previous := ExistingManifest(c, s);
      ghost var start := State();
      var manifest := if Splits(p) then Some(CreateManifest(c, p)) else None;
      ok := true;
      if manifest.Some? {
        var i := 0;
        while ok && i < manifest.value.chunkCount
          invariant i <= manifest.value.chunkCount
          invariant if ok
            then WriteChunks(faults, State(), s, c.digest(p), p, i, Count(p))
              == WriteChunks(faults, start, s, c.digest(p), p, 0, Count(p))
            else (State(), false) == WriteChunks(faults, start, s, c.digest(p), p, 0, Count(p))
          decreases manifest.value.chunkCount - i, ok
        {
          ok := Write(Chunk(s, manifest.value.chunkDigest, i), Slice(p, i));
          if ok {
            i := i + 1;
          }
        }
      }
      if ok {
        ok := Write(Main(s), if manifest.Some? then ManifestJson(manifest.value) else p);
      }
      if !SameDigest(previous, manifest) {
        var _ := DropChunks(s, if ok then previous else manifest);
      }
    }

    method RemoveRecord(c: Codec, s: Server) returns (ok: bool)
      modifies this
      ensures var out := RemoveSpec(c, faults, old(State()), s); State() == out.store && ok == out.ok
    {
      var answer := Read(Main(s));
      if answer.Threw? {
        return false;
      }
      var parsed := if answer.content.None? then Plain else c.parseManifest(answer.content.value);
      if parsed.Malformed? {
        return false;
      }
      ok := DropChunks(s, if parsed.Chunked? then Some(parsed.manifest) else None);
      if ok {
        ok := Remove(Main(s));
      }
    }

    method ReadRecord(c: Codec, s: Server) returns (reading: Reading)
      modifies this
      ensures (State(), reading) == ReadSpec(c, faults, old(State()), s)
    {
      var answer := Read(Main(s));
      if answer.Threw? {
        return Failed;
      }
      if answer.content.None? {
        return Absent;
      }
      var parsed := c.parseManifest(answer.content.value);
      if parsed.Malformed? {
        return Failed;
      }
      if parsed.Plain? {
        return Decode(c, answer.content);
      }
      var m := parsed.manifest;
      ghost var start := State();
      var joined, i := [], 0;
      assert forall rest: Text :: [] + rest == rest;
      while i < m.chunkCount
        invariant i <= m.chunkCount
        invariant ReadChunks(faults, start, s, m.chunkDigest, 0, m.chunkCount)
          == After(joined, ReadChunks(faults, State(), s, m.chunkDigest, i, m.chunkCount))
      {
        ghost var rest := ReadChunks(faults, State(), s, m.chunkDigest, i, m.chunkCount);
        var chunk := Read(Chunk(s, m.chunkDigest, i));
        if chunk.Threw? || chunk.content.None? {
          return Failed;
        }
        ghost var tail := ReadChunks(faults, State(), s, m.chunkDigest, i + 1, m.chunkCount);
        assert After(joined, rest) == After(joined + chunk.content.value, tail) by {
          if tail.1.Some? {
            assert joined + (chunk.content.value + tail.1.value) == joined + chunk.content.value + tail.1.value;
          }
        }
        joined, i := joined + chunk.content.value, i + 1;
      }
      assert joined + [] == joined;
      reading := Decode(c, Some(joined));
    }
  }
}
